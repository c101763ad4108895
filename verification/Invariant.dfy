// The invariant of every reachable ledger: tokens belong to their sessions and expire no later,
// turns and profiles outlive the sessions that use them, and nothing is kept beyond one TTL.
module LedgerInvariant {
  import opened Values
  import opened RedisStore
  import opened Requests
  import opened Handlers
  import opened Ledgers

  ghost predicate SoundRecord(c: Config, l: Ledger, k: string)
    requires k in l.records
  {
    var r := l.records[k];
    && k != "" && r.jti != "" && Get(l.owner, r.jti) == Some(k)
    && r.issuedAt <= r.extendedAt <= l.now
    && r.turnsUntil <= l.now + c.ttl
    && PlainOnly(r.plain) && StateField in r.plain
    && r.cusno != Some("")
    && (Live(c, l, k) ==>
          && r.extendedAt + c.ttl <= r.turnsUntil
          && (HasProfile(r) ==>
                ProfileKey(r, k) in l.realtime && r.extendedAt + c.ttl <= l.realtime[ProfileKey(r, k)].until))
  }

  ghost predicate SoundShelves(c: Config, s: map<string, Shelf>, now: int) {
    forall p :: p in s ==> s[p].until <= now + c.ttl
  }

  ghost predicate SoundOwners(l: Ledger) {
    forall j :: j in l.owner ==> l.owner[j] in l.records
  }

  /** What holds of every ledger a run can produce. */
  ghost predicate Sound(c: Config, l: Ledger) {
    && 0 < c.ttl
    && (forall k {:trigger SoundRecord(c, l, k)} :: k in l.records ==> SoundRecord(c, l, k))
    && SoundOwners(l)
    && SoundShelves(c, l.realtime, l.now) && SoundShelves(c, l.batch, l.now)
  }

  /** Identifiers a step draws are new and not empty. */
  ghost predicate Fresh(l: Ledger, s: Step) {
    && (s.Create? ==> s.key != "" && s.jti != "" && s.key !in l.records && s.jti !in l.owner)
    && (s.Rotate? ==> s.newJti != "" && s.newJti !in l.owner)
  }

  lemma OpeningSound(c: Config, now: int)
    requires 0 < c.ttl
    ensures Sound(c, Opening(now))
  {
  }

  /** Shelves are only added to or prolonged. */
  ghost predicate ShelvesGrow(s: map<string, Shelf>, s': map<string, Shelf>) {
    forall p :: p in s ==> p in s' && s[p].until <= s'[p].until
  }

  /** Only the record of k changes; jtis and shelves are only added or prolonged. */
  ghost predicate ChangesOnly(l: Ledger, l': Ledger, k: string) {
    && l'.now == l.now
    && l'.records.Keys == l.records.Keys + {k}
    && (forall x :: x in l.records && x != k ==> l'.records[x] == l.records[x])
    && (forall j :: j in l.owner ==> Get(l'.owner, j) == Some(l.owner[j]))
    && ShelvesGrow(l.realtime, l'.realtime)
  }

  lemma OthersSound(c: Config, l: Ledger, l': Ledger, k: string)
    requires Sound(c, l) && ChangesOnly(l, l', k)
    ensures forall x :: x in l'.records && x != k ==> SoundRecord(c, l', x)
  {
    forall x | x in l'.records && x != k ensures SoundRecord(c, l', x) {
      assert SoundRecord(c, l, x);
    }
  }

  lemma ProlongGrows(c: Config, s: map<string, Shelf>, p: string, now: int)
    requires SoundShelves(c, s, now)
    ensures ShelvesGrow(s, Prolong(s, p, now, now + c.ttl))
    ensures SoundShelves(c, Prolong(s, p, now, now + c.ttl), now)
  {
  }

  lemma CreateSound(c: Config, l: Ledger, s: Step)
    requires Sound(c, l) && s.Create? && Fresh(l, s)
    ensures Sound(c, NextCreate(c, l, s).0)
  {
    var l' := NextCreate(c, l, s).0;
    NewRecordPlain(c, s, l.now);
    OthersSound(c, l, l', s.key);
    assert SoundRecord(c, l', s.key);
  }

  lemma NewRecordPlain(c: Config, s: Step, now: int)
    requires s.Create?
    ensures PlainOnly(NewRecord(c, s, now).plain) && StateField in NewRecord(c, s, now).plain
  {
  }

  lemma ExtendSound(c: Config, l: Ledger, k: string)
    requires Sound(c, l) && Live(c, l, k)
    ensures Sound(c, Extend(c, l, k))
  {
    var r, l' := l.records[k], Extend(c, l, k);
    assert SoundRecord(c, l, k);
    ProlongGrows(c, l.realtime, ProfileKey(r, k), l.now);
    if r.cusno.Some? { ProlongGrows(c, l.batch, r.cusno.value, l.now); }
    OthersSound(c, l, l', k);
    assert SoundRecord(c, l', k);
  }

  lemma ReissueSound(c: Config, l: Ledger, k: string, newJti: string)
    requires Sound(c, l) && k in l.records && l.records[k].extendedAt == l.now
    requires newJti != "" && newJti !in l.owner
    ensures Sound(c, Reissue(l, k, newJti))
  {
    var l' := Reissue(l, k, newJti);
    assert SoundRecord(c, l, k);
    OthersSound(c, l, l', k);
    assert SoundRecord(c, l', k);
  }

  /** Changes that leave a record's times, newest jti and profile key alone. */
  lemma SetSound(c: Config, l: Ledger, k: string, r: Record)
    requires Sound(c, l) && k in l.records
    requires var o := l.records[k];
      && r.extendedAt == o.extendedAt && r.issuedAt == o.issuedAt && r.jti == o.jti && r.cusno == o.cusno
      && r.savedOwn == o.savedOwn && o.turnsUntil <= r.turnsUntil <= l.now + c.ttl
    requires PlainOnly(r.plain) && StateField in r.plain
    ensures Sound(c, SetRecord(l, k, r))
  {
    var l' := SetRecord(l, k, r);
    assert SoundRecord(c, l, k);
    OthersSound(c, l, l', k);
    assert SoundRecord(c, l', k);
  }

  /** Saving a profile under the key the session will look under. */
  lemma ShelveSound(c: Config, l: Ledger, k: string, r: Record, p: string, profile: Json)
    requires Sound(c, l) && Live(c, l, k)
    requires var o := l.records[k];
      && r.extendedAt == o.extendedAt && r.issuedAt == o.issuedAt && r.jti == o.jti && r.turnsUntil == o.turnsUntil
    requires PlainOnly(r.plain) && StateField in r.plain && r.cusno != Some("")
    requires p == ProfileKey(r, k) || (r.cusno == l.records[k].cusno && r.cusno.Some?)
    ensures Sound(c, Shelve(c, l, k, r, p, profile))
  {
    var l' := Shelve(c, l, k, r, p, profile);
    assert SoundRecord(c, l, k);
    OthersSound(c, l, l', k);
    assert SoundRecord(c, l', k);
  }

  lemma BatchSound(c: Config, l: Ledger, p: string, v: Json)
    requires Sound(c, l)
    ensures Sound(c, ShelveBatch(c, l, p, v))
  {
    forall k | k in l.records ensures SoundRecord(c, ShelveBatch(c, l, p, v), k) {
      assert SoundRecord(c, l, k);
    }
  }

  lemma CustomerSound(c: Config, l: Ledger, k: string, n: string, profile: Json)
    requires Sound(c, l) && Live(c, l, k) && n != ""
    ensures Sound(c, Shelve(c, l, k, Touch(l.records[k].(cusno := Some(n)), map[], l.now), n, profile))
  {
    assert SoundRecord(c, l, k);
    ShelveSound(c, l, k, Touch(l.records[k].(cusno := Some(n)), map[], l.now), n, profile);
  }

  lemma OwnProfileSound(c: Config, l: Ledger, k: string, profile: Json)
    requires Sound(c, l) && Live(c, l, k)
    ensures Sound(c, Shelve(c, l, k, l.records[k].(savedOwn := true), k, profile))
  {
    assert SoundRecord(c, l, k);
    ShelveSound(c, l, k, l.records[k].(savedOwn := true), k, profile);
  }

  lemma ProfileSound(c: Config, l: Ledger, k: string, profile: map<string, Json>, fetched: Option<Json>)
    requires Sound(c, l)
    ensures Sound(c, NextUpdateProfile(c, l, k, profile, fetched).0)
  {
    if Live(c, l, k) {
      match CustomerIn(c, profile)
      case Malformed =>
      case NoCustomer => OwnProfileSound(c, l, k, Obj(profile));
      case Customer(n) =>
        CustomerSound(c, l, k, n, Obj(profile));
        var l1 := Shelve(c, l, k, Touch(l.records[k].(cusno := Some(n)), map[], l.now), n, Obj(profile));
        if fetched.Some? { BatchSound(c, l1, n, fetched.value); }
    }
  }

  lemma TickSound(c: Config, l: Ledger, d: nat)
    requires Sound(c, l)
    ensures Sound(c, l.(now := l.now + d))
  {
    var l' := l.(now := l.now + d);
    forall k | k in l'.records ensures SoundRecord(c, l', k) {
      assert SoundRecord(c, l, k);
    }
  }

  lemma PatchSound(c: Config, l: Ledger, k: string, q: PatchRequest)
    requires Sound(c, l)
    ensures Sound(c, NextPatch(c, l, k, q).0)
  {
    if Live(c, l, k) {
      if q.state == Some(Talk) { ExtendSound(c, l, k); }
      var l1 := if q.state == Some(Talk) then Extend(c, l, k) else l;
      assert SoundRecord(c, l1, k);
      SetSound(c, l1, k, Amend(l1.records[k], q, l.now));
    }
  }

  lemma RotateSound(c: Config, l: Ledger, t: Token, newJti: string)
    requires Sound(c, l) && newJti != "" && newJti !in l.owner
    ensures Sound(c, NextRotate(c, l, t, newJti).0)
  {
    var g := Permit(c, l, t, Some(Refresh));
    if g.Granted? {
      assert SoundRecord(c, l, g.key);
      ExtendSound(c, l, g.key);
      ReissueSound(c, Extend(c, l, g.key), g.key, newJti);
    }
  }

  lemma CloseByKeySound(c: Config, l: Ledger, k: string, reason: Option<string>, summary: Option<string>)
    requires Sound(c, l)
    ensures Sound(c, NextCloseByKey(c, l, k, reason, summary).0)
  {
    if Live(c, l, k) {
      assert SoundRecord(c, l, k);
      SetSound(c, l, k, Touch(l.records[k], CloseFields(reason, summary, l.now), l.now));
    }
  }

  lemma CloseByTokenSound(c: Config, l: Ledger, t: Token, reason: Option<string>)
    requires Sound(c, l)
    ensures Sound(c, NextCloseByToken(c, l, t, reason).0)
  {
    var g := Permit(c, l, t, None);
    if g.Granted? {
      assert SoundRecord(c, l, g.key);
      SetSound(c, l, g.key, Touch(l.records[g.key], CloseFields(reason, None, l.now), l.now).(revoked := true));
    }
  }

  lemma SaveResultSound(c: Config, l: Ledger, k: string, q: ApiResult)
    requires Sound(c, l)
    ensures Sound(c, NextSaveResult(c, l, k, q).0)
  {
    if Live(c, l, k) {
      assert SoundRecord(c, l, k);
      SetSound(c, l, k, AppendTurn(l.records[k], TurnOf(q, l.now), l.now + c.ttl));
    }
  }

  /** Every step keeps the invariant. */
  lemma NextSound(c: Config, l: Ledger, s: Step)
    requires Sound(c, l) && Fresh(l, s)
    ensures Sound(c, Next(c, l, s).0)
  {
    match s
    case Create(_, _, _, _, _) => CreateSound(c, l, s);
    case Rotate(t, newJti) => RotateSound(c, l, t, newJti);
    case Patch(k, q) => PatchSound(c, l, k, q);
    case CloseByKey(k, reason, summary) => CloseByKeySound(c, l, k, reason, summary);
    case CloseByToken(t, reason) => CloseByTokenSound(c, l, t, reason);
    case SaveResult(k, q) => SaveResultSound(c, l, k, q);
    case UpdateProfile(k, profile, fetched) => ProfileSound(c, l, k, profile, fetched);
    case Tick(d) => TickSound(c, l, d);
    case _ =>
  }
}
