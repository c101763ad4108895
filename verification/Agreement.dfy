// The ledger keeps exactly what the trace of a run says: one lemma per handler.
module Agreement {
  import opened Values
  import opened RedisStore
  import opened Requests
  import opened Handlers
  import opened Ledgers
  import opened LedgerInvariant
  import opened Runs

  predicate SavesTurn(e: Event, k: string) {
    e.step.SaveResult? && e.step.key == k && e.response.TurnSaved?
  }

  /** The event is about something else than session k. */
  predicate Silent(e: Event, k: string) {
    && !Renews(e, k) && !Accepts(e, k) && !SavesFor(e, k) && !SavesTurn(e, k)
    && !(e.step.CloseByToken? && e.response.Closed?)
  }

  lemma EverSavedStep(tr: seq<Event>, e: Event, k: string)
    ensures EverSaved(tr + [e], k) <==> EverSaved(tr, k) || SavesFor(e, k)
  {
    var tr' := tr + [e];
    assert tr'[|tr|] == e;
    assert forall i :: 0 <= i < |tr| ==> tr'[i] == tr[i];
    if EverSaved(tr', k) {
      var i :| 0 <= i < |tr'| && SavesFor(tr'[i], k);
      assert i < |tr| ==> SavesFor(tr[i], k);
    }
    if EverSaved(tr, k) {
      var i :| 0 <= i < |tr| && SavesFor(tr[i], k);
      assert SavesFor(tr'[i], k);
    }
  }

  /** The trace functions that concern patches and turns, one event later. */
  lemma ContentStep(tr: seq<Event>, e: Event, k: string)
    ensures TurnsIn(tr + [e], k) == TurnsIn(tr, k) + if SavesTurn(e, k) then [e.response.turn] else []
    ensures !Accepts(e, k) ==>
      && PatchedIds(tr + [e], k) == PatchedIds(tr, k) && LastReference(tr + [e], k) == LastReference(tr, k)
      && (forall a :: LastAgent(tr + [e], k, a) == LastAgent(tr, k, a))
  {
    assert (tr + [e])[..|tr|] == tr;
  }

  lemma TimesStep(c: Config, tr: seq<Event>, e: Event, k: string)
    ensures LastRenewal(tr + [e], k) == if Renews(e, k) then Some(e.at) else LastRenewal(tr, k)
    ensures LastIssue(tr + [e], k) == if Issues(e, k) then Some(e) else LastIssue(tr, k)
    ensures !(e.step.CloseByToken? && e.response.Closed?) ==>
      ClosedByToken(tr + [e], k) == (!Issues(e, k) && ClosedByToken(tr, k))
    ensures !SavesFor(e, k) ==> LastCustomer(c, tr + [e], k) == LastCustomer(c, tr, k)
  {
    assert (tr + [e])[..|tr|] == tr;
  }

  lemma SilentStep(c: Config, tr: seq<Event>, e: Event, k: string)
    requires Silent(e, k)
    ensures Untouched(c, tr, k) ==> Untouched(c, tr + [e], k)
  {
    ContentStep(tr, e, k);
    TimesStep(c, tr, e, k);
    EverSavedStep(tr, e, k);
  }

  /** A silent event and a record whose tracked fields did not change. */
  lemma KeptAgrees(c: Config, l: Ledger, l': Ledger, tr: seq<Event>, e: Event, k: string)
    requires k in l.records && k in l'.records && AgreesOn(c, l, tr, k) && Silent(e, k)
    requires var o, r := l.records[k], l'.records[k];
      r == o.(plain := r.plain, turnsUntil := r.turnsUntil)
    ensures AgreesOn(c, l', tr + [e], k)
  {
    ContentStep(tr, e, k);
    TimesStep(c, tr, e, k);
    EverSavedStep(tr, e, k);
  }

  lemma ProfilesKept(c: Config, tr: seq<Event>, e: Event)
    requires !(e.step.UpdateProfile? && e.response.ProfileSaved?)
    ensures forall p :: LastProfile(c, tr + [e], p) == LastProfile(c, tr, p)
  {
    assert (tr + [e])[..|tr|] == tr;
  }

  /** Sessions other than k, when only k's record changed. */
  ghost predicate OthersSilent(l: Ledger, l': Ledger, e: Event, k: string) {
    && l'.records.Keys == l.records.Keys + {k}
    && forall x :: x != k ==> Silent(e, x) && (x in l.records ==> l'.records[x] == l.records[x])
  }

  lemma OthersAgree(c: Config, l: Ledger, l': Ledger, tr: seq<Event>, e: Event, k: string)
    requires Agrees(c, l, tr) && OthersSilent(l, l', e, k)
    ensures forall x {:trigger AgreesOn(c, l', tr + [e], x)} ::
      x != k && x in l'.records ==> AgreesOn(c, l', tr + [e], x)
    ensures forall x {:trigger Untouched(c, tr + [e], x)} :: x != k && x !in l'.records ==> Untouched(c, tr + [e], x)
  {
    forall x | x != k
      ensures x in l'.records ==> AgreesOn(c, l', tr + [e], x)
      ensures x !in l'.records ==> Untouched(c, tr + [e], x)
    {
      if x in l'.records {
        assert AgreesOn(c, l, tr, x);
        KeptAgrees(c, l, l', tr, e, x);
      } else {
        assert Untouched(c, tr, x);
        SilentStep(c, tr, e, x);
      }
    }
  }

  // ---------- steps that leave every tracked field alone ----------

  ghost predicate SameTracked(l: Ledger, l': Ledger) {
    && l'.records.Keys == l.records.Keys && l'.realtime == l.realtime
    && forall k :: k in l.records ==>
         l'.records[k] == l.records[k].(plain := l'.records[k].plain, turnsUntil := l'.records[k].turnsUntil)
  }

  lemma QuietAgrees(c: Config, l: Ledger, l': Ledger, tr: seq<Event>, e: Event)
    requires Agrees(c, l, tr) && SameTracked(l, l')
    requires forall k :: Silent(e, k)
    requires !(e.step.UpdateProfile? && e.response.ProfileSaved?)
    ensures Agrees(c, l', tr + [e])
  {
    ProfilesKept(c, tr, e);
    forall k
      ensures k in l'.records ==> AgreesOn(c, l', tr + [e], k)
      ensures k !in l'.records ==> Untouched(c, tr + [e], k)
    {
      if k in l.records {
        assert AgreesOn(c, l, tr, k);
        KeptAgrees(c, l, l', tr, e, k);
      } else {
        assert Untouched(c, tr, k);
        SilentStep(c, tr, e, k);
      }
    }
  }

  lemma CreateAgrees(c: Config, l: Ledger, tr: seq<Event>, s: Step)
    requires Agrees(c, l, tr) && s.Create? && Fresh(l, s)
    ensures var n := NextCreate(c, l, s); Agrees(c, n.0, tr + [Event(l.now, s, n.1)])
  {
    var (l', resp) := NextCreate(c, l, s);
    var e := Event(l.now, s, resp);
    ProfilesKept(c, tr, e);
    OthersAgree(c, l, l', tr, e, s.key);
    assert Untouched(c, tr, s.key);
    ContentStep(tr, e, s.key);
    TimesStep(c, tr, e, s.key);
    EverSavedStep(tr, e, s.key);
    assert AgreesOn(c, l', tr + [e], s.key);
  }

  lemma ProlongKeeps(s: map<string, Shelf>, p: string, now: int, until: int)
    ensures var s' := Prolong(s, p, now, until);
      s'.Keys == s.Keys && forall x :: x in s ==> s'[x].value == s[x].value
  {
  }

  lemma RotateShape(c: Config, l: Ledger, k: string, newJti: string)
    requires k in l.records
    ensures var l', r := Reissue(Extend(c, l, k), k, newJti), l.records[k];
      && l'.records
         == l.records[k := r.(extendedAt := l.now, turnsUntil := l.now + c.ttl, issuedAt := l.now, jti := newJti)]
      && l'.realtime.Keys == l.realtime.Keys
      && (forall p :: p in l.realtime ==> l'.realtime[p].value == l.realtime[p].value)
  {
    ProlongKeeps(l.realtime, ProfileKey(l.records[k], k), l.now, l.now + c.ttl);
  }

  lemma RotateAgreesOn(c: Config, l: Ledger, l': Ledger, tr: seq<Event>, e: Event, k: string)
    requires k in l.records && k in l'.records && AgreesOn(c, l, tr, k) && !l.records[k].revoked
    requires e.step.Rotate? && e.response.Rotated? && e.response.key == k && e.at == l.now
    requires e.response.refresh == RefreshToken(c, e.response.jti, e.response.refresh.sub, l.now)
    requires e.response.access == AccessToken(c, e.response.jti, e.response.access.sub, l.now)
    requires l'.records[k]
        == l.records[k].(extendedAt := l.now, turnsUntil := l.now + c.ttl, issuedAt := l.now, jti := e.response.jti)
    ensures AgreesOn(c, l', tr + [e], k)
  {
    ContentStep(tr, e, k);
    TimesStep(c, tr, e, k);
    EverSavedStep(tr, e, k);
  }

  lemma RotateAgrees(c: Config, l: Ledger, tr: seq<Event>, t: Token, newJti: string)
    requires Sound(c, l) && Agrees(c, l, tr)
    ensures var n := NextRotate(c, l, t, newJti); Agrees(c, n.0, tr + [Event(l.now, Rotate(t, newJti), n.1)])
  {
    var (l', resp) := NextRotate(c, l, t, newJti);
    var e := Event(l.now, Rotate(t, newJti), resp);
    var g := Permit(c, l, t, Some(Refresh));
    if g.Refused? {
      QuietAgrees(c, l, l', tr, e);
    } else {
      var k := g.key;
      RotateShape(c, l, k, newJti);
      assert AgreesOn(c, l, tr, k);
      RotateAgreesOn(c, l, l', tr, e, k);
      OneChanged(c, l, l', tr, e, k);
    }
  }

  lemma TurnAgreesOn(c: Config, l: Ledger, l': Ledger, tr: seq<Event>, e: Event, k: string)
    requires k in l.records && k in l'.records && AgreesOn(c, l, tr, k)
    requires e.step.SaveResult? && e.step.key == k && e.response.TurnSaved?
    requires l'.records[k] == AppendTurn(l.records[k], e.response.turn, l'.records[k].turnsUntil)
    ensures AgreesOn(c, l', tr + [e], k)
  {
    ContentStep(tr, e, k);
    TimesStep(c, tr, e, k);
    EverSavedStep(tr, e, k);
  }

  lemma StoredTurnAgrees(c: Config, l: Ledger, tr: seq<Event>, k: string, q: ApiResult, turn: Json)
    requires Agrees(c, l, tr)
    ensures var n := NextTurn(c, l, k, turn); Agrees(c, n.0, tr + [Event(l.now, SaveResult(k, q), n.1)])
  {
    var (l', resp) := NextTurn(c, l, k, turn);
    var e := Event(l.now, SaveResult(k, q), resp);
    if !Live(c, l, k) {
      QuietAgrees(c, l, l', tr, e);
    } else {
      assert AgreesOn(c, l, tr, k);
      TurnAgreesOn(c, l, l', tr, e, k);
      OneChanged(c, l, l', tr, e, k);
    }
  }

  lemma TurnAgrees(c: Config, l: Ledger, tr: seq<Event>, k: string, q: ApiResult)
    requires Agrees(c, l, tr)
    ensures var n := NextSaveResult(c, l, k, q); Agrees(c, n.0, tr + [Event(l.now, SaveResult(k, q), n.1)])
  {
    StoredTurnAgrees(c, l, tr, k, q, TurnOf(q, l.now));
  }

  lemma TouchTracked(l: Ledger, k: string, fields: Hash)
    requires k in l.records
    ensures SameTracked(l, SetRecord(l, k, Touch(l.records[k], fields, l.now)))
  {
  }

  lemma CloseByKeyAgrees(c: Config, l: Ledger, tr: seq<Event>, k: string, reason: Option<string>,
      summary: Option<string>)
    requires Agrees(c, l, tr)
    ensures var n := NextCloseByKey(c, l, k, reason, summary);
      Agrees(c, n.0, tr + [Event(l.now, CloseByKey(k, reason, summary), n.1)])
  {
    var (l', resp) := NextCloseByKey(c, l, k, reason, summary);
    var e := Event(l.now, CloseByKey(k, reason, summary), resp);
    if Live(c, l, k) { TouchTracked(l, k, CloseFields(reason, summary, l.now)); }
    assert forall x :: Silent(e, x);
    QuietAgrees(c, l, l', tr, e);
  }

  /** An accepted close by token marks exactly the session whose newest jti it carried. */
  lemma CloseMarks(c: Config, l: Ledger, tr: seq<Event>, e: Event, k: string, x: string)
    requires Sound(c, l) && e.step.CloseByToken? && e.response.Closed?
    requires k in l.records && l.records[k].jti == e.step.token.jti
    requires x in l.records && AgreesOn(c, l, tr, x)
    ensures ClosedByToken(tr + [e], x) <==> (x == k || l.records[x].revoked)
    ensures LastIssue(tr + [e], x) == LastIssue(tr, x) && LastRenewal(tr + [e], x) == LastRenewal(tr, x)
    ensures LastCustomer(c, tr + [e], x) == LastCustomer(c, tr, x)
  {
    assert (tr + [e])[..|tr|] == tr;
    assert SoundRecord(c, l, k) && SoundRecord(c, l, x);
  }

  lemma CloseUntouched(c: Config, tr: seq<Event>, e: Event, x: string)
    requires e.step.CloseByToken? && e.response.Closed? && Untouched(c, tr, x)
    ensures Untouched(c, tr + [e], x)
  {
    assert (tr + [e])[..|tr|] == tr;
    ContentStep(tr, e, x);
    TimesStep(c, tr, e, x);
    EverSavedStep(tr, e, x);
  }

  lemma CloseAgreesOn(c: Config, l: Ledger, l': Ledger, tr: seq<Event>, e: Event, k: string, x: string)
    requires Sound(c, l) && e.step.CloseByToken? && e.response.Closed?
    requires k in l.records && l.records[k].jti == e.step.token.jti
    requires x in l.records && x in l'.records && AgreesOn(c, l, tr, x)
    requires var o, r := l.records[x], l'.records[x]; r == o.(plain := r.plain, revoked := x == k || o.revoked)
    ensures AgreesOn(c, l', tr + [e], x)
  {
    CloseMarks(c, l, tr, e, k, x);
    ContentStep(tr, e, x);
    EverSavedStep(tr, e, x);
  }

  lemma CloseAgreesAll(c: Config, l: Ledger, l': Ledger, tr: seq<Event>, e: Event, k: string)
    requires Sound(c, l) && Agrees(c, l, tr) && e.step.CloseByToken? && e.response.Closed?
    requires k in l.records && l.records[k].jti == e.step.token.jti
    requires l'.records.Keys == l.records.Keys && l'.realtime == l.realtime
    requires forall x :: x in l.records ==>
      l'.records[x] == l.records[x].(plain := l'.records[x].plain, revoked := x == k || l.records[x].revoked)
    ensures Agrees(c, l', tr + [e])
  {
    ProfilesKept(c, tr, e);
    forall x
      ensures x in l'.records ==> AgreesOn(c, l', tr + [e], x)
      ensures x !in l'.records ==> Untouched(c, tr + [e], x)
    {
      if x in l.records {
        assert AgreesOn(c, l, tr, x);
        CloseAgreesOn(c, l, l', tr, e, k, x);
      } else {
        assert Untouched(c, tr, x);
        CloseUntouched(c, tr, e, x);
      }
    }
  }

  lemma CloseByTokenAgrees(c: Config, l: Ledger, tr: seq<Event>, t: Token, reason: Option<string>)
    requires Sound(c, l) && Agrees(c, l, tr)
    ensures var n := NextCloseByToken(c, l, t, reason);
      Agrees(c, n.0, tr + [Event(l.now, CloseByToken(t, reason), n.1)])
  {
    var (l', resp) := NextCloseByToken(c, l, t, reason);
    var e := Event(l.now, CloseByToken(t, reason), resp);
    var g := Permit(c, l, t, None);
    if g.Refused? {
      QuietAgrees(c, l, l', tr, e);
    } else {
      CloseAgreesAll(c, l, l', tr, e, g.key);
    }
  }

  // ---------- patches ----------

  lemma PatchedIdsStep(tr: seq<Event>, e: Event, k: string)
    requires Accepts(e, k)
    ensures PatchedIds(tr + [e], k) == [] <==> PatchedIds(tr, k) == [] && e.step.request.turnId.None?
    ensures FirstSeen(PatchedIds(tr + [e], k))
            == if e.step.request.turnId.Some? then AddTurnId(FirstSeen(PatchedIds(tr, k)), e.step.request.turnId.value)
               else FirstSeen(PatchedIds(tr, k))
  {
    assert (tr + [e])[..|tr|] == tr;
    var ids, q := PatchedIds(tr, k), e.step.request;
    if q.turnId.Some? {
      assert PatchedIds(tr + [e], k) == ids + [q.turnId.value];
      assert (ids + [q.turnId.value])[..|ids|] == ids;
    } else {
      assert PatchedIds(tr + [e], k) == ids;
    }
  }

  lemma LastAgentStep(tr: seq<Event>, e: Event, k: string, agents: map<string, Agent>)
    requires Accepts(e, k) && forall a :: Get(agents, a) == LastAgent(tr, k, a)
    ensures forall a :: Get(AmendedAgents(agents, e.step.request), a) == LastAgent(tr + [e], k, a)
    ensures LastReference(tr + [e], k) == AmendedReference(LastReference(tr, k), e.step.request)
  {
    assert (tr + [e])[..|tr|] == tr;
  }

  lemma PatchContent(tr: seq<Event>, e: Event, k: string, o: Record, r: Record)
    requires Accepts(e, k) && ContentAgrees(o, tr, k) && r.turns == o.turns
    requires var q := e.step.request;
      && r.turnIds == AmendedTurnIds(o.turnIds, q) && r.agents == AmendedAgents(o.agents, q)
      && r.reference == AmendedReference(o.reference, q)
    ensures ContentAgrees(r, tr + [e], k)
  {
    ContentStep(tr, e, k);
    PatchedIdsStep(tr, e, k);
    LastAgentStep(tr, e, k, o.agents);
  }

  lemma PatchAgreesOn(c: Config, l: Ledger, tr: seq<Event>, k: string, q: PatchRequest)
    requires Agrees(c, l, tr) && Live(c, l, k)
    ensures var n := NextPatch(c, l, k, q); AgreesOn(c, n.0, tr + [Event(l.now, Patch(k, q), n.1)], k)
  {
    var (l', resp) := NextPatch(c, l, k, q);
    var e := Event(l.now, Patch(k, q), resp);
    assert AgreesOn(c, l, tr, k);
    TimesStep(c, tr, e, k);
    EverSavedStep(tr, e, k);
    if Rejected(q) {
      ContentStep(tr, e, k);
    } else {
      PatchContent(tr, e, k, l.records[k], l'.records[k]);
    }
  }

  lemma PatchOthers(c: Config, l: Ledger, k: string, q: PatchRequest)
    requires Live(c, l, k)
    ensures var n := NextPatch(c, l, k, q);
      && k in n.0.records && n.0.records == l.records[k := n.0.records[k]]
      && n.0.realtime.Keys == l.realtime.Keys
      && (forall p :: p in l.realtime ==> n.0.realtime[p].value == l.realtime[p].value)
  {
    ProlongKeeps(l.realtime, ProfileKey(l.records[k], k), l.now, l.now + c.ttl);
  }

  lemma PatchAgrees(c: Config, l: Ledger, tr: seq<Event>, k: string, q: PatchRequest)
    requires Agrees(c, l, tr)
    ensures var n := NextPatch(c, l, k, q); Agrees(c, n.0, tr + [Event(l.now, Patch(k, q), n.1)])
  {
    var (l', resp) := NextPatch(c, l, k, q);
    var e := Event(l.now, Patch(k, q), resp);
    if !Live(c, l, k) {
      QuietAgrees(c, l, l', tr, e);
    } else {
      PatchOthers(c, l, k, q);
      PatchAgreesOn(c, l, tr, k, q);
      assert forall x :: x != k ==> Silent(e, x);
      OneChanged(c, l, l', tr, e, k);
    }
  }

  /** Only session k is concerned, it agrees afterwards, and no profile was written. */
  lemma OneChanged(c: Config, l: Ledger, l': Ledger, tr: seq<Event>, e: Event, k: string)
    requires Agrees(c, l, tr) && OthersSilent(l, l', e, k)
    requires k in l'.records && AgreesOn(c, l', tr + [e], k)
    requires !(e.step.UpdateProfile? && e.response.ProfileSaved?)
    requires l'.realtime.Keys == l.realtime.Keys
    requires forall p :: p in l.realtime ==> l'.realtime[p].value == l.realtime[p].value
    ensures Agrees(c, l', tr + [e])
  {
    ProfilesKept(c, tr, e);
    OthersAgree(c, l, l', tr, e, k);
  }

  // ---------- profiles ----------

  lemma ProfileAgreesOn(c: Config, l: Ledger, l': Ledger, tr: seq<Event>, e: Event, k: string)
    requires k in l.records && k in l'.records && AgreesOn(c, l, tr, k) && SavesFor(e, k)
    requires var who := CustomerIn(c, e.step.profile);
      !who.Malformed? && ProfileChange(l.records[k], l'.records[k], who)
    ensures AgreesOn(c, l', tr + [e], k)
  {
    assert (tr + [e])[..|tr|] == tr;
    ContentStep(tr, e, k);
    TimesStep(c, tr, e, k);
    EverSavedStep(tr, e, k);
  }

  lemma ProfileWritten(c: Config, tr: seq<Event>, e: Event, s: map<string, Shelf>, s': map<string, Shelf>)
    requires forall p :: LastProfile(c, tr, p) == if p in s then Some(s[p].value) else None
    requires e.step.UpdateProfile? && e.response.ProfileSaved?
    requires s'.Keys == s.Keys + {WrittenKey(c, e.step)} && s'[WrittenKey(c, e.step)].value == Obj(e.step.profile)
    requires forall p :: p in s && p != WrittenKey(c, e.step) ==> s'[p] == s[p]
    ensures forall p :: LastProfile(c, tr + [e], p) == if p in s' then Some(s'[p].value) else None
  {
    assert (tr + [e])[..|tr|] == tr;
  }

  ghost predicate Shaped(l: Ledger, l': Ledger, k: string, r: Record, p: string, shelf: Shelf) {
    k in l'.records && l'.records[k] == r && l'.records == l.records[k := r] && l'.realtime == l.realtime[p := shelf]
  }

  lemma CustomerShape(c: Config, l: Ledger, k: string, n: string, profile: map<string, Json>, fetched: Option<Json>)
    requires Live(c, l, k) && CustomerIn(c, profile) == Customer(n)
    ensures var l' := NextUpdateProfile(c, l, k, profile, fetched).0;
      Shaped(l, l', k, Touch(l.records[k].(cusno := Some(n)), map[], l.now), n, Shelf(Obj(profile), l.now + c.ttl))
  {
  }

  lemma OwnShape(c: Config, l: Ledger, k: string, profile: map<string, Json>, fetched: Option<Json>)
    requires Live(c, l, k) && CustomerIn(c, profile) == NoCustomer
    ensures var l' := NextUpdateProfile(c, l, k, profile, fetched).0;
      Shaped(l, l', k, l.records[k].(savedOwn := true), k, Shelf(Obj(profile), l.now + c.ttl))
  {
  }

  ghost predicate ProfileChange(o: Record, r: Record, who: Customer) {
    if who.Customer? then r == o.(plain := r.plain, cusno := Some(who.cusno)) else r == o.(savedOwn := true)
  }

  lemma ProfileAgrees(c: Config, l: Ledger, tr: seq<Event>, k: string, profile: map<string, Json>,
      fetched: Option<Json>)
    requires Agrees(c, l, tr)
    ensures var n := NextUpdateProfile(c, l, k, profile, fetched);
      Agrees(c, n.0, tr + [Event(l.now, UpdateProfile(k, profile, fetched), n.1)])
  {
    var (l', resp) := NextUpdateProfile(c, l, k, profile, fetched);
    var e := Event(l.now, UpdateProfile(k, profile, fetched), resp);
    if !Live(c, l, k) || CustomerIn(c, profile).Malformed? {
      QuietAgrees(c, l, l', tr, e);
    } else {
      var who := CustomerIn(c, profile);
      if who.Customer? {
        CustomerShape(c, l, k, who.cusno, profile, fetched);
      } else {
        OwnShape(c, l, k, profile, fetched);
      }
      ProfileSavedAgrees(c, l, l', tr, e, k);
    }
  }

  lemma ProfileSavedAgrees(c: Config, l: Ledger, l': Ledger, tr: seq<Event>, e: Event, k: string)
    requires Agrees(c, l, tr) && SavesFor(e, k) && k in l.records && k in l'.records
    requires l'.records == l.records[k := l'.records[k]] && !CustomerIn(c, e.step.profile).Malformed?
    requires l'.realtime == l.realtime[WrittenKey(c, e.step) := Shelf(Obj(e.step.profile), l.now + c.ttl)]
    requires ProfileChange(l.records[k], l'.records[k], CustomerIn(c, e.step.profile))
    ensures Agrees(c, l', tr + [e])
  {
    ProfileWritten(c, tr, e, l.realtime, l'.realtime);
    assert forall x :: x != k ==> Silent(e, x);
    OthersAgree(c, l, l', tr, e, k);
    assert AgreesOn(c, l, tr, k);
    ProfileAgreesOn(c, l, l', tr, e, k);
  }

  // ---------- any step, any run ----------

  lemma NextAgrees(c: Config, l: Ledger, tr: seq<Event>, s: Step)
    requires Sound(c, l) && Fresh(l, s) && Agrees(c, l, tr)
    ensures Agrees(c, Next(c, l, s).0, tr + [Event(l.now, s, Next(c, l, s).1)])
  {
    match s
    case Create(_, _, _, _, _) => CreateAgrees(c, l, tr, s);
    case Rotate(t, newJti) => RotateAgrees(c, l, tr, t, newJti);
    case Patch(k, q) => PatchAgrees(c, l, tr, k, q);
    case CloseByKey(k, reason, summary) => CloseByKeyAgrees(c, l, tr, k, reason, summary);
    case CloseByToken(t, reason) => CloseByTokenAgrees(c, l, tr, t, reason);
    case SaveResult(k, q) => TurnAgrees(c, l, tr, k, q);
    case UpdateProfile(k, profile, fetched) => ProfileAgrees(c, l, tr, k, profile, fetched);
    case _ =>
      QuietAgrees(c, l, Next(c, l, s).0, tr, Event(l.now, s, Next(c, l, s).1));
  }

  lemma {:induction false} RunAgrees(c: Config, t0: int, steps: seq<Step>)
    requires 0 < c.ttl && Admissible(steps)
    ensures var (l, tr) := LedgerRun(c, t0, steps); Agrees(c, l, tr)
  {
    if steps != [] {
      var prev, s := steps[..|steps| - 1], steps[|steps| - 1];
      assert steps == prev + [s];
      AdmissiblePrefix(steps, |steps| - 1);
      RunAgrees(c, t0, prev);
      RunRefines(c, t0, prev);
      DrawnFresh(LedgerRun(c, t0, prev).0, prev, s);
      NextAgrees(c, LedgerRun(c, t0, prev).0, LedgerRun(c, t0, prev).1, s);
    }
  }
}
