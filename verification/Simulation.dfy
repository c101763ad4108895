// The Redis store and the ledger move in step: handling a request on a store that mirrors a
// ledger gives a store that mirrors the next ledger, and the ledger's own answer.
module Simulation {
  import opened Values
  import opened RedisStore
  import opened Requests
  import opened Handlers
  import opened Ledgers
  import opened LedgerInvariant

  // ---------- records and the hashes they render to ----------

  lemma RenderField(c: Config, r: Record, f: HashField)
    requires PlainOnly(r.plain)
    ensures Get(Render(c, r), f) == if IsDecoded(f) then DecodedField(c, r, f) else Get(r.plain, f)
  {
  }

  lemma RenderPlain(c: Config, r: Record)
    requires PlainOnly(r.plain)
    ensures ViewPlain(Render(c, r)) == ViewPlain(r.plain)
  {
    RenderField(c, r, TriggerIdField);
    RenderField(c, r, ChannelField);
    RenderField(c, r, StartTypeField);
    RenderField(c, r, StateField);
    RenderField(c, r, TaskQueueField);
    RenderField(c, r, SubagentField);
    RenderField(c, r, LastEventField);
  }

  lemma TurnIdsRead(c: Config, h: Hash, ids: seq<string>)
    requires Get(h, TurnIdsField) == Some(DumpIds(ids))
    ensures TurnIds(c, h) == Some(ids)
  {
    assert TurnIds(c, h).value == ids;
  }

  lemma RenderExpiry(c: Config, r: Record)
    requires PlainOnly(r.plain)
    ensures ExpiresAt(Render(c, r)) == Some(r.extendedAt + c.ttl) && Render(c, r) != map[]
  {
    RenderField(c, r, ExpiresAtField);
    assert ExpiresAtField in Render(c, r);
  }

  lemma RenderCusno(c: Config, r: Record, k: string)
    requires PlainOnly(r.plain) && r.cusno != Some("")
    ensures Cusno(Render(c, r)) == r.cusno
    ensures EffectiveKey(Render(c, r), k) == ProfileKey(r, k)
  {
    RenderField(c, r, CusnoField);
  }

  lemma RenderTurnIds(c: Config, r: Record)
    requires PlainOnly(r.plain)
    ensures TurnIds(c, Render(c, r)) == r.turnIds
  {
    RenderField(c, r, TurnIdsField);
    if r.turnIds.Some? {
      TurnIdsRead(c, Render(c, r), r.turnIds.value);
    }
  }

  lemma RenderJson(c: Config, r: Record)
    requires PlainOnly(r.plain)
    ensures ParseField(Render(c, r), ReferenceField) == if r.reference != map[] then Some(Obj(r.reference)) else None
    ensures ObjectOf(ParseField(Render(c, r), AgentsField)) == EncodeAgents(r.agents)
  {
    RenderField(c, r, ReferenceField);
    RenderField(c, r, AgentsField);
  }

  /** Records that differ in their plain fields only. */
  lemma DecodedSame(c: Config, r: Record, plain: Hash)
    ensures Decoded(c, r.(plain := plain)) == Decoded(c, r)
  {
    forall f: HashField ensures DecodedField(c, r.(plain := plain), f) == DecodedField(c, r, f) {
    }
  }

  lemma MergeCommutes(plain: Hash, decoded: Hash, u: Hash)
    requires PlainOnly(u) && forall f :: f in decoded ==> IsDecoded(f)
    ensures plain + u + decoded == plain + decoded + u
  {
  }

  /** Rewriting a record's plain fields is an HSET of those fields. */
  lemma RenderTouch(c: Config, r: Record, fields: Hash, now: int)
    requires PlainOnly(r.plain) && PlainOnly(fields)
    ensures Render(c, Touch(r, fields, now)) == Render(c, r) + Stamped(fields, now)
    ensures PlainOnly(Touch(r, fields, now).plain)
  {
    DecodedSame(c, r, r.plain + Stamped(fields, now));
    MergeCommutes(r.plain, Decoded(c, r), Stamped(fields, now));
  }

  lemma NewRender(c: Config, s: Step, now: int)
    requires s.Create?
    ensures Render(c, NewRecord(c, s, now)) == NewSession(c, s, now)
    ensures PlainOnly(NewRecord(c, s, now).plain)
  {
    var r := NewRecord(c, s, now);
    assert Decoded(c, r) == map[ExpiresAtField := Iso(now + c.ttl)];
  }

  /** Records that differ in one decoded field. */
  lemma DecodedSet(c: Config, r: Record, r': Record, f: HashField, v: Text)
    requires PlainOnly(r.plain) && r'.plain == r.plain && IsDecoded(f)
    requires DecodedField(c, r', f) == Some(v)
    requires forall g: HashField :: g != f ==> DecodedField(c, r', g) == DecodedField(c, r, g)
    ensures Render(c, r') == Render(c, r)[f := v]
  {
    assert Decoded(c, r') == Decoded(c, r)[f := v];
  }

  lemma ExtendRender(c: Config, l: Ledger, r: Record, r': Record)
    requires PlainOnly(r.plain) && r' == Extended(c, l, r)
    ensures Render(c, r') == Render(c, r)[ExpiresAtField := Iso(l.now + c.ttl)]
  {
    forall g: HashField | g != ExpiresAtField ensures DecodedField(c, r', g) == DecodedField(c, r, g) {
    }
    DecodedSet(c, r, r', ExpiresAtField, Iso(l.now + c.ttl));
  }

  // ---------- the families after one record changes ----------

  lemma SessionsSet(c: Config, l: Ledger, k: string, r: Record, t: Table<Hash>)
    requires MirrorsSessions(c, l, t) && l.now < r.extendedAt + c.ttl
    ensures MirrorsSessions(c, SetRecord(l, k, r), t[k := Entry(Render(c, r), Some(r.extendedAt + c.ttl))])
  {
    var t' := t[k := Entry(Render(c, r), Some(r.extendedAt + c.ttl))];
    forall x ensures Get(t', x) == SessionEntry(c, SetRecord(l, k, r), x) {
      assert Get(t, x) == SessionEntry(c, l, x);
    }
  }

  lemma TurnsSet(l: Ledger, k: string, r: Record, t: Table<seq<Text>>)
    requires MirrorsTurns(l, t) && r.turns != [] && l.now < r.turnsUntil
    ensures MirrorsTurns(SetRecord(l, k, r), t[k := Entry(DumpAll(r.turns), Some(r.turnsUntil))])
  {
    var t' := t[k := Entry(DumpAll(r.turns), Some(r.turnsUntil))];
    forall x ensures Get(t', x) == TurnEntry(SetRecord(l, k, r), x) {
      assert Get(t, x) == TurnEntry(l, x);
    }
  }

  lemma TurnsKept(l: Ledger, k: string, r: Record, t: Table<seq<Text>>)
    requires MirrorsTurns(l, t)
    requires k in l.records ==> r.turns == l.records[k].turns && r.turnsUntil == l.records[k].turnsUntil
    requires k !in l.records ==> r.turns == []
    ensures MirrorsTurns(SetRecord(l, k, r), t)
  {
  }

  lemma TurnsExtended(l: Ledger, k: string, r: Record, t: Table<seq<Text>>)
    requires MirrorsTurns(l, t) && k in l.records && l.now < l.records[k].turnsUntil
    requires r.turns == l.records[k].turns && l.now < r.turnsUntil
    ensures MirrorsTurns(SetRecord(l, k, r), ExpireAt(t, k, r.turnsUntil))
  {
    forall x ensures Get(ExpireAt(t, k, r.turnsUntil), x) == TurnEntry(SetRecord(l, k, r), x) {
      assert Get(t, x) == TurnEntry(l, x);
    }
  }

  lemma JtisKept(c: Config, l: Ledger, k: string, r: Record, t: Table<string>)
    requires MirrorsJtis(c, l, t)
    requires k in l.records && r.jti == l.records[k].jti
    requires r.revoked == l.records[k].revoked && r.issuedAt == l.records[k].issuedAt
    ensures MirrorsJtis(c, SetRecord(l, k, r), t)
  {
    forall j ensures JtiEntry(c, SetRecord(l, k, r), j) == JtiEntry(c, l, j) {
    }
  }

  lemma ShelfProlonged(s: map<string, Shelf>, p: string, now: int, until: int, t: Table<Text>)
    requires MirrorsShelves(s, now, t) && now < until
    ensures MirrorsShelves(Prolong(s, p, now, until), now, ExpireAt(t, p, until))
  {
    forall x ensures Get(ExpireAt(t, p, until), x) == ShelfEntry(Prolong(s, p, now, until), now, x) {
      assert Get(t, x) == ShelfEntry(s, now, x);
      assert Get(t, p) == ShelfEntry(s, now, p);
    }
  }

  lemma ShelfSaved(s: map<string, Shelf>, p: string, v: Json, now: int, until: int, t: Table<Text>)
    requires MirrorsShelves(s, now, t) && now < until
    ensures MirrorsShelves(s[p := Shelf(v, until)], now, SaveProfile(t, p, v, until))
  {
    forall x ensures Get(SaveProfile(t, p, v, until), x) == ShelfEntry(s[p := Shelf(v, until)], now, x) {
      assert Get(t, x) == ShelfEntry(s, now, x);
    }
  }

  lemma ShelfRead(s: map<string, Shelf>, p: string, now: int, t: Table<Text>)
    requires MirrorsShelves(s, now, t)
    ensures ProfileAt(t, p) == Shelved(s, p, now)
  {
    assert Get(t, p) == ShelfEntry(s, now, p);
  }

  // ---------- lookups ----------

  lemma SessionRead(c: Config, l: Ledger, k: string, db: Store)
    requires MirrorsSessions(c, l, db.sessions) && (Live(c, l, k) ==> SoundRecord(c, l, k))
    ensures Session(db, k) == if Live(c, l, k) then Some(Render(c, l.records[k])) else None
    ensures Get(db.sessions, k) == SessionEntry(c, l, k)
  {
    assert Get(db.sessions, k) == SessionEntry(c, l, k);
    if Live(c, l, k) {
      RenderExpiry(c, l.records[k]);
    }
  }

  lemma AuthorizeRead(c: Config, l: Ledger, t: Token, kind: Option<TokenKind>, db: Store)
    requires Sound(c, l) && db.now == l.now && MirrorsJtis(c, l, db.jtis)
    ensures Authorize(db, t, kind) == Permit(c, l, t, kind)
    ensures var g := Permit(c, l, t, kind); g.Granted? ==> Live(c, l, g.key) && SoundRecord(c, l, g.key)
  {
    var k := Holder(c, l, t.jti);
    assert Get(db.jtis, t.jti) == JtiEntry(c, l, t.jti);
    if k.Some? {
      assert SoundRecord(c, l, k.value);
    }
  }

  // ---------- the handlers, one by one ----------

  lemma CommuteVerify(c: Config, l: Ledger, t: Token, db: Store)
    requires Sound(c, l) && Mirrors(c, l, db)
    ensures HandleVerify(db, t) == AnswerVerify(c, l, t)
  {
    AuthorizeRead(c, l, t, Some(Access), db);
    var g := Permit(c, l, t, Some(Access));
    if g.Granted? {
      SessionRead(c, l, g.key, db);
      RenderField(c, l.records[g.key], StateField);
      RenderExpiry(c, l.records[g.key]);
    }
  }

  lemma CommutePing(c: Config, l: Ledger, t: Token, db: Store)
    requires Sound(c, l) && Mirrors(c, l, db)
    ensures HandlePing(db, t) == AnswerPing(c, l, t)
  {
    AuthorizeRead(c, l, t, None, db);
    var g := Permit(c, l, t, None);
    if g.Granted? {
      SessionRead(c, l, g.key, db);
      RenderExpiry(c, l.records[g.key]);
    }
  }

  lemma JtisCreate(c: Config, l: Ledger, s: Step, t: Table<string>)
    requires 0 < c.ttl && SoundOwners(l) && s.Create? && Fresh(l, s) && MirrorsJtis(c, l, t)
    ensures MirrorsJtis(c, NextCreate(c, l, s).0, SetEx(t, s.jti, s.key, l.now + c.ttl))
  {
    var l' := NextCreate(c, l, s).0;
    forall j | j != s.jti ensures JtiEntry(c, l', j) == JtiEntry(c, l, j) {
      if j in l.owner { assert l.owner[j] in l.records; }
    }
  }

  lemma SessionsCreate(c: Config, l: Ledger, s: Step, db: Store)
    requires 0 < c.ttl && s.Create? && !Live(c, l, s.key) && db.now == l.now && MirrorsSessions(c, l, db.sessions)
    ensures MirrorsSessions(c, SetRecord(l, s.key, NewRecord(c, s, l.now)), HandleCreate(c, db, s).0.sessions)
  {
    var r := NewRecord(c, s, l.now);
    SessionRead(c, l, s.key, db);
    NewRender(c, s, l.now);
    SessionsSet(c, l, s.key, r, db.sessions);
  }

  lemma CreateFrame(c: Config, db: Store, s: Step)
    requires s.Create?
    ensures var db' := HandleCreate(c, db, s).0;
      db'.now == db.now && db'.turns == db.turns && db'.jtis == SetEx(db.jtis, s.jti, s.key, db.now + c.ttl)
      && db'.realtime == db.realtime && db'.batch == db.batch
  {
  }

  lemma CommuteCreate(c: Config, l: Ledger, s: Step, db: Store)
    requires Sound(c, l) && s.Create? && Fresh(l, s) && Mirrors(c, l, db)
    ensures Mirrors(c, NextCreate(c, l, s).0, HandleCreate(c, db, s).0)
    ensures HandleCreate(c, db, s).1 == NextCreate(c, l, s).1
  {
    var r := NewRecord(c, s, l.now);
    SessionsCreate(c, l, s, db);
    TurnsKept(l, s.key, r, db.turns);
    JtisCreate(c, l, s, db.jtis);
    CreateFrame(c, db, s);
    MirrorsFrame(c, SetRecord(l, s.key, r), NextCreate(c, l, s).0, HandleCreate(c, db, s).0);
  }

  /** The session and turn families depend on the records and the clock only. */
  lemma MirrorsFrame(c: Config, l: Ledger, l': Ledger, db: Store)
    requires l'.now == l.now && l'.records == l.records
    ensures MirrorsSessions(c, l, db.sessions) <==> MirrorsSessions(c, l', db.sessions)
    ensures MirrorsTurns(l, db.turns) <==> MirrorsTurns(l', db.turns)
    ensures l'.owner == l.owner ==> (MirrorsJtis(c, l, db.jtis) <==> MirrorsJtis(c, l', db.jtis))
  {
    assert forall k :: SessionEntry(c, l, k) == SessionEntry(c, l', k);
    assert forall k :: TurnEntry(l, k) == TurnEntry(l', k);
    assert l'.owner == l.owner ==> forall j :: JtiEntry(c, l, j) == JtiEntry(c, l', j);
  }

  function Extended(c: Config, l: Ledger, r: Record): Record {
    r.(extendedAt := l.now, turnsUntil := l.now + c.ttl)
  }

  lemma ExtendSession(c: Config, l: Ledger, k: string, t: Table<Hash>)
    requires 0 < c.ttl && Live(c, l, k) && PlainOnly(l.records[k].plain) && MirrorsSessions(c, l, t)
    ensures var until := l.now + c.ttl;
      MirrorsSessions(c, SetRecord(l, k, Extended(c, l, l.records[k])),
                      t[k := Entry(Render(c, l.records[k])[ExpiresAtField := Iso(until)], Some(until))])
  {
    var r := Extended(c, l, l.records[k]);
    ExtendRender(c, l, l.records[k], r);
    SessionsSet(c, l, k, r, t);
  }

  lemma RefreshShape(c: Config, db: Store, k: string, h: Hash)
    requires Session(db, k) == Some(h)
    ensures var d, until := RefreshTtl(c, db, k), db.now + c.ttl;
      && d.now == db.now && d.jtis == db.jtis
      && d.sessions == db.sessions[k := Entry(h[ExpiresAtField := Iso(until)], Some(until))]
      && d.turns == ExpireAt(db.turns, k, until)
      && d.realtime == ExpireAt(db.realtime, EffectiveKey(h, k), until)
      && d.batch == if Cusno(h).Some? then ExpireAt(db.batch, Cusno(h).value, until) else db.batch
  {
  }

  lemma ExtendTables(c: Config, l: Ledger, k: string, db: Store)
    requires 0 < c.ttl && Live(c, l, k) && SoundRecord(c, l, k)
    requires MirrorsTurns(l, db.turns) && MirrorsJtis(c, l, db.jtis)
    ensures var l1 := SetRecord(l, k, Extended(c, l, l.records[k]));
      MirrorsTurns(l1, ExpireAt(db.turns, k, l.now + c.ttl)) && MirrorsJtis(c, l1, db.jtis)
  {
    var r' := Extended(c, l, l.records[k]);
    TurnsExtended(l, k, r', db.turns);
    JtisKept(c, l, k, r', db.jtis);
  }

  /** The store refresh_ttl leaves, from what it read. */
  function Refreshed(c: Config, db: Store, k: string, h: Hash, n: Option<string>): Store {
    var until := db.now + c.ttl;
    Store(db.now, db.sessions[k := Entry(h[ExpiresAtField := Iso(until)], Some(until))],
      ExpireAt(db.turns, k, until), db.jtis,
      ExpireAt(db.realtime, if n.Some? then n.value else k, until),
      if n.Some? then ExpireAt(db.batch, n.value, until) else db.batch)
  }

  lemma RefreshReads(c: Config, l: Ledger, k: string, db: Store)
    requires Live(c, l, k) && SoundRecord(c, l, k) && MirrorsSessions(c, l, db.sessions)
    ensures RefreshTtl(c, db, k) == Refreshed(c, db, k, Render(c, l.records[k]), l.records[k].cusno)
  {
    SessionRead(c, l, k, db);
    RefreshShape(c, db, k, Render(c, l.records[k]));
    RenderCusno(c, l.records[k], k);
  }

  lemma ExtendMirrors(c: Config, l: Ledger, k: string, h: Hash, db: Store)
    requires 0 < c.ttl && k in l.records && Mirrors(c, l, db)
    requires var l1, db' := SetRecord(l, k, Extended(c, l, l.records[k])), Refreshed(c, db, k, h, l.records[k].cusno);
      MirrorsSessions(c, l1, db'.sessions) && MirrorsTurns(l1, db'.turns) && MirrorsJtis(c, l1, db'.jtis)
    ensures Mirrors(c, Extend(c, l, k), Refreshed(c, db, k, h, l.records[k].cusno))
  {
    var r, until := l.records[k], l.now + c.ttl;
    var db' := Refreshed(c, db, k, h, r.cusno);
    MirrorsFrame(c, SetRecord(l, k, Extended(c, l, r)), Extend(c, l, k), db');
    ShelfProlonged(l.realtime, ProfileKey(r, k), l.now, until, db.realtime);
    if r.cusno.Some? { ShelfProlonged(l.batch, r.cusno.value, l.now, until, db.batch); }
  }

  /** Extending a session on the ledger is what refresh_ttl does, key by key, to the store. */
  lemma CommuteExtend(c: Config, l: Ledger, k: string, db: Store)
    requires Sound(c, l) && Live(c, l, k) && Mirrors(c, l, db)
    ensures Mirrors(c, Extend(c, l, k), RefreshTtl(c, db, k))
  {
    assert SoundRecord(c, l, k);
    RefreshReads(c, l, k, db);
    ExtendSession(c, l, k, db.sessions);
    ExtendTables(c, l, k, db);
    ExtendMirrors(c, l, k, Render(c, l.records[k]), db);
  }

  // ---------- writes to one session hash ----------

  lemma CommuteHSet(c: Config, l: Ledger, k: string, r: Record, u: Hash, db: Store)
    requires Mirrors(c, l, db) && Live(c, l, k)
    requires var o := l.records[k];
      && r.extendedAt == o.extendedAt && r.turns == o.turns && r.turnsUntil == o.turnsUntil
      && r.jti == o.jti && r.issuedAt == o.issuedAt && r.revoked == o.revoked
    requires Render(c, r) == Render(c, l.records[k]) + u
    ensures Mirrors(c, SetRecord(l, k, r), db.(sessions := HSet(db.sessions, k, u)))
  {
    assert Get(db.sessions, k) == SessionEntry(c, l, k);
    SessionsSet(c, l, k, r, db.sessions);
    TurnsKept(l, k, r, db.turns);
    JtisKept(c, l, k, r, db.jtis);
  }

  lemma CommuteTouch(c: Config, l: Ledger, k: string, fields: Hash, db: Store)
    requires Sound(c, l) && Mirrors(c, l, db) && Live(c, l, k) && PlainOnly(fields)
    ensures Mirrors(c, SetRecord(l, k, Touch(l.records[k], fields, l.now)), Update(db, k, fields))
  {
    assert SoundRecord(c, l, k);
    SessionRead(c, l, k, db);
    RenderTouch(c, l.records[k], fields, l.now);
    CommuteHSet(c, l, k, Touch(l.records[k], fields, l.now), Stamped(fields, l.now), db);
  }

  lemma CommuteCloseByKey(c: Config, l: Ledger, k: string, reason: Option<string>, summary: Option<string>, db: Store)
    requires Sound(c, l) && Mirrors(c, l, db)
    ensures var h, n := HandleCloseByKey(db, k, reason, summary), NextCloseByKey(c, l, k, reason, summary);
      Mirrors(c, n.0, h.0) && h.1 == n.1
  {
    if Live(c, l, k) {
      assert SoundRecord(c, l, k);
      CommuteTouch(c, l, k, CloseFields(reason, summary, l.now), db);
    }
    SessionRead(c, l, k, db);
  }

  /** Revoking the newest jti is deleting its binding. */
  lemma CommuteRevoke(c: Config, l: Ledger, k: string, db: Store)
    requires Mirrors(c, l, db) && k in l.records && Get(l.owner, l.records[k].jti) == Some(k)
    ensures Mirrors(c, SetRecord(l, k, l.records[k].(revoked := true)), db.(jtis := Del(db.jtis, l.records[k].jti)))
  {
    var r := l.records[k].(revoked := true);
    var l' := SetRecord(l, k, r);
    forall x ensures SessionEntry(c, l', x) == SessionEntry(c, l, x) {
      if x == k { RenderSame(c, l.records[k], r); }
    }
    TurnsKept(l, k, r, db.turns);
    forall j ensures Get(Del(db.jtis, r.jti), j) == JtiEntry(c, l', j) {
      assert Get(db.jtis, j) == JtiEntry(c, l, j);
    }
  }

  lemma RenderSame(c: Config, r: Record, r': Record)
    requires r'.plain == r.plain && r'.extendedAt == r.extendedAt && r'.cusno == r.cusno
    requires r'.turnIds == r.turnIds && r'.agents == r.agents && r'.reference == r.reference
    ensures Render(c, r') == Render(c, r)
  {
    forall f: HashField ensures DecodedField(c, r', f) == DecodedField(c, r, f) {
    }
    assert Decoded(c, r') == Decoded(c, r);
  }

  lemma CommuteTokenClose(c: Config, l: Ledger, k: string, fields: Hash, db: Store)
    requires Sound(c, l) && Mirrors(c, l, db) && Live(c, l, k) && PlainOnly(fields)
    ensures var db1 := Update(db, k, fields);
      Mirrors(c, SetRecord(l, k, Touch(l.records[k], fields, l.now).(revoked := true)),
              db1.(jtis := Del(db1.jtis, l.records[k].jti)))
  {
    assert SoundRecord(c, l, k);
    var l1 := SetRecord(l, k, Touch(l.records[k], fields, l.now));
    CommuteTouch(c, l, k, fields, db);
    CommuteRevoke(c, l1, k, Update(db, k, fields));
    var r := l1.records[k].(revoked := true);
    assert l1.records[k := r] == l.records[k := r];
  }

  lemma CommuteCloseByToken(c: Config, l: Ledger, t: Token, reason: Option<string>, db: Store)
    requires Sound(c, l) && Mirrors(c, l, db)
    ensures var h, n := HandleCloseByToken(db, t, reason), NextCloseByToken(c, l, t, reason);
      Mirrors(c, n.0, h.0) && h.1 == n.1
  {
    AuthorizeRead(c, l, t, None, db);
    var g := Permit(c, l, t, None);
    if g.Granted? {
      SessionRead(c, l, g.key, db);
      CommuteTokenClose(c, l, g.key, CloseFields(reason, None, l.now), db);
    }
  }

  // ---------- rotation ----------

  lemma JtisReissued(c: Config, l: Ledger, k: string, newJti: string, t: Table<string>)
    requires MirrorsJtis(c, l, t) && k in l.records && 0 < c.ttl && SoundOwners(l)
    requires var r := l.records[k]; !r.revoked && Get(l.owner, r.jti) == Some(k)
    requires newJti !in l.owner
    ensures MirrorsJtis(c, Reissue(l, k, newJti), SetEx(Del(t, l.records[k].jti), newJti, k, l.now + c.ttl))
  {
    var l', t' := Reissue(l, k, newJti), SetEx(Del(t, l.records[k].jti), newJti, k, l.now + c.ttl);
    forall j ensures Get(t', j) == JtiEntry(c, l', j) {
      assert Get(t, j) == JtiEntry(c, l, j);
    }
  }

  lemma CommuteReissue(c: Config, l: Ledger, k: string, newJti: string, db: Store)
    requires Mirrors(c, l, db) && k in l.records && 0 < c.ttl && SoundOwners(l)
    requires var r := l.records[k]; !r.revoked && Get(l.owner, r.jti) == Some(k)
    requires newJti !in l.owner
    ensures Mirrors(c, Reissue(l, k, newJti),
      db.(jtis := SetEx(Del(db.jtis, l.records[k].jti), newJti, k, l.now + c.ttl)))
  {
    var r := l.records[k].(issuedAt := l.now, jti := newJti);
    forall x ensures SessionEntry(c, Reissue(l, k, newJti), x) == SessionEntry(c, l, x) {
      if x == k { RenderSame(c, l.records[k], r); }
    }
    TurnsKept(l, k, r, db.turns);
    MirrorsFrame(c, SetRecord(l, k, r), Reissue(l, k, newJti), db);
    JtisReissued(c, l, k, newJti, db.jtis);
  }

  lemma CommuteRotate(c: Config, l: Ledger, t: Token, newJti: string, db: Store)
    requires Sound(c, l) && Mirrors(c, l, db) && newJti != "" && newJti !in l.owner
    ensures var h, n := HandleRotate(c, db, t, newJti), NextRotate(c, l, t, newJti);
      Mirrors(c, n.0, h.0) && h.1 == n.1
  {
    AuthorizeRead(c, l, t, Some(Refresh), db);
    var g := Permit(c, l, t, Some(Refresh));
    if g.Granted? {
      CommuteExtend(c, l, g.key, db);
      ExtendSound(c, l, g.key);
      CommuteReissue(c, Extend(c, l, g.key), g.key, newJti, RefreshTtl(c, db, g.key));
    }
  }

  // ---------- turns, profiles and the clock ----------

  lemma CommuteTurn(c: Config, l: Ledger, k: string, turn: Json, db: Store)
    requires Sound(c, l) && Mirrors(c, l, db)
    ensures var h, n := StoreTurn(c, db, k, turn), NextTurn(c, l, k, turn);
      Mirrors(c, n.0, h.0) && h.1 == n.1
  {
    SessionReadSound(c, l, k, db);
    if Live(c, l, k) { CommuteAddTurn(c, l, k, turn, db); }
  }

  lemma SessionReadSound(c: Config, l: Ledger, k: string, db: Store)
    requires Sound(c, l) && MirrorsSessions(c, l, db.sessions)
    ensures Session(db, k) == if Live(c, l, k) then Some(Render(c, l.records[k])) else None
    ensures Live(c, l, k) ==> SoundRecord(c, l, k)
  {
    if Live(c, l, k) { assert SoundRecord(c, l, k); }
    SessionRead(c, l, k, db);
  }

  lemma TurnPushed(c: Config, l: Ledger, k: string, turn: Json, db: Store)
    requires MirrorsTurns(l, db.turns) && db.now == l.now && k in l.records && l.now < l.records[k].turnsUntil
    ensures var r := AppendTurn(l.records[k], turn, l.now + c.ttl);
      AddTurn(c, db, k, turn).turns == db.turns[k := Entry(DumpAll(r.turns), Some(r.turnsUntil))]
  {
    var o, r := l.records[k], AppendTurn(l.records[k], turn, l.now + c.ttl);
    assert Get(db.turns, k) == TurnEntry(l, k);
    assert DumpAll(r.turns) == DumpAll(o.turns) + [Dumped(turn)];
    assert o.turns == [] ==> DumpAll(r.turns) == [Dumped(turn)];
  }

  lemma CommuteAddTurn(c: Config, l: Ledger, k: string, turn: Json, db: Store)
    requires Sound(c, l) && Mirrors(c, l, db) && Live(c, l, k)
    ensures Mirrors(c, SetRecord(l, k, AppendTurn(l.records[k], turn, l.now + c.ttl)), AddTurn(c, db, k, turn))
  {
    assert SoundRecord(c, l, k);
    var o, r := l.records[k], AppendTurn(l.records[k], turn, l.now + c.ttl);
    var l' := SetRecord(l, k, r);
    TurnPushed(c, l, k, turn, db);
    TurnsSet(l, k, r, db.turns);
    JtisKept(c, l, k, r, db.jtis);
    SessionsKept(c, l, k, r, db.sessions);
  }

  lemma SessionsKept(c: Config, l: Ledger, k: string, r: Record, t: Table<Hash>)
    requires MirrorsSessions(c, l, t) && k in l.records
    requires var o := l.records[k];
      && r.plain == o.plain && r.extendedAt == o.extendedAt && r.cusno == o.cusno
      && r.turnIds == o.turnIds && r.agents == o.agents && r.reference == o.reference
    ensures MirrorsSessions(c, SetRecord(l, k, r), t)
  {
    forall x ensures SessionEntry(c, SetRecord(l, k, r), x) == SessionEntry(c, l, x) {
      if x == k { RenderSame(c, l.records[k], r); }
    }
  }

  lemma {:induction false} LoadDumped(js: seq<Json>)
    ensures LoadAll(DumpAll(js)) == Some(js)
  {
    if js != [] {
      LoadDumped(js[1..]);
      assert DumpAll(js)[1..] == DumpAll(js[1..]);
      assert [js[0]] + js[1..] == js;
    }
  }

  lemma CommuteTurns(c: Config, l: Ledger, k: string, db: Store)
    requires Mirrors(c, l, db)
    ensures Turns(StoredTurns(db, k)) == AnswerTurns(l, k)
  {
    assert Get(db.turns, k) == TurnEntry(l, k);
    if k in l.records { LoadDumped(l.records[k].turns); }
  }

  lemma DecodedCustomer(c: Config, r: Record, n: string)
    requires PlainOnly(r.plain)
    ensures Render(c, r.(cusno := Some(n))) == Render(c, r)[CusnoField := Raw(n)]
  {
    var r' := r.(cusno := Some(n));
    forall g: HashField | g != CusnoField ensures DecodedField(c, r', g) == DecodedField(c, r, g) {
    }
    DecodedSet(c, r, r', CusnoField, Raw(n));
  }

  lemma RenderCustomer(c: Config, r: Record, n: string, now: int)
    requires PlainOnly(r.plain)
    ensures Render(c, Touch(r.(cusno := Some(n)), map[], now)) == Render(c, r) + Stamped(map[CusnoField := Raw(n)], now)
  {
    DecodedCustomer(c, r, n);
    RenderTouch(c, r.(cusno := Some(n)), map[], now);
    StampAfter(Render(c, r), CusnoField, Raw(n), now);
  }

  lemma StampAfter(h: Hash, f: HashField, v: Text, now: int)
    requires f != UpdatedAtField
    ensures h[f := v] + Stamped(map[], now) == h + Stamped(map[f := v], now)
  {
  }

  lemma CommuteCustomer(c: Config, l: Ledger, k: string, n: string, profile: Json, db: Store)
    requires Sound(c, l) && Mirrors(c, l, db) && Live(c, l, k)
    ensures var db1 := Update(db, k, map[CusnoField := Raw(n)]);
      Mirrors(c, Shelve(c, l, k, Touch(l.records[k].(cusno := Some(n)), map[], l.now), n, profile),
              db1.(realtime := SaveProfile(db1.realtime, n, profile, l.now + c.ttl)))
  {
    var r := Touch(l.records[k].(cusno := Some(n)), map[], l.now);
    var db1 := Update(db, k, map[CusnoField := Raw(n)]);
    CustomerHash(c, l, k, n, db);
    MirrorsFrame(c, SetRecord(l, k, r), Shelve(c, l, k, r, n, profile), db1);
    ShelfSaved(l.realtime, n, profile, l.now, l.now + c.ttl, db.realtime);
  }

  lemma CustomerHash(c: Config, l: Ledger, k: string, n: string, db: Store)
    requires Sound(c, l) && Mirrors(c, l, db) && Live(c, l, k)
    ensures var db1 := Update(db, k, map[CusnoField := Raw(n)]);
      && Mirrors(c, SetRecord(l, k, Touch(l.records[k].(cusno := Some(n)), map[], l.now)), db1)
      && db1 == db.(sessions := db1.sessions)
  {
    assert SoundRecord(c, l, k);
    var r := Touch(l.records[k].(cusno := Some(n)), map[], l.now);
    RenderCustomer(c, l.records[k], n, l.now);
    assert Get(db.sessions, k) == SessionEntry(c, l, k);
    CommuteHSet(c, l, k, r, Stamped(map[CusnoField := Raw(n)], l.now), db);
  }

  lemma CommuteOwnProfile(c: Config, l: Ledger, k: string, profile: Json, db: Store)
    requires Sound(c, l) && Mirrors(c, l, db) && Live(c, l, k)
    ensures Mirrors(c, Shelve(c, l, k, l.records[k].(savedOwn := true), k, profile),
              db.(realtime := SaveProfile(db.realtime, k, profile, l.now + c.ttl)))
  {
    var r := l.records[k].(savedOwn := true);
    SessionsKept(c, l, k, r, db.sessions);
    TurnsKept(l, k, r, db.turns);
    JtisKept(c, l, k, r, db.jtis);
    MirrorsFrame(c, SetRecord(l, k, r), Shelve(c, l, k, r, k, profile), db);
    ShelfSaved(l.realtime, k, profile, l.now, l.now + c.ttl, db.realtime);
  }

  lemma CommuteProfile(c: Config, l: Ledger, k: string, who: Customer, profile: Json, fetched: Option<Json>, db: Store)
    requires Sound(c, l) && Mirrors(c, l, db)
    ensures var h, n := StoreProfile(c, db, k, who, profile, fetched), NextProfile(c, l, k, who, profile, fetched);
      Mirrors(c, n.0, h.0) && h.1 == n.1
  {
    SessionReadSound(c, l, k, db);
    if Live(c, l, k) {
      match who
      case Malformed =>
      case NoCustomer => CommuteOwnProfile(c, l, k, profile, db);
      case Customer(n) =>
        CommuteFullProfile(c, l, k, n, profile, fetched, db);
        CustomerAnswers(c, l, k, n, profile, fetched, db);
    }
  }

  /** What a profile update with a customer number amounts to, on the store and on the ledger. */
  lemma CustomerAnswers(c: Config, l: Ledger, k: string, n: string, profile: Json, fetched: Option<Json>, db: Store)
    requires Live(c, l, k) && Session(db, k).Some? && db.now == l.now
    ensures var db1 := Update(db, k, map[CusnoField := Raw(n)]);
      var db2 := db1.(realtime := SaveProfile(db1.realtime, n, profile, l.now + c.ttl));
      StoreProfile(c, db, k, Customer(n), profile, fetched)
      == (if IsFetched(fetched) then db2.(batch := SaveProfile(db2.batch, n, fetched.value, l.now + c.ttl)) else db2,
          ProfileSaved(l.now))
    ensures var l1 := Shelve(c, l, k, Touch(l.records[k].(cusno := Some(n)), map[], l.now), n, profile);
      NextProfile(c, l, k, Customer(n), profile, fetched)
      == (if IsFetched(fetched) then ShelveBatch(c, l1, n, fetched.value) else l1, ProfileSaved(l.now))
  {
  }

  lemma CommuteFullProfile(c: Config, l: Ledger, k: string, n: string, profile: Json, fetched: Option<Json>, db: Store)
    requires Sound(c, l) && Mirrors(c, l, db) && Live(c, l, k)
    ensures var db1 := Update(db, k, map[CusnoField := Raw(n)]);
      var db2 := db1.(realtime := SaveProfile(db1.realtime, n, profile, l.now + c.ttl));
      var l1 := Shelve(c, l, k, Touch(l.records[k].(cusno := Some(n)), map[], l.now), n, profile);
      && Mirrors(c, l1, db2)
      && (fetched.Some? ==> Mirrors(c, ShelveBatch(c, l1, n, fetched.value),
            db2.(batch := SaveProfile(db2.batch, n, fetched.value, l.now + c.ttl))))
  {
    CommuteCustomer(c, l, k, n, profile, db);
    if fetched.Some? {
      var db1 := Update(db, k, map[CusnoField := Raw(n)]);
      var db2 := db1.(realtime := SaveProfile(db1.realtime, n, profile, l.now + c.ttl));
      CommuteBatch(c, Shelve(c, l, k, Touch(l.records[k].(cusno := Some(n)), map[], l.now), n, profile), n,
          fetched.value, db2);
    }
  }

  lemma CommuteBatch(c: Config, l: Ledger, p: string, v: Json, db: Store)
    requires Mirrors(c, l, db) && 0 < c.ttl
    ensures Mirrors(c, ShelveBatch(c, l, p, v), db.(batch := SaveProfile(db.batch, p, v, l.now + c.ttl)))
  {
    MirrorsFrame(c, l, ShelveBatch(c, l, p, v), db);
    ShelfSaved(l.batch, p, v, l.now, l.now + c.ttl, db.batch);
  }

  lemma CommuteTick(c: Config, l: Ledger, d: nat, db: Store)
    requires Mirrors(c, l, db)
    ensures Mirrors(c, l.(now := l.now + d), Elapse(db, d))
  {
    var l', db' := l.(now := l.now + d), Elapse(db, d);
    forall k ensures Get(db'.sessions, k) == SessionEntry(c, l', k) {
      assert Get(db.sessions, k) == SessionEntry(c, l, k);
    }
    forall k ensures Get(db'.turns, k) == TurnEntry(l', k) { assert Get(db.turns, k) == TurnEntry(l, k); }
    forall j ensures Get(db'.jtis, j) == JtiEntry(c, l', j) { assert Get(db.jtis, j) == JtiEntry(c, l, j); }
    ShelvesElapse(l.realtime, l.now, l'.now, db.realtime);
    ShelvesElapse(l.batch, l.now, l'.now, db.batch);
  }

  lemma ShelvesElapse(s: map<string, Shelf>, now: int, later: int, t: Table<Text>)
    requires MirrorsShelves(s, now, t) && now <= later
    ensures MirrorsShelves(s, later, Sweep(t, later))
  {
    forall p ensures Get(Sweep(t, later), p) == ShelfEntry(s, later, p) {
      assert Get(t, p) == ShelfEntry(s, now, p);
    }
  }

  // ---------- lookup ----------

  /** How a registered agent reads back. */
  function Stored(a: Agent): LocalMapping {
    LocalMapping(Some(Str(a.sessionKey)), Some(Str(a.kind)))
  }

  lemma AgentRead(a: Agent)
    ensures Truthy(EncodeAgent(a))
    ensures Get(EncodeAgent(a).fields, "agent_session_key") == Some(Str(a.sessionKey))
    ensures Get(EncodeAgent(a).fields, "agent_type") == Some(Str(a.kind))
  {
    assert |"agent_session_key"| != |"agent_type"|;
    assert "agent_type" in EncodeAgent(a).fields;
  }

  lemma LocalRead(c: Config, l: Ledger, k: string, agentId: string, db: Store)
    requires MirrorsSessions(c, l, db.sessions) && Live(c, l, k) && SoundRecord(c, l, k)
    ensures var agents := l.records[k].agents;
      FindMapping(db, k, agentId) == if agentId in agents then Some(Stored(agents[agentId])) else None
  {
    var agents := l.records[k].agents;
    SessionRead(c, l, k, db);
    RenderJson(c, l.records[k]);
    if agentId in agents { AgentRead(agents[agentId]); }
  }

  lemma CommuteResolve(c: Config, l: Ledger, k: string, kind: Option<AgentType>, agentId: Option<string>, db: Store)
    requires Sound(c, l) && Mirrors(c, l, db)
    ensures HandleResolve(c, db, k, kind, agentId)
            == if Live(c, l, k) then Lookup(c, l, k, kind, agentId) else NotFound
  {
    SessionReadSound(c, l, k, db);
    if Live(c, l, k) {
      var r := l.records[k];
      RenderPlain(c, r);
      RenderCusno(c, r, k);
      RenderTurnIds(c, r);
      RenderJson(c, r);
      ShelfRead(l.realtime, ProfileKey(r, k), l.now, db.realtime);
      if r.cusno.Some? { ShelfRead(l.batch, r.cusno.value, l.now, db.batch); }
      if kind == Some(Task) && IsGiven(agentId) { LocalRead(c, l, k, agentId.value, db); }
    }
  }

  // ---------- patch ----------

  lemma AgentsEncoded(agents: map<string, Agent>, id: string, a: Agent)
    ensures EncodeAgents(agents[id := a]) == EncodeAgents(agents)[id := EncodeAgent(a)]
  {
  }

  lemma RenderAgent(c: Config, r: Record, id: string, a: Agent)
    requires PlainOnly(r.plain)
    ensures Render(c, r.(agents := r.agents[id := a]))
            == Render(c, r)[AgentsField := Dumped(Obj(EncodeAgents(r.agents)[id := EncodeAgent(a)]))]
  {
    var r' := r.(agents := r.agents[id := a]);
    AgentsEncoded(r.agents, id, a);
    forall f: HashField | f != AgentsField ensures DecodedField(c, r', f) == DecodedField(c, r, f) {
    }
    assert id in r'.agents;
    DecodedSet(c, r, r', AgentsField, Dumped(Obj(EncodeAgents(r'.agents))));
  }

  lemma LocalWrite(c: Config, l: Ledger, k: string, id: string, a: Agent, db: Store)
    requires MirrorsSessions(c, l, db.sessions) && Live(c, l, k) && SoundRecord(c, l, k)
    ensures SetLocalMapping(db, k, id, a) == db.(sessions := HSet(db.sessions, k,
      map[AgentsField := Dumped(Obj(EncodeAgents(l.records[k].agents)[id := EncodeAgent(a)]))]))
  {
    SessionRead(c, l, k, db);
    RenderJson(c, l.records[k]);
  }

  lemma CommuteAgentField(c: Config, l: Ledger, k: string, id: string, a: Agent, db: Store)
    requires Mirrors(c, l, db) && Live(c, l, k) && PlainOnly(l.records[k].plain)
    ensures var r := l.records[k];
      Mirrors(c, SetRecord(l, k, r.(agents := r.agents[id := a])), db.(sessions := HSet(db.sessions, k,
        map[AgentsField := Dumped(Obj(EncodeAgents(r.agents)[id := EncodeAgent(a)]))])))
  {
    var r := l.records[k];
    var u := map[AgentsField := Dumped(Obj(EncodeAgents(r.agents)[id := EncodeAgent(a)]))];
    RenderAgent(c, r, id, a);
    assert Render(c, r.(agents := r.agents[id := a])) == Render(c, r) + u;
    CommuteHSet(c, l, k, r.(agents := r.agents[id := a]), u, db);
  }

  /** Registering an agent is the read-modify-write of the JSON field. */
  lemma CommuteAgent(c: Config, l: Ledger, k: string, id: string, a: Agent, db: Store)
    requires Mirrors(c, l, db) && Live(c, l, k) && SoundRecord(c, l, k)
    ensures Mirrors(c, SetRecord(l, k, l.records[k].(agents := l.records[k].agents[id := a])),
                    SetLocalMapping(db, k, id, a))
  {
    LocalWrite(c, l, k, id, a, db);
    CommuteAgentField(c, l, k, id, a, db);
  }

  lemma RenderReference(c: Config, r: Record, q: PatchRequest)
    requires PlainOnly(r.plain)
    ensures var merged := AmendedReference(map[], q);
      Render(c, r.(reference := AmendedReference(r.reference, q)))
      == With(Render(c, r), merged != map[], ReferenceField, Dumped(Obj(merged)))
  {
    var r' := r.(reference := AmendedReference(r.reference, q));
    if r'.reference == r.reference { assert r' == r; }
    if AmendedReference(map[], q) != map[] {
      forall g: HashField | g != ReferenceField ensures DecodedField(c, r', g) == DecodedField(c, r, g) {
      }
      DecodedSet(c, r, r', ReferenceField, Dumped(Obj(r'.reference)));
    }
  }

  lemma RenderNewTurnIds(c: Config, r: Record, q: PatchRequest)
    requires PlainOnly(r.plain) && q.turnId.Some?
    ensures var ids := AmendedTurnIds(r.turnIds, q);
      Render(c, r.(turnIds := ids)) == Render(c, r)[TurnIdsField := DumpIds(ids.value)]
  {
    var r' := r.(turnIds := AmendedTurnIds(r.turnIds, q));
    forall g: HashField | g != TurnIdsField ensures DecodedField(c, r', g) == DecodedField(c, r, g) {
    }
    DecodedSet(c, r, r', TurnIdsField, DumpIds(r'.turnIds.value));
  }

  lemma Overlay(h: Hash, u: Hash, f: HashField, v: Text, now: int)
    requires f !in u && f != UpdatedAtField
    ensures h[f := v] + Stamped(u, now) == (h + Stamped(u, now))[f := v]
  {
  }

  lemma OverlayNew(h: Hash, u: Hash, f: HashField, v: Text, now: int)
    requires f != UpdatedAtField
    ensures h + Stamped(u[f := v], now) == (h + Stamped(u, now))[f := v]
  {
  }

  /** What a patch makes of the decoded fields other than the agents, and then of the plain ones. */
  lemma RenderAmend(c: Config, r: Record, h: Hash, q: PatchRequest, now: int)
    requires PlainOnly(r.plain) && TurnIds(c, h) == r.turnIds
    ensures var r' := r.(reference := AmendedReference(r.reference, q), turnIds := AmendedTurnIds(r.turnIds, q));
      Render(c, Touch(r', PlainUpdates(q, now), now)) == Render(c, r) + Stamped(PatchUpdates(c, h, q, now), now)
  {
    var merged := AmendedReference(map[], q);
    var r1 := r.(reference := AmendedReference(r.reference, q));
    var r2 := r1.(turnIds := AmendedTurnIds(r.turnIds, q));
    var u, v := PlainUpdates(q, now), Dumped(Obj(merged));
    var w := With(u, merged != map[], ReferenceField, v);
    assert !IsDecoded(UpdatedAtField) && ReferenceField !in u && TurnIdsField !in w by {
      assert PlainOnly(u) && IsDecoded(ReferenceField) && IsDecoded(TurnIdsField);
    }
    RenderReference(c, r, q);
    RenderTouch(c, r2, u, now);
    Overlay(Render(c, r), u, ReferenceField, v, now);
    OverlayNew(Render(c, r), u, ReferenceField, v, now);
    assert Render(c, r1) + Stamped(u, now) == Render(c, r) + Stamped(w, now);
    if q.turnId.Some? {
      var ids := DumpIds(r2.turnIds.value);
      RenderNewTurnIds(c, r1, q);
      Overlay(Render(c, r1), u, TurnIdsField, ids, now);
      OverlayNew(Render(c, r), w, TurnIdsField, ids, now);
    } else {
      assert r2 == r1;
    }
  }

  lemma CommuteFields(c: Config, l: Ledger, k: string, h: Hash, q: PatchRequest, db: Store)
    requires Mirrors(c, l, db) && Live(c, l, k) && PlainOnly(l.records[k].plain)
    requires TurnIds(c, h) == l.records[k].turnIds
    ensures var r := l.records[k];
      var r' := r.(reference := AmendedReference(r.reference, q), turnIds := AmendedTurnIds(r.turnIds, q));
      Mirrors(c, SetRecord(l, k, Touch(r', PlainUpdates(q, l.now), l.now)), Update(db, k, PatchUpdates(c, h, q, l.now)))
  {
    var r := l.records[k];
    var r' := r.(reference := AmendedReference(r.reference, q), turnIds := AmendedTurnIds(r.turnIds, q));
    RenderAmend(c, r, h, q, l.now);
    assert Get(db.sessions, k) == SessionEntry(c, l, k);
    CommuteHSet(c, l, k, Touch(r', PlainUpdates(q, l.now), l.now), Stamped(PatchUpdates(c, h, q, l.now), l.now), db);
  }

  lemma AmendSteps(l: Ledger, k: string, q: PatchRequest)
    requires k in l.records && RegistersAgent(q)
    ensures var r, id := l.records[k], q.patch.value.lastAgentId.value;
      var r1 := r.(agents := r.agents[id := AgentOf(q.patch.value)]);
      var r2 := r1.(reference := AmendedReference(r.reference, q), turnIds := AmendedTurnIds(r.turnIds, q));
      SetRecord(SetRecord(l, k, r1), k, Touch(r2, PlainUpdates(q, l.now), l.now)) == SetRecord(l, k, Amend(r, q, l.now))
  {
  }

  lemma CommuteAmend(c: Config, l: Ledger, k: string, h: Hash, q: PatchRequest, db: Store)
    requires Sound(c, l) && Mirrors(c, l, db) && Live(c, l, k) && TurnIds(c, h) == l.records[k].turnIds
    ensures var db2 := if RegistersAgent(q)
        then SetLocalMapping(db, k, q.patch.value.lastAgentId.value, AgentOf(q.patch.value)) else db;
      Mirrors(c, SetRecord(l, k, Amend(l.records[k], q, l.now)), Update(db2, k, PatchUpdates(c, h, q, l.now)))
  {
    assert SoundRecord(c, l, k);
    if RegistersAgent(q) {
      var r, id, a := l.records[k], q.patch.value.lastAgentId.value, AgentOf(q.patch.value);
      CommuteAgent(c, l, k, id, a, db);
      CommuteFields(c, SetRecord(l, k, r.(agents := r.agents[id := a])), k, h, q, SetLocalMapping(db, k, id, a));
      AmendSteps(l, k, q);
    } else {
      CommuteFields(c, l, k, h, q, db);
    }
  }

  lemma CommutePatch(c: Config, l: Ledger, k: string, q: PatchRequest, db: Store)
    requires Sound(c, l) && Mirrors(c, l, db)
    ensures var h, n := HandlePatch(c, db, k, q), NextPatch(c, l, k, q);
      Mirrors(c, n.0, h.0) && h.1 == n.1
  {
    SessionReadSound(c, l, k, db);
    if Live(c, l, k) {
      RenderTurnIds(c, l.records[k]);
      if q.state == Some(Talk) {
        CommuteExtend(c, l, k, db);
        ExtendSound(c, l, k);
        CommuteAmend(c, Extend(c, l, k), k, Session(db, k).value, q, RefreshTtl(c, db, k));
      } else {
        CommuteAmend(c, l, k, Session(db, k).value, q, db);
      }
    }
  }

  // ---------- any step ----------

  /** One step of the service on a mirroring store: same answer, and the stores still mirror. */
  lemma Commute(c: Config, l: Ledger, s: Step, db: Store)
    requires Sound(c, l) && Fresh(l, s) && Mirrors(c, l, db)
    ensures Handle(c, db, s).1 == Next(c, l, s).1
    ensures Mirrors(c, Next(c, l, s).0, Handle(c, db, s).0)
  {
    match s
    case Create(_, _, _, _, _) => CommuteCreate(c, l, s, db);
    case Verify(t) => CommuteVerify(c, l, t, db);
    case Ping(t) => CommutePing(c, l, t, db);
    case Rotate(t, newJti) => CommuteRotate(c, l, t, newJti, db);
    case Patch(k, q) => CommutePatch(c, l, k, q, db);
    case Resolve(k, kind, agentId) => CommuteResolve(c, l, k, kind, agentId, db);
    case CloseByKey(k, reason, summary) => CommuteCloseByKey(c, l, k, reason, summary, db);
    case CloseByToken(t, reason) => CommuteCloseByToken(c, l, t, reason, db);
    case SaveResult(k, q) => CommuteTurn(c, l, k, TurnOf(q, l.now), db);
    case UpdateProfile(k, profile, fetched) =>
      CommuteProfile(c, l, k, CustomerIn(c, profile), Obj(profile), fetched, db);
    case GetTurns(k) => CommuteTurns(c, l, k, db);
    case Tick(d) => CommuteTick(c, l, d, db);
  }
}
