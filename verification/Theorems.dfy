// What holds of every store a run can reach, said in terms of the run's own trace.
module Theorems {
  import opened Values
  import opened RedisStore
  import opened Requests
  import opened Handlers
  import opened Ledgers
  import opened LedgerInvariant
  import opened Simulation
  import opened Runs
  import opened Agreement

  /** Some admissible run leads to this store with this trace. */
  ghost predicate Reached(c: Config, db: Store, tr: seq<Event>) {
    0 < c.ttl && exists t0, steps :: Admissible(steps) && Run(c, t0, steps) == (db, tr)
  }

  /** The ledger behind a run: the store mirrors it and the trace agrees with it. */
  ghost predicate Behind(c: Config, l: Ledger, db: Store, tr: seq<Event>) {
    Sound(c, l) && Mirrors(c, l, db) && Agrees(c, l, tr)
  }

  lemma ReachedBehind(c: Config, db: Store, tr: seq<Event>) returns (l: Ledger)
    requires Reached(c, db, tr)
    ensures Behind(c, l, db, tr)
  {
    var t0, steps :| Admissible(steps) && Run(c, t0, steps) == (db, tr);
    l := LedgerRun(c, t0, steps).0;
    RunRefines(c, t0, steps);
    RunAgrees(c, t0, steps);
  }

  lemma RecordBehind(c: Config, l: Ledger, db: Store, tr: seq<Event>, k: string)
    requires Behind(c, l, db, tr)
    ensures db.now == l.now && Get(db.sessions, k) == SessionEntry(c, l, k)
    ensures k in l.records ==> SoundRecord(c, l, k) && AgreesOn(c, l, tr, k)
    ensures k !in l.records ==> Untouched(c, tr, k)
  {
  }

  /** Deadline a is set and comes no later than deadline b. */
  predicate NoLater(a: Option<int>, b: Option<int>) {
    a.Some? && b.Some? && a.value <= b.value
  }

  // ---------- liveness ----------

  lemma TimesBehind(c: Config, l: Ledger, db: Store, tr: seq<Event>, k: string)
    requires Behind(c, l, db, tr)
    ensures db.now == l.now && Get(db.sessions, k) == SessionEntry(c, l, k)
    ensures LastRenewal(tr, k) == if k in l.records then Some(l.records[k].extendedAt) else None
    ensures k in l.records ==> PlainOnly(l.records[k].plain) && l.records[k].extendedAt <= l.now
  {
    RecordBehind(c, l, db, tr, k);
  }

  /** A session lives exactly while its latest renewal is less than one TTL ago, and says so itself. */
  lemma LiveExactly(c: Config, db: Store, tr: seq<Event>, k: string)
    requires Reached(c, db, tr)
    ensures k in db.sessions <==> LastRenewal(tr, k).Some? && db.now < LastRenewal(tr, k).value + c.ttl
    ensures k in db.sessions ==>
      && db.sessions[k].deadline == Some(LastRenewal(tr, k).value + c.ttl)
      && ExpiresAt(db.sessions[k].value) == db.sessions[k].deadline
  {
    var l := ReachedBehind(c, db, tr);
    TimesBehind(c, l, db, tr, k);
    if k in l.records { RenderExpiry(c, l.records[k]); }
  }

  // ---------- nothing lives for ever ----------

  ghost predicate Bounded<T>(t: Table<T>, now: int, ttl: int) {
    forall k :: k in t ==> t[k].deadline.Some? && now < t[k].deadline.value <= now + ttl
  }

  lemma ShelvesBounded(c: Config, s: map<string, Shelf>, now: int, t: Table<Text>)
    requires SoundShelves(c, s, now) && MirrorsShelves(s, now, t)
    ensures Bounded(t, now, c.ttl)
  {
    forall p | p in t ensures t[p].deadline.Some? && now < t[p].deadline.value <= now + c.ttl {
      assert Get(t, p) == ShelfEntry(s, now, p);
    }
  }

  /** Every key of every family has a deadline, in the future and at most one TTL away. */
  lemma EveryKeyExpires(c: Config, db: Store, tr: seq<Event>)
    requires Reached(c, db, tr)
    ensures Bounded(db.sessions, db.now, c.ttl) && Bounded(db.turns, db.now, c.ttl) && Bounded(db.jtis, db.now, c.ttl)
    ensures Bounded(db.realtime, db.now, c.ttl) && Bounded(db.batch, db.now, c.ttl)
  {
    var l := ReachedBehind(c, db, tr);
    forall k | k in db.sessions
      ensures db.sessions[k].deadline.Some? && db.now < db.sessions[k].deadline.value <= db.now + c.ttl
    {
      RecordBehind(c, l, db, tr, k);
    }
    forall k | k in db.turns
      ensures db.turns[k].deadline.Some? && db.now < db.turns[k].deadline.value <= db.now + c.ttl
    {
      assert Get(db.turns, k) == TurnEntry(l, k);
      RecordBehind(c, l, db, tr, k);
    }
    forall j | j in db.jtis ensures db.jtis[j].deadline.Some? && db.now < db.jtis[j].deadline.value <= db.now + c.ttl {
      assert Get(db.jtis, j) == JtiEntry(c, l, j);
      RecordBehind(c, l, db, tr, l.owner[j]);
    }
    ShelvesBounded(c, l.realtime, l.now, db.realtime);
    ShelvesBounded(c, l.batch, l.now, db.batch);
  }

  /** One TTL without a handler empties the store. */
  lemma IdleEmpties(c: Config, db: Store, tr: seq<Event>, d: nat)
    requires Reached(c, db, tr) && c.ttl <= d
    ensures Elapse(db, d) == EmptyStore(db.now + d)
  {
    EveryKeyExpires(c, db, tr);
  }

  // ---------- tokens ----------

  /** A jti resolves to k exactly while it is the newest one issued for k, not closed, and one TTL has not passed. */
  lemma ResolvesExactly(c: Config, db: Store, tr: seq<Event>, j: string, k: string)
    requires Reached(c, db, tr)
    ensures KeyOfJti(db, j) == Some(k) <==>
      && LastIssue(tr, k).Some? && LastIssue(tr, k).value.response.jti == j
      && !ClosedByToken(tr, k) && db.now < LastIssue(tr, k).value.at + c.ttl
  {
    var l := ReachedBehind(c, db, tr);
    RecordBehind(c, l, db, tr, k);
    assert Get(db.jtis, j) == JtiEntry(c, l, j);
    var h := Holder(c, l, j);
    if h.Some? { RecordBehind(c, l, db, tr, h.value); }
  }

  /** At most one jti resolves to a session. */
  lemma OneJtiPerSession(c: Config, db: Store, tr: seq<Event>, i: string, j: string, k: string)
    requires Reached(c, db, tr) && KeyOfJti(db, i) == Some(k) && KeyOfJti(db, j) == Some(k)
    ensures i == j
  {
    ResolvesExactly(c, db, tr, i, k);
    ResolvesExactly(c, db, tr, j, k);
  }

  /** Every jti in the store belongs to a session in the store that expires no earlier. */
  lemma TokensWithinSessions(c: Config, db: Store, tr: seq<Event>, j: string)
    requires Reached(c, db, tr) && j in db.jtis
    ensures var k := db.jtis[j].value;
      KeyOfJti(db, j) == Some(k) && k in db.sessions && NoLater(db.jtis[j].deadline, db.sessions[k].deadline)
  {
    var l := ReachedBehind(c, db, tr);
    assert Get(db.jtis, j) == JtiEntry(c, l, j);
    RecordBehind(c, l, db, tr, Holder(c, l, j).value);
  }

  lemma GrantedSession(c: Config, db: Store, tr: seq<Event>, t: Token, kind: Option<TokenKind>)
    requires Reached(c, db, tr)
    ensures var g := Authorize(db, t, kind); g.Granted? ==> g.key in db.sessions && Session(db, g.key).Some?
  {
    if t.jti in db.jtis {
      TokensWithinSessions(c, db, tr, t.jti);
      var k := db.jtis[t.jti].value;
      LiveExactly(c, db, tr, k);
      assert db.sessions[k].value == map[] ==> ExpiresAt(db.sessions[k].value) == None;
    }
  }

  /** No handler that starts from a token finds its session gone. */
  lemma NoLostSession(c: Config, db: Store, tr: seq<Event>, t: Token, newJti: string, reason: Option<string>)
    requires Reached(c, db, tr)
    ensures HandleVerify(db, t).Verified? ==> HandleVerify(db, t).alive
    ensures HandlePing(db, t).Pinged? ==> HandlePing(db, t).alive
    ensures HandleCloseByToken(db, t, reason).1 != NotFound
    ensures var (db', r) := HandleRotate(c, db, t, newJti); r.Rotated? ==> r.key in db.sessions && r.key in db'.sessions
  {
    GrantedSession(c, db, tr, t, Some(Access));
    GrantedSession(c, db, tr, t, Some(Refresh));
    GrantedSession(c, db, tr, t, None);
  }
}
