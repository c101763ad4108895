// What a live session holds, said in terms of what was saved for it over the whole run.
module Contents {
  import opened Values
  import opened RedisStore
  import opened Requests
  import opened Handlers
  import opened Ledgers
  import opened LedgerInvariant
  import opened Simulation
  import opened Runs
  import opened Theorems
  import opened Continuations

  /** A live session and the sound record behind it. */
  lemma LiveBehind(c: Config, db: Store, tr: seq<Event>, k: string) returns (l: Ledger)
    requires Reached(c, db, tr) && k in db.sessions
    ensures Behind(c, l, db, tr) && Live(c, l, k) && SoundRecord(c, l, k) && AgreesOn(c, l, tr, k)
    ensures db.now == l.now && Get(db.sessions, k) == SessionEntry(c, l, k)
  {
    l := ReachedBehind(c, db, tr);
    RecordBehind(c, l, db, tr, k);
  }

  // ---------- turns ----------

  /** A live session has exactly the turns saved for it, in order, and they expire no earlier than it does. */
  lemma TurnsKept(c: Config, db: Store, tr: seq<Event>, k: string)
    requires Reached(c, db, tr) && k in db.sessions
    ensures StoredTurns(db, k) == Some(TurnsIn(tr, k))
    ensures TurnsIn(tr, k) != [] ==> k in db.turns && NoLater(db.sessions[k].deadline, db.turns[k].deadline)
  {
    var l := LiveBehind(c, db, tr, k);
    assert Get(db.turns, k) == TurnEntry(l, k);
    CommuteTurns(c, l, k, db);
  }

  // ---------- profiles ----------

  /** The key a session's realtime profile is found under: its last customer number, else its own key. */
  function ProfileKeyOf(c: Config, tr: seq<Event>, k: string): string {
    var n := LastCustomer(c, tr, k);
    if n.Some? then n.value else k
  }

  /** Once a session has saved a profile, the profile under its effective key is there as last
      written by any session, and outlives the session. */
  lemma ProfileKept(c: Config, db: Store, tr: seq<Event>, k: string)
    requires Reached(c, db, tr) && k in db.sessions && EverSaved(tr, k)
    ensures var p := ProfileKeyOf(c, tr, k);
      && EffectiveKey(db.sessions[k].value, k) == p
      && p in db.realtime && NoLater(db.sessions[k].deadline, db.realtime[p].deadline)
      && LastProfile(c, tr, p).Some? && ProfileAt(db.realtime, p) == LastProfile(c, tr, p)
  {
    var l := LiveBehind(c, db, tr, k);
    var r := l.records[k];
    var p := ProfileKey(r, k);
    RenderCusno(c, r, k);
    assert Get(db.realtime, p) == ShelfEntry(l.realtime, l.now, p);
    ShelfRead(l.realtime, p, l.now, db.realtime);
  }

  // ---------- what a lookup answers ----------

  lemma ResolveLedger(c: Config, l: Ledger, db: Store, k: string, kind: Option<AgentType>, agentId: Option<string>)
    requires Sound(c, l) && Mirrors(c, l, db) && Live(c, l, k)
    ensures HandleResolve(c, db, k, kind, agentId) == Lookup(c, l, k, kind, agentId)
  {
    CommuteResolve(c, l, k, kind, agentId, db);
  }

  function AgentAnswer(a: Option<Agent>): Option<Json> {
    if a.Some? then Some(Str(a.value.sessionKey)) else None
  }

  function ReferenceAnswer(m: map<string, Json>): Option<Json> {
    if m == map[] then None else Some(Obj(m))
  }

  function IdsAnswer(ids: seq<string>): Option<seq<string>> {
    if ids == [] then None else Some(FirstSeen(ids))
  }

  /** A lookup of a live session answers what its accepted patches and profile updates add up to. */
  lemma ResolveKept(c: Config, db: Store, tr: seq<Event>, k: string, kind: Option<AgentType>, agentId: Option<string>)
    requires Reached(c, db, tr) && k in db.sessions
    ensures var r := HandleResolve(c, db, k, kind, agentId);
      && r.Resolved?
      && r.view.turnIds == IdsAnswer(PatchedIds(tr, k))
      && r.view.reference == ReferenceAnswer(LastReference(tr, k))
      && r.view.cusno == LastCustomer(c, tr, k)
      && r.view.agentSessionKey
         == (if kind == Some(Task) && IsGiven(agentId) then AgentAnswer(LastAgent(tr, k, agentId.value)) else None)
      && (EverSaved(tr, k) ==> r.view.realtime == LastProfile(c, tr, ProfileKeyOf(c, tr, k)))
  {
    var l := LiveBehind(c, db, tr, k);
    ResolveLedger(c, l, db, k, kind, agentId);
    if kind == Some(Task) && IsGiven(agentId) {
      assert Get(l.records[k].agents, agentId.value) == LastAgent(tr, k, agentId.value);
    }
  }

  /** The local mapping gives, for every agent, the whole pair last registered for that agent. */
  lemma MappingKept(c: Config, db: Store, tr: seq<Event>, k: string, agentId: string)
    requires Reached(c, db, tr) && k in db.sessions
    ensures var a := LastAgent(tr, k, agentId);
      FindMapping(db, k, agentId) == if a.Some? then Some(Stored(a.value)) else None
  {
    var l := LiveBehind(c, db, tr, k);
    LocalRead(c, l, k, agentId, db);
    assert Get(l.records[k].agents, agentId) == LastAgent(tr, k, agentId);
  }

  // ---------- patch, then lookup ----------

  lemma PatchAnswer(c: Config, db: Store, tr: seq<Event>, k: string, q: PatchRequest)
    requires Reached(c, db, tr) && k in db.sessions
    ensures HandlePatch(c, db, k, q).1 == if Rejected(q) then BadRequest else Patched(db.now)
    ensures k in HandlePatch(c, db, k, q).0.sessions
  {
    var l := LiveBehind(c, db, tr, k);
    SessionRead(c, l, k, db);
    PatchAccepts(c, db, k, q);
  }

  lemma PatchAccepts(c: Config, db: Store, k: string, q: PatchRequest)
    requires Session(db, k).Some?
    ensures HandlePatch(c, db, k, q).1 == if Rejected(q) then BadRequest else Patched(db.now)
    ensures k in HandlePatch(c, db, k, q).0.sessions
  {
  }

  /** Round trip: a lookup after an accepted patch reads back the patch's reference information,
      overridden by its two top-level fields; an empty one leaves the old value. */
  lemma PatchThenResolve(c: Config, db: Store, tr: seq<Event>, k: string, q: PatchRequest, kind: Option<AgentType>,
      agentId: Option<string>)
    requires Reached(c, db, tr) && k in db.sessions && q.patch.Some? && !Rejected(q)
    ensures var r := HandleResolve(c, HandlePatch(c, db, k, q).0, k, kind, agentId);
      && r.Resolved?
      && r.view.reference == (if MergedReference(q.patch.value) == map[] then ReferenceAnswer(LastReference(tr, k))
                              else Some(Obj(MergedReference(q.patch.value))))
  {
    var (db', a) := HandlePatch(c, db, k, q);
    var e := Event(db.now, Patch(k, q), a);
    DrawReached(c, db, tr, Patch(k, q));
    PatchAnswer(c, db, tr, k, q);
    assert (tr + [e])[..|tr|] == tr;
    ResolveKept(c, db', tr + [e], k, kind, agentId);
  }

  /** The two top-level fields win over the patch's own entries, every other entry is the patch's. */
  lemma MergeOverrides(p: StatePatch, x: string)
    ensures Get(MergedReference(p), x) ==
      if x == "current_intent" && p.currentIntent.Some? then Some(Str(p.currentIntent.value))
      else if x == "turn_count" && p.turnCount.Some? then Some(Int(p.turnCount.value))
      else if p.reference.Some? then Get(p.reference.value, x) else None
  {
    assert |"current_intent"| != |"turn_count"|;
  }

  ghost predicate SameValues<T>(t: Table<T>, t': Table<T>) {
    t'.Keys == t.Keys && forall k :: k in t ==> t'[k].value == t[k].value
  }

  /** A patch refused by validation changes nothing but `expires_at` and deadlines, and without TALK nothing at all. */
  lemma RejectedPatchKeeps(c: Config, db: Store, k: string, q: PatchRequest)
    requires Rejected(q) && Session(db, k).Some?
    ensures var (db', r) := HandlePatch(c, db, k, q);
      && r == BadRequest
      && (q.state != Some(Talk) ==> db' == db)
      && db'.now == db.now && db'.jtis == db.jtis
      && SameValues(db.turns, db'.turns) && SameValues(db.realtime, db'.realtime) && SameValues(db.batch, db'.batch)
      && db'.sessions.Keys == db.sessions.Keys
      && (forall x :: x in db.sessions && x != k ==> db'.sessions[x] == db.sessions[x])
      && db'.sessions[k].value - {ExpiresAtField} == db.sessions[k].value - {ExpiresAtField}
  {
  }

  // ---------- tokens ----------

  /** The newest refresh token of a session works exactly until it is closed by token or until the
      shorter of the TTL and the refresh lifetime has passed since it was issued. */
  lemma RefreshExactly(c: Config, db: Store, tr: seq<Event>, k: string, newJti: string)
    requires Reached(c, db, tr) && LastIssue(tr, k).Some?
    ensures var i := LastIssue(tr, k).value;
      var r := HandleRotate(c, db, i.response.refresh, newJti).1;
      && (r.Rotated? <==> !ClosedByToken(tr, k) && db.now < i.at + c.ttl && db.now < i.at + c.refreshLife)
      && (r.Rotated? ==> r.key == k && r.jti == newJti)
  {
    var l := ReachedBehind(c, db, tr);
    RecordBehind(c, l, db, tr, k);
    var i := LastIssue(tr, k).value;
    var t := i.response.refresh;
    ResolvesExactly(c, db, tr, t.jti, k);
    var other := KeyOfJti(db, t.jti);
    if other.Some? { ResolvesExactly(c, db, tr, t.jti, other.value); OwnedOnce(c, l, db, tr, t.jti, k, other.value); }
    RotateAnswer(c, db, t, newJti);
  }

  /** A refresh lifetime longer than the TTL is not honoured: between the two, a token that is still
      valid as a JWT is refused, because its binding is gone. */
  lemma LifetimeCutShort(c: Config, db: Store, tr: seq<Event>, k: string, newJti: string)
    requires Reached(c, db, tr) && LastIssue(tr, k).Some? && db.now < LastIssue(tr, k).value.at + c.refreshLife
    ensures var t := LastIssue(tr, k).value.response.refresh;
      && Accepted(t, db.now) && t.kind == Refresh
      && (!ClosedByToken(tr, k) ==>
            (LastIssue(tr, k).value.at + c.ttl <= db.now
             <==> HandleRotate(c, db, t, newJti).1 == Unauthorized(NotBound)))
  {
    var l := ReachedBehind(c, db, tr);
    RecordBehind(c, l, db, tr, k);
    RefreshExactly(c, db, tr, k, newJti);
    RotateRefused(c, db, LastIssue(tr, k).value.response.refresh, newJti);
  }

  lemma RotateRefused(c: Config, db: Store, t: Token, newJti: string)
    requires Accepted(t, db.now) && t.kind == Refresh && t.jti != ""
    ensures var r := HandleRotate(c, db, t, newJti).1; !r.Rotated? ==> r == Unauthorized(NotBound)
  {
  }

  lemma RotateAnswer(c: Config, db: Store, t: Token, newJti: string)
    ensures var r := HandleRotate(c, db, t, newJti).1;
      && (r.Rotated? <==> Accepted(t, db.now) && t.kind == Refresh && t.jti != "" && KeyOfJti(db, t.jti).Some?)
      && (r.Rotated? ==> Some(r.key) == KeyOfJti(db, t.jti) && r.jti == newJti)
  {
  }

  /** No jti is the newest of two sessions. */
  lemma OwnedOnce(c: Config, l: Ledger, db: Store, tr: seq<Event>, j: string, k: string, x: string)
    requires Behind(c, l, db, tr) && LastIssue(tr, k).Some? && LastIssue(tr, x).Some?
    requires LastIssue(tr, k).value.response.jti == j == LastIssue(tr, x).value.response.jti
    ensures x == k
  {
    RecordBehind(c, l, db, tr, k);
    RecordBehind(c, l, db, tr, x);
  }
}
