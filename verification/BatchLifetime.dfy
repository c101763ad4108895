// How long a batch profile lives, and exactly when it outlives the session that looks it up.
module BatchLifetime {
  import opened Values
  import opened RedisStore
  import opened Requests
  import opened Handlers
  import opened Ledgers
  import opened LedgerInvariant
  import opened Runs
  import opened Agreement
  import opened Theorems
  import opened Continuations
  import opened BatchHistory

  /** The session an event renewed. */
  function Renewed(e: Event): Option<string> {
    if e.response.Created? || e.response.Rotated? then Some(e.response.key)
    else if e.step.Patch? && e.step.request.state == Some(Talk) && e.response != NotFound then Some(e.step.key)
    else None
  }

  /** The event renewed a session that looks its profiles up under p. */
  predicate RenewsUnder(c: Config, before: seq<Event>, e: Event, p: string) {
    Renewed(e).Some? && LastCustomer(c, before, Renewed(e).value) == Some(p)
  }

  /** When a batch profile was last stored under p, or a session under p renewed while it was still there. */
  function LastBatchTouch(c: Config, tr: seq<Event>, p: string): Option<int> {
    if tr == [] then None else
    var e, before := tr[|tr| - 1], tr[..|tr| - 1];
    var touched := LastBatchTouch(c, before, p);
    if StoresBatch(c, e, p) then Some(e.at)
    else if RenewsUnder(c, before, e, p) && touched.Some? && e.at < touched.value + c.ttl then Some(e.at)
    else touched
  }

  function TouchAt(c: Config, l: Ledger, p: string): Option<int> {
    if p in l.batch then Some(l.batch[p].until - c.ttl) else None
  }

  function CustomerOn(l: Ledger, k: Option<string>): Option<string> {
    if k.Some? && k.value in l.records then l.records[k.value].cusno else None
  }

  /** The same on the ledger, one event at a time. */
  function Touched(c: Config, l: Ledger, e: Event, p: string): Option<int> {
    if StoresBatch(c, e, p) then Some(e.at)
    else
      var touched := TouchAt(c, l, p);
      if CustomerOn(l, Renewed(e)) == Some(p) && touched.Some? && e.at < touched.value + c.ttl then Some(e.at)
      else touched
  }

  lemma ExtendTouch(c: Config, l: Ledger, k: string, p: string)
    requires k in l.records
    ensures TouchAt(c, Extend(c, l, k), p)
            == if l.records[k].cusno == Some(p) && TouchAt(c, l, p).Some? && l.now < TouchAt(c, l, p).value + c.ttl
               then Some(l.now) else TouchAt(c, l, p)
  {
  }

  lemma RotateTouch(c: Config, l: Ledger, t: Token, newJti: string, p: string)
    ensures var n := NextRotate(c, l, t, newJti);
      TouchAt(c, n.0, p) == Touched(c, l, Event(l.now, Rotate(t, newJti), n.1), p)
  {
    var g := Permit(c, l, t, Some(Refresh));
    if g.Granted? { ExtendTouch(c, l, g.key, p); }
  }

  lemma PatchTouch(c: Config, l: Ledger, k: string, q: PatchRequest, p: string)
    ensures var n := NextPatch(c, l, k, q);
      TouchAt(c, n.0, p) == Touched(c, l, Event(l.now, Patch(k, q), n.1), p)
  {
    if Live(c, l, k) { ExtendTouch(c, l, k, p); }
  }

  lemma StoredTouch(c: Config, l: Ledger, x: string, who: Customer, profile: Json, fetched: Option<Json>, p: string)
    ensures var n := NextProfile(c, l, x, who, profile, fetched);
      TouchAt(c, n.0, p)
      == if n.1.ProfileSaved? && who == Customer(p) && IsFetched(fetched) then Some(l.now) else TouchAt(c, l, p)
    ensures !NextProfile(c, l, x, who, profile, fetched).1.Created?
        && !NextProfile(c, l, x, who, profile, fetched).1.Rotated?
  {
  }

  lemma QuietTouch(c: Config, l: Ledger, s: Step, p: string)
    requires s.CloseByKey? || s.CloseByToken? || s.SaveResult?
    ensures TouchAt(c, Next(c, l, s).0, p) == TouchAt(c, l, p)
    ensures !Next(c, l, s).1.Created? && !Next(c, l, s).1.Rotated?
  {
  }

  lemma NextTouch(c: Config, l: Ledger, s: Step, p: string)
    requires Fresh(l, s)
    ensures var n := Next(c, l, s); TouchAt(c, n.0, p) == Touched(c, l, Event(l.now, s, n.1), p)
  {
    match s
    case Rotate(t, newJti) => RotateTouch(c, l, t, newJti, p);
    case Patch(x, q) => PatchTouch(c, l, x, q, p);
    case UpdateProfile(x, profile, fetched) => StoredTouch(c, l, x, CustomerIn(c, profile), Obj(profile), fetched, p);
    case CloseByKey(_, _, _) => QuietTouch(c, l, s, p);
    case CloseByToken(_, _) => QuietTouch(c, l, s, p);
    case SaveResult(_, _) => QuietTouch(c, l, s, p);
    case _ =>
  }

  lemma TouchStep(c: Config, l: Ledger, tr: seq<Event>, e: Event, p: string)
    requires Agrees(c, l, tr) && TouchAt(c, l, p) == LastBatchTouch(c, tr, p)
    ensures LastBatchTouch(c, tr + [e], p) == Touched(c, l, e, p)
  {
    assert (tr + [e])[..|tr|] == tr;
    var k := Renewed(e);
    if k.Some? { assert if k.value in l.records then AgreesOn(c, l, tr, k.value) else Untouched(c, tr, k.value); }
  }

  lemma {:induction false} RunTouches(c: Config, t0: int, steps: seq<Step>, p: string)
    requires 0 < c.ttl && Admissible(steps)
    ensures var (l, tr) := LedgerRun(c, t0, steps); TouchAt(c, l, p) == LastBatchTouch(c, tr, p)
  {
    if steps != [] {
      var prev, s := steps[..|steps| - 1], steps[|steps| - 1];
      assert steps == prev + [s];
      AdmissiblePrefix(steps, |steps| - 1);
      RunTouches(c, t0, prev, p);
      RunRefines(c, t0, prev);
      RunAgrees(c, t0, prev);
      var (l, tr) := LedgerRun(c, t0, prev);
      DrawnFresh(l, prev, s);
      NextTouch(c, l, s, p);
      TouchStep(c, l, tr, Event(l.now, s, Next(c, l, s).1), p);
    }
  }

  lemma TouchBehind(c: Config, db: Store, tr: seq<Event>, p: string) returns (l: Ledger)
    requires Reached(c, db, tr)
    ensures Behind(c, l, db, tr) && TouchAt(c, l, p) == LastBatchTouch(c, tr, p)
  {
    var t0, steps :| Admissible(steps) && Run(c, t0, steps) == (db, tr);
    l := LedgerRun(c, t0, steps).0;
    RunRefines(c, t0, steps);
    RunAgrees(c, t0, steps);
    RunTouches(c, t0, steps, p);
  }

  /** A batch profile is there exactly for one TTL after its last touch. */
  lemma BatchLives(c: Config, db: Store, tr: seq<Event>, p: string)
    requires Reached(c, db, tr)
    ensures p in db.batch <==> LastBatchTouch(c, tr, p).Some? && db.now < LastBatchTouch(c, tr, p).value + c.ttl
    ensures p in db.batch ==> db.batch[p].deadline == Some(LastBatchTouch(c, tr, p).value + c.ttl)
  {
    var l := TouchBehind(c, db, tr, p);
    BatchRead(c, l, db, p);
  }

  /** The batch profile a live session looks up is there and outlives it exactly when its last touch is no
      older than the session's last renewal. */
  lemma BatchExactly(c: Config, db: Store, tr: seq<Event>, k: string, p: string)
    requires Reached(c, db, tr) && k in db.sessions && LastCustomer(c, tr, k) == Some(p)
    ensures p in db.batch && NoLater(db.sessions[k].deadline, db.batch[p].deadline)
      <==> NoLater(LastRenewal(tr, k), LastBatchTouch(c, tr, p))
  {
    LiveExactly(c, db, tr, k);
    BatchLives(c, db, tr, p);
  }

  // ---------- it can go first ----------

  /** What a profile update with a customer number leaves of the session and of the customer's batch profile. */
  predicate Joined(c: Config, db: Store, db': Store, k: string, n: string, fetched: Option<Json>) {
    && db'.now == db.now && Session(db', k).Some? && k in db.sessions
    && db'.sessions[k].deadline == db.sessions[k].deadline && Cusno(db'.sessions[k].value) == Some(n)
    && (if IsFetched(fetched) then Get(db'.batch, n).Some? && db'.batch[n].deadline == Some(db.now + c.ttl)
        else db'.batch == db.batch)
  }

  lemma JoinFollows(c: Config, db: Store, tr: seq<Event>, k: string, n: string, profile: map<string, Json>,
      fetched: Option<Json>)
      returns (db': Store, tr': seq<Event>)
    requires Reached(c, db, tr) && Session(db, k).Some? && CustomerIn(c, profile) == Customer(n)
    ensures Reached(c, db', tr') && OneMore(tr, tr', UpdateProfile(k, profile, fetched))
        && Joined(c, db, db', k, n, fetched)
    ensures IsFetched(fetched) ==> StoresBatch(c, tr'[|tr|], n)
  {
    var e: Event;
    db', e := JoinMade(c, db, tr, k, n, profile, fetched);
    tr' := tr + [e];
  }

  lemma JoinMade(c: Config, db: Store, tr: seq<Event>, k: string, n: string, profile: map<string, Json>,
      fetched: Option<Json>)
      returns (db': Store, e: Event)
    requires Reached(c, db, tr) && Session(db, k).Some? && CustomerIn(c, profile) == Customer(n)
    ensures Reached(c, db', tr + [e]) && Joined(c, db, db', k, n, fetched)
    ensures e.step == UpdateProfile(k, profile, fetched) && e.response == ProfileSaved(db.now)
    ensures HandleUpdateProfile(c, db, k, profile, fetched) == (db', ProfileSaved(db.now))
    ensures IsFetched(fetched) ==> StoresBatch(c, e, n)
  {
    var s := UpdateProfile(k, profile, fetched);
    DrawReached(c, db, tr, s);
    JoinedEntry(c, db, k, n, Obj(profile), fetched);
    var (d, r) := StoreProfile(c, db, k, Customer(n), Obj(profile), fetched);
    db', e := d, Event(db.now, s, r);
  }

  lemma JoinedEntry(c: Config, db: Store, k: string, n: string, profile: Json, fetched: Option<Json>)
    requires Session(db, k).Some? && n != ""
    ensures var (db', answer) := StoreProfile(c, db, k, Customer(n), profile, fetched);
      answer == ProfileSaved(db.now) && Joined(c, db, db', k, n, fetched)
  {
  }

  /** Wherever a batch profile has aged, a run goes on to a live session that looks it up and does not find it. */
  lemma LapseFollows(c: Config, db: Store, tr: seq<Event>, s: Step, n: string, d: int, profile: map<string, Json>)
      returns (db': Store, tr': seq<Event>)
    requires Reached(c, db, tr) && s.Create? && NewDraws(tr, s) && CustomerIn(c, profile) == Customer(n)
    requires n in db.batch && db.batch[n].deadline == Some(d) && db.now < d < db.now + c.ttl
    ensures Reached(c, db', tr') && tr <= tr' && s.key in db'.sessions && n !in db'.batch
    ensures Cusno(db'.sessions[s.key].value) == Some(n)
  {
    var db1, tr1 := CreateFollows(c, db, tr, s);
    var db2, tr2 := JoinFollows(c, db1, tr1, s.key, n, profile, None);
    tr' := TickFollows(c, db2, tr2, d - db.now);
    db' := Elapse(db2, d - db.now);
    LaterTrace(tr, tr1, tr2);
    LaterTrace(tr, tr2, tr');
  }

  lemma LaterTrace(tr: seq<Event>, tr1: seq<Event>, tr2: seq<Event>)
    requires tr <= tr1 <= tr2
    ensures tr <= tr2
  {
  }

  /** A run that stores a batch profile and then lets one unit of time pass. */
  lemma AgedReached(c: Config, t0: int, s: Step, n: string, profile: map<string, Json>, fetched: Json)
      returns (db: Store, tr: seq<Event>)
    requires 1 < c.ttl && s.Create? && CustomerIn(c, profile) == Customer(n) && Truthy(fetched) && s.key != ""
        && s.jti != ""
    ensures Reached(c, db, tr) && db.now == t0 + 1 && n in db.batch && db.batch[n].deadline == Some(t0 + c.ttl)
    ensures |tr| == 3 && tr[0].step == s && tr[2].step == Tick(1) && StoresBatch(c, tr[1], n)
  {
    StartReached(c, t0);
    var db1, tr1 := CreateFollows(c, EmptyStore(t0), [], s);
    var db2, tr2 := JoinFollows(c, db1, tr1, s.key, n, profile, Some(fetched));
    tr := TickFollows(c, db2, tr2, 1);
    db := Elapse(db2, 1);
    assert tr[0] == tr2[0] == tr1[0] && tr[1] == tr2[1];
  }

  /** Such a state is reached from an empty store: one session fetches the batch profile, a younger one joins. */
  lemma BatchLapses(c: Config, t0: int, s: Step, u: Step, n: string, profile: map<string, Json>, fetched: Json)
      returns (db: Store, tr: seq<Event>)
    requires 1 < c.ttl && s.Create? && u.Create? && CustomerIn(c, profile) == Customer(n) && Truthy(fetched)
    requires "" !in {s.key, s.jti, u.key, u.jti} && s.key != u.key && s.jti != u.jti
    ensures Reached(c, db, tr) && u.key in db.sessions && n !in db.batch
    ensures Cusno(db.sessions[u.key].value) == Some(n) && LastBatchTouch(c, tr, n).Some?
  {
    var db1, tr1 := AgedReached(c, t0, s, n, profile, fetched);
    db, tr := LapseFollows(c, db1, tr1, u, n, t0 + c.ttl, profile);
    StoredTouched(c, tr, n, 1);
  }

  /** A batch profile once stored has been touched. */
  lemma {:induction false} StoredTouched(c: Config, tr: seq<Event>, p: string, i: nat)
    requires i < |tr| && StoresBatch(c, tr[i], p)
    ensures LastBatchTouch(c, tr, p).Some?
  {
    var n := |tr| - 1;
    if i < n { StoredTouched(c, tr[..n], p, i); }
  }
}
