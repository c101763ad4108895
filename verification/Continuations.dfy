// How a run can go on: any step whose identifiers are new may follow, and what it then leaves.
module Continuations {
  import opened Values
  import opened RedisStore
  import opened Requests
  import opened Handlers
  import opened Ledgers
  import opened Runs
  import opened Theorems
  import opened Histories

  lemma StartReached(c: Config, t0: int)
    requires 0 < c.ttl
    ensures Reached(c, EmptyStore(t0), [])
  {
    assert Run(c, t0, []) == (EmptyStore(t0), []) && Admissible([]);
  }

  /** The identifiers a step draws are new to the run. */
  ghost predicate NewDraws(tr: seq<Event>, s: Step) {
    && DrawnJti(s) != Some("") && DrawnKey(s) != Some("")
    && (DrawnJti(s).Some? ==> forall i :: 0 <= i < |tr| ==> DrawnJti(tr[i].step) != DrawnJti(s))
    && (DrawnKey(s).Some? ==> forall i :: 0 <= i < |tr| ==> DrawnKey(tr[i].step) != DrawnKey(s))
  }

  lemma AdmissibleNext(tr: seq<Event>, steps: seq<Step>, s: Step)
    requires Admissible(steps) && NewDraws(tr, s)
    requires |tr| == |steps| && forall i :: 0 <= i < |tr| ==> tr[i].step == steps[i]
    ensures Admissible(steps + [s])
  {
    var all := steps + [s];
    assert all[|steps|] == s;
    assert forall i :: 0 <= i < |steps| ==> all[i] == tr[i].step;
  }

  /** A step that draws new identifiers can follow any run. */
  lemma DrawReached(c: Config, db: Store, tr: seq<Event>, s: Step)
    requires Reached(c, db, tr) && NewDraws(tr, s)
    ensures var (db', r) := Handle(c, db, s); Reached(c, db', tr + [Event(db.now, s, r)])
  {
    var t0, steps :| Admissible(steps) && Run(c, t0, steps) == (db, tr);
    TraceSteps(c, t0, steps);
    AdmissibleNext(tr, steps, s);
    RunNext(c, t0, steps, s);
  }

  /** A session never drawn is not there. */
  lemma UndrawnAbsent(c: Config, db: Store, tr: seq<Event>, k: string)
    requires Reached(c, db, tr) && forall i :: 0 <= i < |tr| ==> DrawnKey(tr[i].step) != Some(k)
    ensures k !in db.sessions
  {
    var t0, steps :| Admissible(steps) && Run(c, t0, steps) == (db, tr);
    TraceSteps(c, t0, steps);
    RunRefines(c, t0, steps);
    var l := LedgerRun(c, t0, steps).0;
    assert Get(db.sessions, k) == SessionEntry(c, l, k);
  }

  /** The run goes on with one event. */
  predicate OneMore(tr: seq<Event>, tr': seq<Event>, s: Step) {
    |tr'| == |tr| + 1 && tr'[..|tr|] == tr && tr'[|tr|].step == s
  }

  lemma CreateFollows(c: Config, db: Store, tr: seq<Event>, s: Step) returns (db': Store, tr': seq<Event>)
    requires Reached(c, db, tr) && s.Create? && NewDraws(tr, s)
    ensures Reached(c, db', tr') && OneMore(tr, tr', s)
    ensures db'.now == db.now && db'.batch == db.batch && Session(db', s.key).Some?
    ensures db'.sessions[s.key].deadline == Some(db.now + c.ttl)
  {
    DrawReached(c, db, tr, s);
    UndrawnAbsent(c, db, tr, s.key);
    CreatedEntry(c, db, s);
    var (d, r) := HandleCreate(c, db, s);
    db', tr' := d, tr + [Event(db.now, s, r)];
  }

  lemma CreatedEntry(c: Config, db: Store, s: Step)
    requires s.Create? && s.key !in db.sessions
    ensures var created := HandleCreate(c, db, s).0;
      && created.now == db.now && created.batch == db.batch && Session(created, s.key).Some?
      && created.sessions[s.key].deadline == Some(db.now + c.ttl)
  {
    assert SessionKeyField in NewSession(c, s, db.now);
  }

  lemma TickFollows(c: Config, db: Store, tr: seq<Event>, d: nat) returns (tr': seq<Event>)
    requires Reached(c, db, tr)
    ensures Reached(c, Elapse(db, d), tr') && OneMore(tr, tr', Tick(d))
  {
    DrawReached(c, db, tr, Tick(d));
    tr' := tr + [Event(db.now, Tick(d), Ticked)];
  }
}
