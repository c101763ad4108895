// Whole runs as a sequence of stores and the events between them: what one moment of a run says
// about a later one.
module Histories {
  import opened Values
  import opened RedisStore
  import opened Requests
  import opened Handlers
  import opened Runs
  import opened Agreement
  import opened Theorems

  predicate Follows(c: Config, db: Store, e: Event, db': Store) {
    e.at == db.now && (db', e.response) == Handle(c, db, e.step)
  }

  /** Time does not run back, and a jti is issued only by the step that drew it. */
  predicate Orderly(db: Store, e: Event, db': Store) {
    && e.at == db.now <= db'.now
    && ((e.response.Created? || e.response.Rotated?) ==> DrawnJti(e.step) == Some(e.response.jti))
  }

  ghost predicate Distinct(tr: seq<Event>) {
    forall i, j :: 0 <= i < j < |tr| && DrawnJti(tr[j].step).Some? ==> DrawnJti(tr[i].step) != DrawnJti(tr[j].step)
  }

  /** The stores a run passes through: one before each event and one at the end. */
  ghost predicate History(c: Config, dbs: seq<Store>, tr: seq<Event>) {
    && |dbs| == |tr| + 1 && Distinct(tr)
    && (forall i {:trigger dbs[i]} :: 0 <= i <= |tr| ==> Reached(c, dbs[i], tr[..i]))
    && (forall i {:trigger Follows(c, dbs[i], tr[i], dbs[i + 1])} ::
          0 <= i < |tr| ==> Follows(c, dbs[i], tr[i], dbs[i + 1]))
    && (forall i {:trigger Orderly(dbs[i], tr[i], dbs[i + 1])} :: 0 <= i < |tr| ==> Orderly(dbs[i], tr[i], dbs[i + 1]))
  }

  lemma FollowsOrderly(c: Config, db: Store, e: Event, db': Store)
    requires Follows(c, db, e, db')
    ensures Orderly(db, e, db')
  {
    match e.step
    case Patch(key, r) => PatchTime(c, db, key, r);
    case UpdateProfile(key, profile, fetched) => ProfileTime(c, db, key, CustomerIn(c, profile), Obj(profile), fetched);
    case Tick(d) =>
    case _ =>
  }

  lemma PatchTime(c: Config, db: Store, key: string, r: PatchRequest)
    ensures var (db', a) := HandlePatch(c, db, key, r); db'.now == db.now && !a.Created? && !a.Rotated?
  {
  }

  lemma ProfileTime(c: Config, db: Store, key: string, who: Customer, profile: Json, fetched: Option<Json>)
    ensures var (db', a) := StoreProfile(c, db, key, who, profile, fetched);
      db'.now == db.now && !a.Created? && !a.Rotated?
  {
  }

  lemma RunThenFollows(c: Config, t0: int, prev: seq<Step>, s: Step, db: Store, tr: seq<Event>)
      returns (db0: Store, e: Event)
    requires RunThen(c, t0, prev, s) == (db, tr)
    ensures tr == Run(c, t0, prev).1 + [e] && Run(c, t0, prev) == (db0, tr[..|tr| - 1]) && e.step == s
    ensures Follows(c, db0, e, db)
  {
    db0 := Run(c, t0, prev).0;
    e := Event(db0.now, s, Handle(c, db0, s).1);
    assert tr == Run(c, t0, prev).1 + [e];
    assert tr[..|tr| - 1] == Run(c, t0, prev).1;
  }

  /** The store before the last event. */
  lemma Back(c: Config, db: Store, tr: seq<Event>) returns (db0: Store)
    requires Reached(c, db, tr) && tr != []
    ensures Reached(c, db0, tr[..|tr| - 1]) && Follows(c, db0, tr[|tr| - 1], db)
  {
    var t0, steps :| Admissible(steps) && Run(c, t0, steps) == (db, tr);
    var n := |steps| - 1;
    AdmissiblePrefix(steps, n);
    var e;
    db0, e := RunThenFollows(c, t0, steps[..n], steps[n], db, tr);
  }

  lemma {:induction false} TraceSteps(c: Config, t0: int, steps: seq<Step>)
    ensures var tr := Run(c, t0, steps).1; |tr| == |steps| && forall i :: 0 <= i < |tr| ==> tr[i].step == steps[i]
  {
    if steps != [] {
      var n := |steps| - 1;
      TraceSteps(c, t0, steps[..n]);
      var (db, tr) := Run(c, t0, steps);
      var db0, e := RunThenFollows(c, t0, steps[..n], steps[n], db, tr);
    }
  }

  lemma DistinctTrace(c: Config, db: Store, tr: seq<Event>)
    requires Reached(c, db, tr)
    ensures Distinct(tr)
  {
    var t0, steps :| Admissible(steps) && Run(c, t0, steps) == (db, tr);
    TraceSteps(c, t0, steps);
  }

  /** Every run has a history. */
  lemma {:induction false} HistoryOf(c: Config, db: Store, tr: seq<Event>) returns (dbs: seq<Store>)
    requires Reached(c, db, tr)
    ensures History(c, dbs, tr) && dbs[|tr|] == db
    decreases |tr|
  {
    DistinctTrace(c, db, tr);
    var n := |tr| - 1;
    if n < 0 {
      dbs := [db];
    } else {
      var db0 := Back(c, db, tr);
      var dbs0 := HistoryOf(c, db0, tr[..n]);
      FollowsOrderly(c, db0, tr[n], db);
      dbs := HistoryGrows(c, dbs0, tr, db);
    }
  }

  lemma HistoryGrows(c: Config, dbs0: seq<Store>, tr: seq<Event>, db: Store) returns (dbs: seq<Store>)
    requires tr != [] && History(c, dbs0, tr[..|tr| - 1]) && Reached(c, db, tr) && Distinct(tr)
    requires Follows(c, dbs0[|tr| - 1], tr[|tr| - 1], db) && Orderly(dbs0[|tr| - 1], tr[|tr| - 1], db)
    ensures History(c, dbs, tr) && dbs == dbs0 + [db]
  {
    var n := |tr| - 1;
    var tr0 := tr[..n];
    dbs := dbs0 + [db];
    forall i | 0 <= i <= |tr| ensures Reached(c, dbs[i], tr[..i]) {
      if i <= n { assert tr0[..i] == tr[..i] && dbs[i] == dbs0[i]; } else { assert tr[..i] == tr; }
    }
    forall i | 0 <= i < |tr| ensures Follows(c, dbs[i], tr[i], dbs[i + 1]) && Orderly(dbs[i], tr[i], dbs[i + 1]) {
      if i < n {
        assert Follows(c, dbs0[i], tr0[i], dbs0[i + 1]) && Orderly(dbs0[i], tr0[i], dbs0[i + 1]);
      }
    }
  }

  lemma Moment(c: Config, dbs: seq<Store>, tr: seq<Event>, n: nat)
    requires History(c, dbs, tr) && n < |tr|
    ensures tr[..n + 1] == tr[..n] + [tr[n]]
    ensures Reached(c, dbs[n], tr[..n]) && Reached(c, dbs[n + 1], tr[..n + 1]) && Orderly(dbs[n], tr[n], dbs[n + 1])
  {
  }

  // ---------- deadlines ----------

  lemma RenewedOnce(c: Config, db: Store, tr: seq<Event>, e: Event, k: string)
    requires Reached(c, db, tr) && LastRenewal(tr, k).Some? && e.at == db.now
    ensures NoLater(LastRenewal(tr, k), LastRenewal(tr + [e], k))
  {
    var l := ReachedBehind(c, db, tr);
    TimesBehind(c, l, db, tr, k);
    TimesStep(c, tr, e, k);
  }

  lemma {:induction false} RenewalGrows(c: Config, dbs: seq<Store>, tr: seq<Event>, m: nat, n: nat, k: string)
    requires History(c, dbs, tr) && m <= n <= |tr| && LastRenewal(tr[..m], k).Some?
    ensures NoLater(LastRenewal(tr[..m], k), LastRenewal(tr[..n], k))
    decreases n
  {
    if m < n {
      RenewalGrows(c, dbs, tr, m, n - 1, k);
      Moment(c, dbs, tr, n - 1);
      RenewedOnce(c, dbs[n - 1], tr[..n - 1], tr[n - 1], k);
    }
  }

  /** The deadline of a session never moves back while it lives. */
  lemma DeadlineNeverDecreases(c: Config, dbs: seq<Store>, tr: seq<Event>, m: nat, n: nat, k: string)
    requires History(c, dbs, tr) && m <= n <= |tr| && k in dbs[m].sessions && k in dbs[n].sessions
    ensures NoLater(dbs[m].sessions[k].deadline, dbs[n].sessions[k].deadline)
  {
    LiveExactly(c, dbs[m], tr[..m], k);
    LiveExactly(c, dbs[n], tr[..n], k);
    RenewalGrows(c, dbs, tr, m, n, k);
  }

  // ---------- a jti that stopped resolving ----------

  /** If a jti resolves after an event that did not draw it, it resolved before. */
  lemma ResolvedBefore(c: Config, db: Store, tr: seq<Event>, e: Event, db': Store, j: string, k: string)
    requires Reached(c, db, tr) && Reached(c, db', tr + [e]) && Orderly(db, e, db')
    requires DrawnJti(e.step) != Some(j) && KeyOfJti(db', j) == Some(k)
    ensures KeyOfJti(db, j) == Some(k)
  {
    ResolvesExactly(c, db, tr, j, k);
    ResolvesExactly(c, db', tr + [e], j, k);
    assert (tr + [e])[..|tr|] == tr;
  }

  /** A jti that was drawn and does not resolve (rotated, closed or expired) never resolves again. */
  lemma {:induction false} NeverAgain(c: Config, dbs: seq<Store>, tr: seq<Event>, i: nat, m: nat, n: nat)
    requires History(c, dbs, tr) && i < m <= n <= |tr|
    requires DrawnJti(tr[i].step).Some? && KeyOfJti(dbs[m], DrawnJti(tr[i].step).value) == None
    ensures KeyOfJti(dbs[n], DrawnJti(tr[i].step).value) == None
    decreases n
  {
    if m < n {
      var j := DrawnJti(tr[i].step).value;
      NeverAgain(c, dbs, tr, i, m, n - 1);
      Moment(c, dbs, tr, n - 1);
      var k := KeyOfJti(dbs[n], j);
      if k.Some? { ResolvedBefore(c, dbs[n - 1], tr[..n - 1], tr[n - 1], dbs[n], j, k.value); }
    }
  }

  lemma {:induction false} IssueIndex(tr: seq<Event>, n: nat, k: string) returns (i: nat)
    requires n <= |tr| && LastIssue(tr[..n], k).Some?
    ensures i < n && tr[i] == LastIssue(tr[..n], k).value
  {
    assert tr[..n][..n - 1] == tr[..n - 1];
    if Issues(tr[n - 1], k) { i := n - 1; } else { i := IssueIndex(tr, n - 1, k); }
  }

  lemma RotationBinds(c: Config, db: Store, e: Event, db': Store)
    requires Follows(c, db, e, db') && e.step.Rotate? && e.response.Rotated?
    ensures KeyOfJti(db, e.step.token.jti) == Some(e.response.key)
    ensures e.step.newJti != e.step.token.jti ==> KeyOfJti(db', e.step.token.jti) == None
  {
  }

  /** In a run each refresh token succeeds at most once. */
  lemma RotatesOnce(c: Config, dbs: seq<Store>, tr: seq<Event>, m: nat, n: nat)
    requires History(c, dbs, tr) && m < n < |tr|
    requires tr[m].step.Rotate? && tr[n].step.Rotate? && tr[m].step.token.jti == tr[n].step.token.jti
    requires tr[m].response.Rotated?
    ensures !tr[n].response.Rotated?
  {
    var j, k := tr[m].step.token.jti, tr[m].response.key;
    assert Follows(c, dbs[m], tr[m], dbs[m + 1]) && Follows(c, dbs[n], tr[n], dbs[n + 1]);
    RotationBinds(c, dbs[m], tr[m], dbs[m + 1]);
    ResolvesExactly(c, dbs[m], tr[..m], j, k);
    var i := IssueIndex(tr, m, k);
    Moment(c, dbs, tr, i);
    NeverAgain(c, dbs, tr, i, m + 1, n);
    if tr[n].response.Rotated? { RotationBinds(c, dbs[n], tr[n], dbs[n + 1]); }
  }
}
