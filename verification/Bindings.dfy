// Token bindings in every interleaving: written once, always for the same session, and gone for good.
module Bindings {
  import opened Values
  import opened Requests
  import opened Handlers
  import opened Interleaving

  /** Each jti is written at most once. */
  lemma WrittenOnce(c: Config, ms: seq<Machine>, acts: seq<Action>, n: nat, a: nat, b: nat)
    requires Trail(c, ms, acts) && n <= |acts| && a < b < |ms[n].log|
    requires ms[n].log[a].Wrote? && ms[n].log[b].Wrote?
    ensures ms[n].log[a].jti != ms[n].log[b].jti
  {
    TrailGood(c, ms, acts, n);
    var log := ms[n].log;
    assert GoodCommand(c, log[..b], log[b]) && log[..b][a] == log[a];
  }

  /** Only one delete of a jti ever removes it. */
  lemma RemovedOnce(c: Config, ms: seq<Machine>, acts: seq<Action>, n: nat, a: nat, b: nat)
    requires Trail(c, ms, acts) && n <= |acts| && a < b < |ms[n].log|
    requires ms[n].log[a].Deleted? && ms[n].log[b].Deleted? && ms[n].log[b].removed
    ensures ms[n].log[a].jti != ms[n].log[b].jti
  {
    TrailGood(c, ms, acts, n);
    var log := ms[n].log;
    assert GoodCommand(c, log[..b], log[b]) && log[..b][a] == log[a];
  }

  /** Jti j was bound to key before command x, has not expired when x runs, and no delete of it came before x. */
  ghost predicate Open(c: Config, log: seq<Command>, x: nat, j: string, key: string)
    requires x < |log|
  {
    && (exists w :: && 0 <= w < x && log[w].Wrote? && log[w].jti == j && log[w].key == key
                    && log[x].at < log[w].at + c.ttl)
    && (forall d :: 0 <= d < x && log[d].Deleted? ==> log[d].jti != j)
  }

  lemma BoundOpen(c: Config, log: seq<Command>, x: nat, j: string, key: string)
    requires GoodLog(c, log) && x < |log|
    ensures KeyOf(Bound(c, log[..x], j, log[x].at)) == Some(key) <==> Open(c, log, x, j, key)
  {
    var before := log[..x];
    GoodPrefix(c, log, x);
    StandingWrite(c, before, j);
    assert forall w :: 0 <= w < x ==> before[w] == log[w];
    var last := LastWrite(before, j);
    if last.Some? {
      var w :| 0 <= w < |before| && before[w] == last.value;
      assert log[w] == last.value;
    }
  }

  /** A lookup finds a session exactly when its jti was bound to it, has not expired and was not deleted before. */
  lemma LooksUpExactly(c: Config, ms: seq<Machine>, acts: seq<Action>, n: nat, x: nat, key: string)
    requires Trail(c, ms, acts) && n <= |acts| && x < |ms[n].log| && ms[n].log[x].Looked?
    ensures ms[n].log[x].found == Some(key) <==> Open(c, ms[n].log, x, ms[n].log[x].jti, key)
  {
    TrailGood(c, ms, acts, n);
    var log := ms[n].log;
    assert GoodCommand(c, log[..x], log[x]);
    BoundOpen(c, log, x, log[x].jti, key);
  }

  /** A stored jti stands for the one session it was ever bound to. */
  lemma ResolvesAsIssued(c: Config, ms: seq<Machine>, acts: seq<Action>, n: nat, j: string, key: string)
    requires Trail(c, ms, acts) && n <= |acts| && KeyOfJti(ms[n].db, j) == Some(key)
    ensures var log := ms[n].log;
      && (exists w :: 0 <= w < |log| && log[w].Wrote? && log[w].jti == j && ms[n].db.now < log[w].at + c.ttl)
      && (forall w :: 0 <= w < |log| && log[w].Wrote? && log[w].jti == j ==> log[w].key == key)
  {
    TrailGood(c, ms, acts, n);
    TableResolves(c, ms[n], j);
    StandingWrite(c, ms[n].log, j);
  }

  lemma GoneStays(c: Config, m: Machine, a: Action, j: string)
    requires Good(c, m) && Enabled(m, a) && Written(m.log, j) && j !in m.db.jtis
    ensures Written(Act(c, m, a).log, j) && j !in Act(c, m, a).db.jtis
  {
    if a.Advance? {
      assert GoodTask(m, m.tasks[a.i]);
      var log := Act(c, m, a).log;
      if log != m.log { LogStep(m.log, log[|log| - 1], j); }
    }
  }

  /** Once bound and gone (rotated, closed or expired), a jti never resolves again. */
  lemma {:induction false} NeverResolvesAgain(c: Config, ms: seq<Machine>, acts: seq<Action>, m: nat, n: nat, j: string)
    requires Trail(c, ms, acts) && m <= n <= |acts|
    requires Written(ms[m].log, j) && KeyOfJti(ms[m].db, j) == None
    ensures Written(ms[n].log, j) && KeyOfJti(ms[n].db, j) == None
    decreases n
  {
    TrailGood(c, ms, acts, n);
    if m < n {
      NeverResolvesAgain(c, ms, acts, m, n - 1, j);
      TrailGood(c, ms, acts, n - 1);
      TrailStep(c, ms, acts, n - 1);
      TableResolves(c, ms[n - 1], j);
      GoneStays(c, ms[n - 1], acts[n - 1], j);
    }
  }
}
