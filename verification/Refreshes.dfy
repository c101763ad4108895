// Refresh handlers in any interleaving: what each of them does in order, when it succeeds, and when
// two of them succeed with one token.
module Refreshes {
  import opened Values
  import opened Requests
  import opened Handlers
  import opened Interleaving
  import opened Bindings

  // ---------- the commands of one handler ----------

  /** The commands executed for handler i, in order. */
  function Commands(log: seq<Command>, i: nat): seq<Command> {
    if log == [] then [] else
    Commands(log[..|log| - 1], i) + if log[|log| - 1].who == i then [log[|log| - 1]] else []
  }

  lemma CommandsStep(log: seq<Command>, e: Command, i: nat)
    ensures Commands(log + [e], i) == Commands(log, i) + if e.who == i then [e] else []
  {
    assert (log + [e])[..|log|] == log;
  }

  lemma {:induction false} CommandIn(log: seq<Command>, x: nat, i: nat)
    requires x < |log| && log[x].who == i
    ensures log[x] in Commands(log, i)
  {
    var n := |log| - 1;
    if x < n { CommandIn(log[..n], x, i); }
  }

  lemma {:induction false} CommandAt(log: seq<Command>, i: nat, e: Command) returns (x: nat)
    requires e in Commands(log, i)
    ensures x < |log| && log[x] == e && e.who == i
  {
    var n := |log| - 1;
    if e in Commands(log[..n], i) { x := CommandAt(log[..n], i, e); } else { x := n; }
  }

  lemma {:induction false} NoCommands(log: seq<Command>, i: nat)
    requires forall x :: 0 <= x < |log| ==> log[x].who < i
    ensures Commands(log, i) == []
  {
    if log != [] { NoCommands(log[..|log| - 1], i); }
  }

  // ---------- how a refresh proceeds ----------

  predicate LookedUp(e: Command, j: string, found: Option<string>) {
    e.Looked? && e.jti == j && e.found == found
  }

  predicate Dropped(e: Command, j: string) {
    e.Deleted? && e.jti == j
  }

  /** Where a refresh of token t stands and what it has executed so far. */
  predicate Stage(t: Token, task: Task, done: seq<Command>) {
    match task
    case LookingUp(token) => token == t && done == []
    case Extending(token, key) => token == t && |done| == 1 && LookedUp(done[0], t.jti, Some(key))
    case Dropping(spent, _, key) => spent == t.jti && |done| == 1 && LookedUp(done[0], t.jti, Some(key))
    case Rebinding(_, key) => |done| == 2 && LookedUp(done[0], t.jti, Some(key)) && Dropped(done[1], t.jti)
    case Finished => Ran(t.jti, done)
    case _ => false
  }

  /** A whole refresh: a lookup that fails, or a lookup, a delete and a binding for the session found. */
  predicate Ran(j: string, done: seq<Command>) {
    || (|done| == 1 && LookedUp(done[0], j, None))
    || (|done| == 3 && done[2].Wrote? && LookedUp(done[0], j, Some(done[2].key)) && Dropped(done[1], j))
  }

  lemma OthersCommands(c: Config, m: Machine, a: Action, i: nat)
    requires Enabled(m, a) && i < |m.tasks| && a != Abort(i) && !(a.Advance? && a.i == i)
    ensures var m' := Act(c, m, a);
      i < |m'.tasks| && m'.tasks[i] == m.tasks[i] && Commands(m'.log, i) == Commands(m.log, i)
  {
    var m' := Act(c, m, a);
    if m'.log != m.log { CommandsStep(m.log, m'.log[|m.log|], i); }
  }

  lemma OwnCommands(c: Config, m: Machine, i: nat, draw: string, t: Token)
    requires Enabled(m, Advance(i, draw)) && Stage(t, m.tasks[i], Commands(m.log, i))
    ensures var m' := Proceed(c, m, i, draw); Stage(t, m'.tasks[i], Commands(m'.log, i))
  {
    var m' := Proceed(c, m, i, draw);
    if m'.log != m.log { CommandsStep(m.log, m'.log[|m.log|], i); }
  }

  /** Action a starts handler i, a refresh of token t, and nothing aborts it before machine n. */
  ghost predicate Refreshing(ms: seq<Machine>, acts: seq<Action>, a: nat, n: nat, i: nat, t: Token) {
    && a < n <= |acts| && |ms| == |acts| + 1
    && acts[a] == Spawn(LookingUp(t)) && i == |ms[a].tasks|
    && forall b :: a < b < n ==> acts[b] != Abort(i)
  }

  lemma {:induction false} InStage(c: Config, ms: seq<Machine>, acts: seq<Action>, a: nat, n: nat, i: nat, t: Token)
    requires Trail(c, ms, acts) && Refreshing(ms, acts, a, n, i, t)
    ensures i < |ms[n].tasks| && Stage(t, ms[n].tasks[i], Commands(ms[n].log, i))
    decreases n
  {
    TrailStep(c, ms, acts, n - 1);
    if a == n - 1 {
      TrailGood(c, ms, acts, a);
      NoCommands(ms[a].log, i);
    } else {
      InStage(c, ms, acts, a, n - 1, i, t);
      var act := acts[n - 1];
      if act.Advance? && act.i == i {
        OwnCommands(c, ms[n - 1], i, act.draw, t);
      } else {
        OthersCommands(c, ms[n - 1], act, i);
      }
    }
  }

  /** It has run to its end. */
  ghost predicate Refreshed(ms: seq<Machine>, acts: seq<Action>, a: nat, n: nat, i: nat, t: Token) {
    Refreshing(ms, acts, a, n, i, t) && i < |ms[n].tasks| && ms[n].tasks[i].Finished?
  }

  /** Handler i has written a binding. */
  predicate Rebound(log: seq<Command>, i: nat) {
    exists w :: 0 <= w < |log| && log[w].Wrote? && log[w].who == i
  }

  // ---------- when it succeeds ----------

  /** A finished refresh has looked its jti up exactly once. */
  lemma LooksUpOnce(c: Config, ms: seq<Machine>, acts: seq<Action>, a: nat, n: nat, i: nat, t: Token) returns (x: nat)
    requires Trail(c, ms, acts) && Refreshed(ms, acts, a, n, i, t)
    ensures x < |ms[n].log| && ms[n].log[x].Looked? && ms[n].log[x].who == i
  {
    InStage(c, ms, acts, a, n, i, t);
    x := CommandAt(ms[n].log, i, Commands(ms[n].log, i)[0]);
  }

  /** A finished refresh has written a binding exactly when its own lookup found the session, and then
      for that session. */
  lemma RebindsAsFound(c: Config, ms: seq<Machine>, acts: seq<Action>, a: nat, n: nat, i: nat, t: Token, x: nat)
    requires Trail(c, ms, acts) && Refreshed(ms, acts, a, n, i, t)
    requires x < |ms[n].log| && ms[n].log[x].Looked? && ms[n].log[x].who == i
    ensures var log := ms[n].log;
      && log[x].jti == t.jti
      && (Rebound(log, i) <==> log[x].found.Some?)
      && (forall w :: 0 <= w < |log| && log[w].Wrote? && log[w].who == i ==> log[x].found == Some(log[w].key))
  {
    var log := ms[n].log;
    var done := Commands(log, i);
    InStage(c, ms, acts, a, n, i, t);
    CommandIn(log, x, i);
    forall w | 0 <= w < |log| && log[w].who == i ensures log[w] in done { CommandIn(log, w, i); }
    if log[x].found.Some? { var w := CommandAt(log, i, done[2]); }
  }

  /** Exactly when: its jti was bound, had not expired when looked up, and no delete of it came before the lookup. */
  lemma RebindsExactly(c: Config, ms: seq<Machine>, acts: seq<Action>, a: nat, n: nat, i: nat, t: Token, x: nat)
    requires Trail(c, ms, acts) && Refreshed(ms, acts, a, n, i, t)
    requires x < |ms[n].log| && ms[n].log[x].Looked? && ms[n].log[x].who == i
    ensures Rebound(ms[n].log, i) <==> exists key :: Open(c, ms[n].log, x, t.jti, key)
  {
    RebindsAsFound(c, ms, acts, a, n, i, t, x);
    var found := ms[n].log[x].found;
    forall key ensures found == Some(key) <==> Open(c, ms[n].log, x, t.jti, key) {
      LooksUpExactly(c, ms, acts, n, x, key);
    }
    if found.Some? { assert Open(c, ms[n].log, x, t.jti, found.value); }
  }

  // ---------- two refreshes of one token ----------

  /** The binding of j was written before command x and has not expired when x runs. */
  ghost predicate Unexpired(c: Config, log: seq<Command>, x: nat, j: string)
    requires x < |log|
  {
    exists w :: 0 <= w < x && log[w].Wrote? && log[w].jti == j && log[x].at < log[w].at + c.ttl
  }

  lemma OpenParts(c: Config, log: seq<Command>, x: nat, j: string)
    requires x < |log| && log[x].Looked?
    ensures (exists key :: Open(c, log, x, j, key))
      <==> Unexpired(c, log, x, j) && forall d :: 0 <= d < |log| && Dropped(log[d], j) ==> x < d
  {
    if Unexpired(c, log, x, j) && forall d :: 0 <= d < |log| && Dropped(log[d], j) ==> x < d {
      var w :| 0 <= w < x && log[w].Wrote? && log[w].jti == j && log[x].at < log[w].at + c.ttl;
      assert forall d :: 0 <= d < x && log[d].Deleted? ==> !Dropped(log[d], j);
      assert Open(c, log, x, j, log[w].key);
    }
  }

  /** Two refreshes of one token both succeed exactly when both lookups find the binding unexpired and come
      before every delete of it. */
  lemma BothRebindExactly(c: Config, ms: seq<Machine>, acts: seq<Action>, n: nat, a: nat, i: nat, t: Token, x: nat,
                          b: nat, k: nat, u: Token, y: nat)
    requires Trail(c, ms, acts) && Refreshed(ms, acts, a, n, i, t) && Refreshed(ms, acts, b, n, k, u) && t.jti == u.jti
    requires x < |ms[n].log| && ms[n].log[x].Looked? && ms[n].log[x].who == i
    requires y < |ms[n].log| && ms[n].log[y].Looked? && ms[n].log[y].who == k
    ensures var log := ms[n].log;
      Rebound(log, i) && Rebound(log, k)
      <==> && Unexpired(c, log, x, t.jti) && Unexpired(c, log, y, t.jti)
           && forall d :: 0 <= d < |log| && Dropped(log[d], t.jti) ==> x < d && y < d
  {
    RebindsExactly(c, ms, acts, a, n, i, t, x);
    RebindsExactly(c, ms, acts, b, n, k, u, y);
    OpenParts(c, ms[n].log, x, t.jti);
    OpenParts(c, ms[n].log, y, t.jti);
  }

  lemma {:induction false} LogGrows(c: Config, ms: seq<Machine>, acts: seq<Action>, m: nat, n: nat)
    requires Trail(c, ms, acts) && m <= n <= |acts|
    ensures ms[m].log <= ms[n].log
    decreases n
  {
    if m < n {
      LogGrows(c, ms, acts, m, n - 1);
      TrailStep(c, ms, acts, n - 1);
    }
  }

  /** A refresh started after the token's first refresh has executed its delete does not succeed. */
  lemma StartedLate(c: Config, ms: seq<Machine>, acts: seq<Action>, n: nat, b: nat, k: nat, u: Token)
    requires Trail(c, ms, acts) && Refreshed(ms, acts, b, n, k, u) && Erased(ms[b].log, u.jti)
    ensures !Rebound(ms[n].log, k)
  {
    var y := LooksUpOnce(c, ms, acts, b, n, k, u);
    RebindsExactly(c, ms, acts, b, n, k, u, y);
    OpenParts(c, ms[n].log, y, u.jti);
    LogGrows(c, ms, acts, b, n);
    TrailGood(c, ms, acts, b);
    var d :| 0 <= d < |ms[b].log| && ms[b].log[d].Deleted? && ms[b].log[d].jti == u.jti;
    assert ms[n].log[..|ms[b].log|] == ms[b].log;
    assert ms[n].log[d] == ms[b].log[d] && Dropped(ms[n].log[d], u.jti);
  }

  /** One token, two refreshes that do not overlap: at most one succeeds, whatever else is interleaved. */
  lemma SuccessiveRebindOnce(c: Config, ms: seq<Machine>, acts: seq<Action>, n: nat, a: nat, i: nat, t: Token,
                             b: nat, k: nat, u: Token)
    requires Trail(c, ms, acts) && Refreshed(ms, acts, a, b, i, t) && Refreshed(ms, acts, b, n, k, u) && t.jti == u.jti
    ensures !(Rebound(ms[b].log, i) && Rebound(ms[n].log, k))
  {
    var log := ms[b].log;
    if Rebound(log, i) {
      var w :| 0 <= w < |log| && log[w].Wrote? && log[w].who == i;
      InStage(c, ms, acts, a, b, i, t);
      CommandIn(log, w, i);
      var d := CommandAt(log, i, Commands(log, i)[1]);
      StartedLate(c, ms, acts, n, b, k, u);
    }
  }

  // ---------- a handler on its own, and two of them at once ----------

  /** Handler i takes a step; a new jti is drawn if it needs one. */
  function Stepped(c: Config, m: Machine, i: nat, draw: string): Machine
    requires Enabled(m, Advance(i, draw))
  {
    Act(c, m, Advance(i, draw))
  }

  /** Left alone, the cut-up refresh does to the store what the whole handler does. */
  lemma RotateAlone(c: Config, m: Machine, t: Token, newJti: string)
    requires Authorize(m.db, t, Some(Refresh)).Granted? && NewId(m, newJti)
    ensures var i := |m.tasks|;
      var found := Stepped(c, Act(c, m, Spawn(LookingUp(t))), i, "");
      var extended := Act(c, found, Foreign(RefreshTtl(c, found.db, Authorize(m.db, t, Some(Refresh)).key)));
      var dropped := Stepped(c, Stepped(c, extended, i, newJti), i, "");
      var done := Stepped(c, dropped, i, "");
      done.db == HandleRotate(c, m.db, t, newJti).0 && done.tasks == m.tasks + [Finished]
  {
    var i := |m.tasks|;
    assert (m.tasks + [LookingUp(t)])[i] == LookingUp(t);
  }

  /** Two refreshes look up one token before either goes on. */
  function BothLookedUp(c: Config, m: Machine, t: Token): (m': Machine)
    requires Enabled(m, Spawn(LookingUp(t))) && KeyOfJti(m.db, t.jti).Some?
    ensures var key, i := KeyOfJti(m.db, t.jti), |m.tasks|;
      && m'.tasks == m.tasks + [Extending(t, key.value), Extending(t, key.value)]
      && m'.db == m.db && m'.drawn == m.drawn
      && m'.log == m.log + [Looked(i, m.db.now, t.jti, key), Looked(i + 1, m.db.now, t.jti, key)]
  {
    var i := |m.tasks|;
    var m1 := Act(c, Act(c, m, Spawn(LookingUp(t))), Spawn(LookingUp(t)));
    Stepped(c, Stepped(c, m1, i, ""), i + 1, "")
  }

  /** Then both go through. */
  function TwoRefreshes(c: Config, m: Machine, t: Token, a: string, b: string): Machine
    requires Enabled(m, Spawn(LookingUp(t))) && KeyOfJti(m.db, t.jti).Some?
    requires NewId(m, a) && NewId(m, b) && a != b
  {
    var i := |m.tasks|;
    var drawn := Stepped(c, Stepped(c, BothLookedUp(c, m, t), i, a), i + 1, b);
    var dropped := Stepped(c, Stepped(c, drawn, i, ""), i + 1, "");
    Stepped(c, Stepped(c, dropped, i, ""), i + 1, "")
  }

  /** Wherever a token resolves, two overlapping refreshes with it can both succeed and leave two live jtis
      for its session.  Only one of the two deletes removed it. */
  lemma DoubleRotation(c: Config, m: Machine, t: Token, a: string, b: string)
    requires Enabled(m, Spawn(LookingUp(t))) && KeyOfJti(m.db, t.jti).Some?
    requires NewId(m, a) && NewId(m, b) && a != b && a != t.jti && b != t.jti
    ensures var key, m' := KeyOfJti(m.db, t.jti), TwoRefreshes(c, m, t, a, b);
      && KeyOfJti(m'.db, a) == key && KeyOfJti(m'.db, b) == key && KeyOfJti(m'.db, t.jti) == None
      && Rebound(m'.log, |m.tasks|) && Rebound(m'.log, |m.tasks| + 1)
  {
    var m', n := TwoRefreshes(c, m, t, a, b), |m.log|;
    assert m'.log[n + 4].Wrote? && m'.log[n + 5].Wrote?;
  }
}
