// Close-by-token handlers in any interleaving: what each of them does in order, and when its token is gone.
module Closings {
  import opened Values
  import opened Requests
  import opened Handlers
  import opened Interleaving
  import opened Bindings
  import opened Refreshes

  /** Where a close with token t stands and what it has executed so far. */
  predicate CloseStage(t: Token, task: Task, done: seq<Command>) {
    match task
    case CloseLookingUp(token) => token == t && done == []
    case Ending(token) => token == t && Found(t, done)
    case CloseDropping(spent) => spent == t.jti && Found(t, done)
    case Finished =>
      || (|done| == 1 && LookedUp(done[0], t.jti, None)) || Found(t, done)
      || (|done| == 2 && Found(t, done[..1]) && Dropped(done[1], t.jti))
    case _ => false
  }

  /** It has looked its session up and found it, and done nothing else. */
  predicate Found(t: Token, done: seq<Command>) {
    |done| == 1 && done[0].Looked? && done[0].jti == t.jti && done[0].found.Some?
  }

  /** Action a starts handler i, a close with token t, and nothing aborts it before machine n. */
  ghost predicate Closing(ms: seq<Machine>, acts: seq<Action>, a: nat, n: nat, i: nat, t: Token) {
    && a < n <= |acts| && |ms| == |acts| + 1
    && acts[a] == Spawn(CloseLookingUp(t)) && i == |ms[a].tasks|
    && forall b :: a < b < n ==> acts[b] != Abort(i)
  }

  lemma OwnClose(c: Config, m: Machine, i: nat, draw: string, t: Token)
    requires Enabled(m, Advance(i, draw)) && CloseStage(t, m.tasks[i], Commands(m.log, i))
    ensures var m' := Proceed(c, m, i, draw); CloseStage(t, m'.tasks[i], Commands(m'.log, i))
    ensures var m' := Proceed(c, m, i, draw);
      && (m'.tasks[i].CloseDropping? <==> m.tasks[i].Ending? && Accepted(t, m.db.now))
      && (m.tasks[i].Ending? ==> Commands(m'.log, i) == Commands(m.log, i))
      && (m.tasks[i].CloseDropping? <==> |Commands(m'.log, i)| == 2)
  {
    var m' := Proceed(c, m, i, draw);
    if m'.log != m.log { CommandsStep(m.log, m'.log[|m.log|], i); }
  }

  lemma {:induction false} InCloseStage(c: Config, ms: seq<Machine>, acts: seq<Action>, a: nat, n: nat, i: nat,
      t: Token)
    requires Trail(c, ms, acts) && Closing(ms, acts, a, n, i, t)
    ensures i < |ms[n].tasks| && CloseStage(t, ms[n].tasks[i], Commands(ms[n].log, i))
    decreases n
  {
    TrailStep(c, ms, acts, n - 1);
    if a == n - 1 {
      TrailGood(c, ms, acts, a);
      NoCommands(ms[a].log, i);
    } else {
      InCloseStage(c, ms, acts, a, n - 1, i, t);
      var act := acts[n - 1];
      if act.Advance? && act.i == i {
        OwnClose(c, ms[n - 1], i, act.draw, t);
      } else {
        OthersCommands(c, ms[n - 1], act, i);
      }
    }
  }

  /** Action b is where handler i, having ended the session, verifies its token again. */
  predicate VerifiesAgain(ms: seq<Machine>, acts: seq<Action>, b: nat, i: nat, t: Token)
    requires b < |acts| && |ms| == |acts| + 1
  {
    acts[b].Advance? && acts[b].i == i && i < |ms[b].tasks| && ms[b].tasks[i] == Ending(t)
  }

  /** Past the second verification, having found its session. */
  predicate Past(task: Task, done: seq<Command>) {
    !task.Ending? && |done| >= 1 && done[0].Looked? && done[0].found.Some?
  }

  /** About to delete, or done so. */
  predicate Deleting(task: Task, done: seq<Command>) {
    |done| == 2 || task.CloseDropping?
  }

  lemma PastStep(c: Config, m: Machine, a: Action, i: nat, t: Token)
    requires Enabled(m, a) && i < |m.tasks| && a != Abort(i) && CloseStage(t, m.tasks[i], Commands(m.log, i))
    requires var m' := Act(c, m, a); i < |m'.tasks| && Past(m'.tasks[i], Commands(m'.log, i))
    ensures var m' := Act(c, m, a);
      var deleting := Deleting(m'.tasks[i], Commands(m'.log, i));
      || (a.Advance? && a.i == i && m.tasks[i] == Ending(t) && (deleting <==> Accepted(t, m.db.now)))
      || (Past(m.tasks[i], Commands(m.log, i)) && (deleting <==> Deleting(m.tasks[i], Commands(m.log, i))))
  {
    if a.Advance? && a.i == i {
      OwnClose(c, m, i, a.draw, t);
      CommandsGrow(c, m, a, i);
    } else {
      OthersCommands(c, m, a, i);
    }
  }

  /** A close past its second verification has been through it, and goes on to delete exactly when the token
      was still accepted there. */
  lemma {:induction false} SecondVerification(c: Config, ms: seq<Machine>, acts: seq<Action>, a: nat, n: nat, i: nat,
      t: Token)
      returns (b: nat)
    requires Trail(c, ms, acts) && Closing(ms, acts, a, n, i, t)
    requires i < |ms[n].tasks| && Past(ms[n].tasks[i], Commands(ms[n].log, i))
    ensures b < n && VerifiesAgain(ms, acts, b, i, t)
    ensures Deleting(ms[n].tasks[i], Commands(ms[n].log, i)) <==> Accepted(t, ms[b].db.now)
    decreases n
  {
    NotAtSpawn(c, ms, acts, a, n, i, t);
    InCloseStage(c, ms, acts, a, n - 1, i, t);
    TrailStep(c, ms, acts, n - 1);
    PastStep(c, ms[n - 1], acts[n - 1], i, t);
    if ms[n - 1].tasks[i].Ending? { b := n - 1; } else { b := SecondVerification(c, ms, acts, a, n - 1, i, t); }
  }

  lemma NotAtSpawn(c: Config, ms: seq<Machine>, acts: seq<Action>, a: nat, n: nat, i: nat, t: Token)
    requires Trail(c, ms, acts) && Closing(ms, acts, a, n, i, t)
    requires i < |ms[n].tasks| && Past(ms[n].tasks[i], Commands(ms[n].log, i))
    ensures a < n - 1
  {
    TrailStep(c, ms, acts, a);
    TrailGood(c, ms, acts, a);
    NoCommands(ms[a].log, i);
  }

  lemma CommandsGrow(c: Config, m: Machine, a: Action, i: nat)
    requires Enabled(m, a)
    ensures Commands(m.log, i) <= Commands(Act(c, m, a).log, i)
  {
    var m' := Act(c, m, a);
    if m'.log != m.log { CommandsStep(m.log, m'.log[|m.log|], i); }
  }

  /** A close that has run to its end. */
  ghost predicate HasClosed(ms: seq<Machine>, acts: seq<Action>, a: nat, n: nat, i: nat, t: Token) {
    Closing(ms, acts, a, n, i, t) && i < |ms[n].tasks| && ms[n].tasks[i].Finished?
  }

  /** Handler i has deleted a jti. */
  predicate Deletes(log: seq<Command>, i: nat) {
    exists d :: 0 <= d < |log| && log[d].Deleted? && log[d].who == i
  }

  lemma DeletesTwo(log: seq<Command>, i: nat, t: Token)
    requires CloseStage(t, Finished, Commands(log, i))
    ensures Deletes(log, i) <==> |Commands(log, i)| == 2
    ensures forall d :: 0 <= d < |log| && log[d].Deleted? && log[d].who == i ==> log[d].jti == t.jti
  {
    var done := Commands(log, i);
    forall d | 0 <= d < |log| && log[d].who == i ensures log[d] in done { CommandIn(log, d, i); }
    if |done| == 2 { var d := CommandAt(log, i, done[1]); }
  }

  /** A finished close deletes only its own jti, and exactly when its lookup found the session and its token was
      still accepted when verified again. */
  lemma DeletesExactly(c: Config, ms: seq<Machine>, acts: seq<Action>, a: nat, n: nat, i: nat, t: Token)
    requires Trail(c, ms, acts) && HasClosed(ms, acts, a, n, i, t)
    ensures var log := ms[n].log;
      && (forall d :: 0 <= d < |log| && log[d].Deleted? && log[d].who == i ==> log[d].jti == t.jti)
      && (Deletes(log, i) <==> exists b :: 0 <= b < n && VerifiesAgain(ms, acts, b, i, t) && Accepted(t, ms[b].db.now))
  {
    InCloseStage(c, ms, acts, a, n, i, t);
    var done := Commands(ms[n].log, i);
    DeletesTwo(ms[n].log, i, t);
    if |done| == 2 {
      var b := SecondVerification(c, ms, acts, a, n, i, t);
    } else if b :| 0 <= b < n && VerifiesAgain(ms, acts, b, i, t) && Accepted(t, ms[b].db.now) {
      AcceptedDeletes(c, ms, acts, a, n, i, t, b);
    }
  }

  /** Once verified again with success, the close is about to delete or has deleted. */
  lemma {:induction false} AcceptedDeletes(c: Config, ms: seq<Machine>, acts: seq<Action>, a: nat, n: nat, i: nat,
      t: Token, b: nat)
    requires Trail(c, ms, acts) && Closing(ms, acts, a, n, i, t) && b < n
    requires VerifiesAgain(ms, acts, b, i, t) && Accepted(t, ms[b].db.now)
    ensures i < |ms[n].tasks| && (ms[n].tasks[i].CloseDropping? || |Commands(ms[n].log, i)| == 2)
    decreases n
  {
    NotBeforeSpawn(c, ms, acts, a, b, i);
    InCloseStage(c, ms, acts, a, n, i, t);
    TrailStep(c, ms, acts, n - 1);
    InCloseStage(c, ms, acts, a, n - 1, i, t);
    var act, before := acts[n - 1], ms[n - 1];
    if b < n - 1 { AcceptedDeletes(c, ms, acts, a, n - 1, i, t, b); }
    if act.Advance? && act.i == i {
      OwnClose(c, before, i, act.draw, t);
      CommandsGrow(c, before, act, i);
    } else {
      OthersCommands(c, before, act, i);
    }
  }

  /** A handler does nothing before it is started. */
  lemma NotBeforeSpawn(c: Config, ms: seq<Machine>, acts: seq<Action>, a: nat, b: nat, i: nat)
    requires Trail(c, ms, acts) && a < |acts| && b < |acts| && i == |ms[a].tasks| && i < |ms[b].tasks|
    ensures a < b
  {
    if b <= a { TasksGrow(c, ms, acts, b, a); }
  }

  lemma {:induction false} TasksGrow(c: Config, ms: seq<Machine>, acts: seq<Action>, b: nat, a: nat)
    requires Trail(c, ms, acts) && b <= a <= |acts|
    ensures |ms[b].tasks| <= |ms[a].tasks|
    decreases a
  {
    if b < a {
      TasksGrow(c, ms, acts, b, a - 1);
      TrailStep(c, ms, acts, a - 1);
    }
  }

  /** After a close that deleted, its token never resolves again. */
  lemma ClosedForGood(c: Config, ms: seq<Machine>, acts: seq<Action>, a: nat, m: nat, n: nat, i: nat, t: Token)
    requires Trail(c, ms, acts) && HasClosed(ms, acts, a, m, i, t) && Deletes(ms[m].log, i) && m <= n <= |acts|
    ensures KeyOfJti(ms[n].db, t.jti) == None
  {
    InCloseStage(c, ms, acts, a, m, i, t);
    DeletesTwo(ms[m].log, i, t);
    TrailGood(c, ms, acts, m);
    var d :| 0 <= d < |ms[m].log| && ms[m].log[d].Deleted? && ms[m].log[d].who == i;
    StandingWrite(c, ms[m].log, t.jti);
    TableResolves(c, ms[m], t.jti);
    NeverResolvesAgain(c, ms, acts, m, n, t.jti);
  }
}
