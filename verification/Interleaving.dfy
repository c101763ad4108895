// Handlers interleaved at their awaits.  Create, refresh and close are cut into their jti commands;
// every other Redis command may change the other key families in any way at any moment.
module Interleaving {
  import opened Values
  import opened RedisStore
  import opened Requests
  import opened Handlers

  /** Where a handler stands: what its next command will be. */
  datatype Task =
    | Binding(jti: string, key: string)                       // create: SETEX
    | LookingUp(token: Token)                                 // refresh: GET
    | Extending(token: Token, key: string)                    // refresh: refresh_ttl, then draw a jti
    | Dropping(spent: string, jti: string, key: string)         // refresh: DEL
    | Rebinding(jti: string, key: string)                     // refresh: SETEX
    | CloseLookingUp(token: Token)                            // close: GET
    | Ending(token: Token)                                    // close: update the session, verify again
    | CloseDropping(spent: string)                              // close: DEL
    | Finished

  /** A jti command Redis has executed: for which handler, when, and what it answered. */
  datatype Command =
    | Wrote(who: nat, at: int, jti: string, key: string)
    | Deleted(who: nat, at: int, jti: string, removed: bool)
    | Looked(who: nat, at: int, jti: string, found: Option<string>)

  datatype Machine = Machine(db: Store, tasks: seq<Task>, log: seq<Command>, drawn: set<string>)

  datatype Action =
    | Spawn(task: Task)
    | Advance(i: nat, draw: string)
    | Abort(i: nat)
    | Foreign(db: Store)
    | Tick(d: nat)

  function Boot(t0: int): Machine {
    Machine(EmptyStore(t0), [], [], {})
  }

  predicate NewId(m: Machine, id: string) {
    id != "" && id !in m.drawn
  }

  /** Handlers start after the checks that precede their first jti command; drawn jtis are new. */
  predicate Enabled(m: Machine, a: Action) {
    match a
    case Spawn(Binding(jti, key)) => NewId(m, jti) && key != ""
    case Spawn(LookingUp(t)) => Accepted(t, m.db.now) && t.kind == Refresh && t.jti != ""
    case Spawn(CloseLookingUp(t)) => Accepted(t, m.db.now) && t.jti != ""
    case Spawn(_) => false
    case Advance(i, draw) => i < |m.tasks| && !m.tasks[i].Finished? && (m.tasks[i].Extending? ==> NewId(m, draw))
    case Abort(i) => i < |m.tasks|
    case Foreign(db) => db.now == m.db.now && db.jtis == m.db.jtis
    case Tick(_) => true
  }

  function Issue(m: Machine, i: nat, next: Task, command: Command, jtis: Table<string>): Machine
    requires i < |m.tasks|
  {
    m.(db := m.db.(jtis := jtis), tasks := m.tasks[i := next], log := m.log + [command])
  }

  /** SETEX for handler i, which is then done. */
  function Write(c: Config, m: Machine, i: nat, jti: string, key: string): Machine
    requires i < |m.tasks|
  {
    Issue(m, i, Finished, Wrote(i, m.db.now, jti, key), SetEx(m.db.jtis, jti, key, m.db.now + c.ttl))
  }

  /** GET for handler i. */
  function Look(m: Machine, i: nat, jti: string, next: Task): Machine
    requires i < |m.tasks|
  {
    Issue(m, i, next, Looked(i, m.db.now, jti, KeyOfJti(m.db, jti)), m.db.jtis)
  }

  /** DEL for handler i. */
  function Drop(m: Machine, i: nat, spent: string, next: Task): Machine
    requires i < |m.tasks|
  {
    Issue(m, i, next, Deleted(i, m.db.now, spent, spent in m.db.jtis), Del(m.db.jtis, spent))
  }

  /** The next step of handler i. */
  function Proceed(c: Config, m: Machine, i: nat, draw: string): Machine
    requires i < |m.tasks|
  {
    match m.tasks[i]
    case Binding(jti, key) => Write(c, m, i, jti, key)
    case LookingUp(t) =>
      var key := KeyOfJti(m.db, t.jti);
      Look(m, i, t.jti, if key.Some? then Extending(t, key.value) else Finished)
    case Extending(t, key) => m.(tasks := m.tasks[i := Dropping(t.jti, draw, key)], drawn := m.drawn + {draw})
    case Dropping(spent, jti, key) => Drop(m, i, spent, Rebinding(jti, key))
    case Rebinding(jti, key) => Write(c, m, i, jti, key)
    case CloseLookingUp(t) => Look(m, i, t.jti, if KeyOfJti(m.db, t.jti).Some? then Ending(t) else Finished)
    case Ending(t) => m.(tasks := m.tasks[i := if Accepted(t, m.db.now) then CloseDropping(t.jti) else Finished])
    case CloseDropping(spent) => Drop(m, i, spent, Finished)
    case Finished => m
  }

  function Act(c: Config, m: Machine, a: Action): Machine
    requires Enabled(m, a)
  {
    match a
    case Spawn(t) => m.(tasks := m.tasks + [t], drawn := if t.Binding? then m.drawn + {t.jti} else m.drawn)
    case Advance(i, draw) => Proceed(c, m, i, draw)
    case Abort(i) => m.(tasks := m.tasks[i := Finished])
    case Foreign(db) => m.(db := db)
    case Tick(d) => m.(db := Elapse(m.db, d))
  }

  predicate Follows(c: Config, m: Machine, a: Action, m': Machine) {
    Enabled(m, a) && m' == Act(c, m, a)
  }

  /** The machines an interleaving passes through. */
  ghost predicate Trail(c: Config, ms: seq<Machine>, acts: seq<Action>) {
    && 0 < c.ttl && |ms| == |acts| + 1 && ms[0] == Boot(ms[0].db.now)
    && forall i {:trigger Follows(c, ms[i], acts[i], ms[i + 1])} ::
         0 <= i < |acts| ==> Follows(c, ms[i], acts[i], ms[i + 1])
  }

  // ---------- the invariant ----------

  predicate Written(log: seq<Command>, j: string) {
    exists i :: 0 <= i < |log| && log[i].Wrote? && log[i].jti == j
  }

  predicate Erased(log: seq<Command>, j: string) {
    exists i :: 0 <= i < |log| && log[i].Deleted? && log[i].jti == j
  }

  /** The jti a handler will write. */
  function Pending(t: Task): Option<string> {
    match t
    case Binding(jti, _) => Some(jti)
    case Dropping(_, jti, _) => Some(jti)
    case Rebinding(jti, _) => Some(jti)
    case _ => None
  }

  /** The jti a handler looked up and may delete. */
  function Held(t: Task): Option<string> {
    match t
    case Extending(token, _) => Some(token.jti)
    case Dropping(spent, _, _) => Some(spent)
    case Ending(token) => Some(token.jti)
    case CloseDropping(spent) => Some(spent)
    case _ => None
  }

  function BoundKey(t: Task): string {
    match t
    case Binding(_, key) => key
    case Extending(_, key) => key
    case Dropping(_, _, key) => key
    case Rebinding(_, key) => key
    case _ => "-"
  }

  predicate GoodTask(m: Machine, t: Task) {
    && (Pending(t).Some? ==> Pending(t).value in m.drawn && !Written(m.log, Pending(t).value))
    && (Held(t).Some? ==> Written(m.log, Held(t).value))
    && BoundKey(t) != ""
  }

  /** The write of j that no delete has undone. */
  function LastWrite(log: seq<Command>, j: string): (w: Option<Command>)
    ensures w.Some? ==> w.value.Wrote? && w.value.jti == j && w.value in log
  {
    if log == [] then None else
    var e, before := log[|log| - 1], log[..|log| - 1];
    if e.jti != j || e.Looked? then LastWrite(before, j) else if e.Wrote? then Some(e) else None
  }

  /** The binding of j that the log leaves at a given time. */
  function Bound(c: Config, log: seq<Command>, j: string, now: int): Option<Entry<string>> {
    var w := LastWrite(log, j);
    if w.Some? && now < w.value.at + c.ttl then Some(Entry(w.value.key, Some(w.value.at + c.ttl))) else None
  }

  function KeyOf(e: Option<Entry<string>>): Option<string> {
    if e.Some? then Some(e.value.value) else None
  }

  /** What the log up to here makes of the next command. */
  predicate GoodCommand(c: Config, before: seq<Command>, e: Command) {
    match e
    case Wrote(_, _, j, key) => !Written(before, j) && key != ""
    case Deleted(_, _, j, removed) => Written(before, j) && (removed ==> !Erased(before, j))
    case Looked(_, at, j, found) => found == KeyOf(Bound(c, before, j, at))
  }

  predicate GoodLog(c: Config, log: seq<Command>) {
    forall i {:trigger GoodCommand(c, log[..i], log[i])} :: 0 <= i < |log| ==> GoodCommand(c, log[..i], log[i])
  }

  /** The bindings in Redis are those the log leaves. */
  ghost predicate Tabled(c: Config, log: seq<Command>, jtis: Table<string>, now: int) {
    forall j :: Get(jtis, j) == Bound(c, log, j, now)
  }

  predicate GoodTasks(m: Machine) {
    && (forall i {:trigger GoodTask(m, m.tasks[i])} :: 0 <= i < |m.tasks| ==> GoodTask(m, m.tasks[i]))
    && (forall i, j ::
          0 <= i < j < |m.tasks| && Pending(m.tasks[i]).Some? ==> Pending(m.tasks[i]) != Pending(m.tasks[j]))
  }

  /** Commands come from handlers and write only jtis that were drawn. */
  predicate Accounted(m: Machine) {
    forall i :: 0 <= i < |m.log| ==> m.log[i].who < |m.tasks| && (m.log[i].Wrote? ==> m.log[i].jti in m.drawn)
  }

  ghost predicate Good(c: Config, m: Machine) {
    GoodTasks(m) && GoodLog(c, m.log) && Tabled(c, m.log, m.db.jtis, m.db.now) && Accounted(m)
  }

  lemma LogStep(log: seq<Command>, e: Command, j: string)
    ensures Written(log + [e], j) <==> Written(log, j) || (e.Wrote? && e.jti == j)
    ensures Erased(log + [e], j) <==> Erased(log, j) || (e.Deleted? && e.jti == j)
    ensures LastWrite(log + [e], j)
            == if e.jti != j || e.Looked? then LastWrite(log, j) else if e.Wrote? then Some(e) else None
  {
    var all := log + [e];
    assert all[|log|] == e && all[..|log|] == log && forall i :: 0 <= i < |log| ==> all[i] == log[i];
    if Written(log, j) { var i :| 0 <= i < |log| && log[i].Wrote? && log[i].jti == j; assert all[i].Wrote?; }
    if Erased(log, j) { var i :| 0 <= i < |log| && log[i].Deleted? && log[i].jti == j; assert all[i].Deleted?; }
  }

  lemma GoodPrefix(c: Config, log: seq<Command>, n: nat)
    requires GoodLog(c, log) && n <= |log|
    ensures GoodLog(c, log[..n])
  {
    forall i | 0 <= i < n ensures GoodCommand(c, log[..n][..i], log[..n][i]) {
      assert log[..n][..i] == log[..i] && GoodCommand(c, log[..i], log[i]);
    }
  }

  /** Only jtis that were written are ever deleted, and the write that stands is the only one. */
  lemma {:induction false} StandingWrite(c: Config, log: seq<Command>, j: string)
    requires GoodLog(c, log)
    ensures Erased(log, j) ==> Written(log, j)
    ensures LastWrite(log, j).Some? <==> Written(log, j) && !Erased(log, j)
    ensures LastWrite(log, j).Some? ==>
      forall i :: 0 <= i < |log| && log[i].Wrote? && log[i].jti == j ==> Some(log[i]) == LastWrite(log, j)
  {
    if log != [] {
      var n := |log| - 1;
      assert log == log[..n] + [log[n]];
      GoodPrefix(c, log, n);
      StandingWrite(c, log[..n], j);
      LogStep(log[..n], log[n], j);
      assert GoodCommand(c, log[..n], log[n]);
      assert forall i :: 0 <= i < n ==> log[i] == log[..n][i];
    }
  }

  // ---------- every step keeps it ----------

  lemma GoodStep(c: Config, log: seq<Command>, e: Command)
    requires GoodLog(c, log) && GoodCommand(c, log, e)
    ensures GoodLog(c, log + [e])
  {
    var all := log + [e];
    forall i | 0 <= i < |all| ensures GoodCommand(c, all[..i], all[i]) {
      if i < |log| {
        assert all[..i] == log[..i] && GoodCommand(c, log[..i], log[i]);
      } else {
        assert all[..i] == log;
      }
    }
  }

  /** Where a step may leave the handler it advances. */
  predicate NextTask(log: seq<Command>, t: Task, next: Task, e: Command) {
    && (Pending(next).Some? ==> Pending(next) == Pending(t) && !e.Wrote?)
    && (e.Wrote? ==> Pending(t) == Some(e.jti))
    && (Held(next).Some? ==> Written(log + [e], Held(next).value))
    && BoundKey(next) != ""
  }

  lemma TasksAfter(m: Machine, i: nat, next: Task, e: Command, jtis: Table<string>)
    requires GoodTasks(m) && i < |m.tasks| && NextTask(m.log, m.tasks[i], next, e)
    ensures GoodTasks(Issue(m, i, next, e, jtis))
  {
    var m' := Issue(m, i, next, e, jtis);
    assert GoodTask(m, m.tasks[i]);
    forall x | 0 <= x < |m'.tasks| ensures GoodTask(m', m'.tasks[x]) {
      assert GoodTask(m, m.tasks[x]);
      var p, h := Pending(m'.tasks[x]), Held(m'.tasks[x]);
      if p.Some? { LogStep(m.log, e, p.value); }
      if h.Some? { LogStep(m.log, e, h.value); }
    }
  }

  lemma IssueGood(c: Config, m: Machine, i: nat, next: Task, e: Command, jtis: Table<string>)
    requires Good(c, m) && i < |m.tasks| && e.who == i && NextTask(m.log, m.tasks[i], next, e)
    requires GoodCommand(c, m.log, e) && Tabled(c, m.log + [e], jtis, m.db.now)
    ensures Good(c, Issue(m, i, next, e, jtis))
  {
    assert GoodTask(m, m.tasks[i]);
    TasksAfter(m, i, next, e, jtis);
    GoodStep(c, m.log, e);
  }

  lemma WriteGood(c: Config, m: Machine, i: nat, jti: string, key: string)
    requires 0 < c.ttl && Good(c, m) && i < |m.tasks|
    requires Pending(m.tasks[i]) == Some(jti) && BoundKey(m.tasks[i]) == key
    ensures Good(c, Write(c, m, i, jti, key))
  {
    var e := Wrote(i, m.db.now, jti, key);
    assert GoodTask(m, m.tasks[i]);
    var jtis := SetEx(m.db.jtis, jti, key, m.db.now + c.ttl);
    forall j ensures Get(jtis, j) == Bound(c, m.log + [e], j, m.db.now) {
      LogStep(m.log, e, j);
      assert Get(m.db.jtis, j) == Bound(c, m.log, j, m.db.now);
    }
    IssueGood(c, m, i, Finished, e, jtis);
  }

  lemma TableResolves(c: Config, m: Machine, j: string)
    requires Good(c, m)
    ensures KeyOfJti(m.db, j) == KeyOf(Bound(c, m.log, j, m.db.now))
    ensures j in m.db.jtis <==> KeyOfJti(m.db, j).Some?
    ensures j in m.db.jtis ==> Written(m.log, j) && !Erased(m.log, j)
  {
    assert Get(m.db.jtis, j) == Bound(c, m.log, j, m.db.now);
    StandingWrite(c, m.log, j);
    var w := LastWrite(m.log, j);
    if w.Some? {
      var i :| 0 <= i < |m.log| && m.log[i] == w.value;
      assert GoodCommand(c, m.log[..i], m.log[i]);
    }
  }

  lemma LookGood(c: Config, m: Machine, i: nat, j: string, next: Task)
    requires Good(c, m) && i < |m.tasks| && Pending(next).None? && BoundKey(next) != ""
    requires Held(next) == if KeyOfJti(m.db, j).Some? then Some(j) else None
    ensures Good(c, Look(m, i, j, next))
  {
    var e := Looked(i, m.db.now, j, KeyOfJti(m.db, j));
    TableResolves(c, m, j);
    LogStep(m.log, e, j);
    forall x ensures Get(m.db.jtis, x) == Bound(c, m.log + [e], x, m.db.now) {
      LogStep(m.log, e, x);
      assert Get(m.db.jtis, x) == Bound(c, m.log, x, m.db.now);
    }
    IssueGood(c, m, i, next, e, m.db.jtis);
  }

  lemma DropGood(c: Config, m: Machine, i: nat, spent: string, next: Task)
    requires Good(c, m) && i < |m.tasks| && Held(m.tasks[i]) == Some(spent)
    requires Held(next).None? && BoundKey(next) != "" && (Pending(next).Some? ==> Pending(next) == Pending(m.tasks[i]))
    ensures Good(c, Drop(m, i, spent, next))
  {
    var e := Deleted(i, m.db.now, spent, spent in m.db.jtis);
    var jtis := Del(m.db.jtis, spent);
    assert GoodTask(m, m.tasks[i]);
    TableResolves(c, m, spent);
    forall x ensures Get(jtis, x) == Bound(c, m.log + [e], x, m.db.now) {
      LogStep(m.log, e, x);
      assert Get(m.db.jtis, x) == Bound(c, m.log, x, m.db.now);
    }
    IssueGood(c, m, i, next, e, jtis);
  }

  /** A step that executes no jti command. */
  lemma QuietGood(c: Config, m: Machine, m': Machine)
    requires Good(c, m) && m'.log == m.log && m.drawn <= m'.drawn && |m.tasks| <= |m'.tasks|
    requires Tabled(c, m.log, m'.db.jtis, m'.db.now)
    requires forall x :: 0 <= x < |m'.tasks| ==> BoundKey(m'.tasks[x]) != ""
    requires forall x :: 0 <= x < |m'.tasks| && Held(m'.tasks[x]).Some? ==>
      x < |m.tasks| && Held(m'.tasks[x]) == Held(m.tasks[x])
    requires forall x :: 0 <= x < |m'.tasks| && Pending(m'.tasks[x]).Some? ==>
      || (x < |m.tasks| && Pending(m'.tasks[x]) == Pending(m.tasks[x]))
      || (Pending(m'.tasks[x]).value in m'.drawn && Pending(m'.tasks[x]).value !in m.drawn
          && forall y :: 0 <= y < |m'.tasks| && y != x ==> Pending(m'.tasks[x]) != Pending(m'.tasks[y]))
    ensures Good(c, m')
  {
    forall x | 0 <= x < |m'.tasks| ensures GoodTask(m', m'.tasks[x]) {
      if x < |m.tasks| { assert GoodTask(m, m.tasks[x]); }
    }
  }

  lemma ProceedGood(c: Config, m: Machine, i: nat, draw: string)
    requires 0 < c.ttl && Good(c, m) && Enabled(m, Advance(i, draw))
    ensures Good(c, Proceed(c, m, i, draw))
  {
    assert GoodTask(m, m.tasks[i]);
    match m.tasks[i]
    case Binding(jti, key) => WriteGood(c, m, i, jti, key);
    case Rebinding(jti, key) => WriteGood(c, m, i, jti, key);
    case LookingUp(t) =>
      var key := KeyOfJti(m.db, t.jti);
      LookGood(c, m, i, t.jti, if key.Some? then Extending(t, key.value) else Finished);
    case CloseLookingUp(t) => LookGood(c, m, i, t.jti, if KeyOfJti(m.db, t.jti).Some? then Ending(t) else Finished);
    case Dropping(spent, jti, key) => DropGood(c, m, i, spent, Rebinding(jti, key));
    case CloseDropping(spent) => DropGood(c, m, i, spent, Finished);
    case _ => DrawGood(c, m, i, draw);
  }

  lemma TasksKnown(m: Machine)
    requires GoodTasks(m)
    ensures forall x :: 0 <= x < |m.tasks| ==>
      BoundKey(m.tasks[x]) != "" && (Pending(m.tasks[x]).Some? ==> Pending(m.tasks[x]).value in m.drawn)
  {
    forall x | 0 <= x < |m.tasks|
      ensures BoundKey(m.tasks[x]) != "" && (Pending(m.tasks[x]).Some? ==> Pending(m.tasks[x]).value in m.drawn)
    {
      assert GoodTask(m, m.tasks[x]);
    }
  }

  lemma DrawGood(c: Config, m: Machine, i: nat, draw: string)
    requires Good(c, m) && Enabled(m, Advance(i, draw)) && (m.tasks[i].Extending? || m.tasks[i].Ending?)
    ensures Good(c, Proceed(c, m, i, draw))
  {
    TasksKnown(m);
    QuietGood(c, m, Proceed(c, m, i, draw));
  }

  lemma SweptTabled(c: Config, log: seq<Command>, jtis: Table<string>, now: int, d: nat)
    requires Tabled(c, log, jtis, now)
    ensures Tabled(c, log, Sweep(jtis, now + d), now + d)
  {
    var later := now + d;
    forall j ensures Get(Sweep(jtis, later), j) == Bound(c, log, j, later) {
      assert Get(jtis, j) == Bound(c, log, j, now);
    }
  }

  lemma ActGood(c: Config, m: Machine, a: Action)
    requires 0 < c.ttl && Good(c, m) && Enabled(m, a)
    ensures Good(c, Act(c, m, a))
  {
    TasksKnown(m);
    match a
    case Advance(i, draw) => ProceedGood(c, m, i, draw);
    case Tick(d) =>
      SweptTabled(c, m.log, m.db.jtis, m.db.now, d);
      QuietGood(c, m, Act(c, m, a));
    case _ => QuietGood(c, m, Act(c, m, a));
  }

  lemma TrailStep(c: Config, ms: seq<Machine>, acts: seq<Action>, i: nat)
    requires Trail(c, ms, acts) && i < |acts|
    ensures Follows(c, ms[i], acts[i], ms[i + 1])
  {
  }

  lemma {:induction false} TrailGood(c: Config, ms: seq<Machine>, acts: seq<Action>, n: nat)
    requires Trail(c, ms, acts) && n <= |acts|
    ensures Good(c, ms[n])
  {
    if n != 0 {
      TrailGood(c, ms, acts, n - 1);
      TrailStep(c, ms, acts, n - 1);
      ActGood(c, ms[n - 1], acts[n - 1]);
    }
  }
}
