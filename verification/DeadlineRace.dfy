// update_session asks whether the session exists and then writes it.  Between the two commands the
// service goes on, and the session may expire.
module DeadlineRace {
  import opened Values
  import opened RedisStore
  import opened Requests
  import opened Runs
  import opened Theorems
  import opened Histories
  import opened Continuations

  /** The HSET of update_session, when EXISTS has answered yes in an earlier store. */
  function LateUpdate(db: Store, k: string, fields: Hash): Store {
    db.(sessions := HSet(db.sessions, k, fields))
  }

  /** A session once renewed has been renewed ever since. */
  lemma StillRenewed(c: Config, db: Store, tr: seq<Event>, db': Store, tr': seq<Event>, k: string)
    requires Reached(c, db, tr) && Reached(c, db', tr') && tr <= tr' && LastRenewal(tr, k).Some?
    ensures LastRenewal(tr', k).Some?
  {
    var dbs := HistoryOf(c, db', tr');
    assert tr'[..|tr|] == tr && tr'[..|tr'|] == tr';
    RenewalGrows(c, dbs, tr', |tr|, |tr'|, k);
  }

  /** The late HSET leaves every session with a deadline exactly when the session has been renewed less than
      one TTL before it.  Otherwise it recreates a session that never expires. */
  lemma RaceExactly(c: Config, db: Store, tr: seq<Event>, db': Store, tr': seq<Event>, k: string, fields: Hash)
    requires Reached(c, db, tr) && k in db.sessions && Reached(c, db', tr') && tr <= tr'
    ensures LastRenewal(tr', k).Some?
    ensures var late := LateUpdate(db', k, fields);
      && (Bounded(late.sessions, late.now, c.ttl) <==> db'.now < LastRenewal(tr', k).value + c.ttl)
      && (!Bounded(late.sessions, late.now, c.ttl) ==>
            late.sessions[k].deadline.None? && forall d: nat :: k in Elapse(late, d).sessions)
  {
    LiveExactly(c, db, tr, k);
    StillRenewed(c, db, tr, db', tr', k);
    LiveExactly(c, db', tr', k);
    EveryKeyExpires(c, db', tr');
    var late := LateUpdate(db', k, fields);
    if k in db'.sessions {
      assert late.sessions[k].deadline == db'.sessions[k].deadline;
    } else {
      assert late.sessions[k] == Entry(fields, None);
    }
  }

  /** It happens: a session asked about one unit before its deadline and written at its deadline. */
  lemma RaceHappens(c: Config, t0: int, s: Step, fields: Hash)
      returns (db: Store, tr: seq<Event>, db': Store, tr': seq<Event>)
    requires 0 < c.ttl && s.Create? && s.key != "" && s.jti != ""
    ensures Reached(c, db, tr) && s.key in db.sessions && Reached(c, db', tr') && tr <= tr'
    ensures !Bounded(LateUpdate(db', s.key, fields).sessions, db'.now, c.ttl)
  {
    StartReached(c, t0);
    var db1, tr1 := CreateFollows(c, EmptyStore(t0), [], s);
    tr := TickFollows(c, db1, tr1, c.ttl - 1);
    db := Elapse(db1, c.ttl - 1);
    tr' := TickFollows(c, db, tr, 1);
    db' := Elapse(db, 1);
    assert LateUpdate(db', s.key, fields).sessions[s.key] == Entry(fields, None);
  }
}
