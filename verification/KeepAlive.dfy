// A client that keeps refreshing in time never loses its session, whatever else the service does.
module KeepAlive {
  import opened Values
  import opened RedisStore
  import opened Requests
  import opened Handlers
  import opened Runs
  import opened Theorems
  import opened Contents
  import opened Histories

  /** How long a token issue lasts: the refresh token's lifetime, cut to the binding's TTL. */
  function Window(c: Config): int {
    if c.ttl < c.refreshLife then c.ttl else c.refreshLife
  }

  /** The session's creation, or a try of its newest refresh token, whatever came of it. */
  predicate Attempt(tr: seq<Event>, i: nat, k: string)
    requires i < |tr|
  {
    || (tr[i].response.Created? && tr[i].response.key == k)
    || (tr[i].step.Rotate? && LastIssue(tr[..i], k).Some?
        && tr[i].step.token == LastIssue(tr[..i], k).value.response.refresh)
  }

  /** There was an attempt less than one window before `now`. */
  ghost predicate Recent(c: Config, tr: seq<Event>, k: string, m: nat, n: nat, now: int)
    requires n <= |tr|
  {
    exists p :: m <= p < n && Attempt(tr, p, k) && now < tr[p].at + Window(c)
  }

  /** Created by event m, k is refreshed with its newest refresh token in time for every attempt, and
      is not closed by its newest jti. */
  ghost predicate Attentive(c: Config, tr: seq<Event>, k: string, m: nat) {
    && m < |tr| && tr[m].response.Created? && tr[m].response.key == k
    && (forall i :: m < i < |tr| && Attempt(tr, i, k) ==> Recent(c, tr, k, m, i, tr[i].at))
    && (forall i :: m < i < |tr| && tr[i].step.CloseByToken? && LastIssue(tr[..i], k).Some? ==>
          tr[i].step.token.jti != LastIssue(tr[..i], k).value.response.jti)
  }

  lemma {:induction false} TimeOrder(c: Config, dbs: seq<Store>, tr: seq<Event>, i: nat, j: nat)
    requires History(c, dbs, tr) && i <= j <= |tr|
    ensures dbs[i].now <= dbs[j].now
    decreases j
  {
    if i < j {
      TimeOrder(c, dbs, tr, i, j - 1);
      Moment(c, dbs, tr, j - 1);
    }
  }

  lemma {:induction false} NotClosed(c: Config, tr: seq<Event>, k: string, m: nat, n: nat)
    requires Attentive(c, tr, k, m) && m < n <= |tr|
    ensures !ClosedByToken(tr[..n], k)
    decreases n
  {
    assert tr[..n][..n - 1] == tr[..n - 1];
    if m + 1 < n { NotClosed(c, tr, k, m, n - 1); }
  }

  /** The newest tokens are no older than any issue. */
  lemma {:induction false} IssuedSince(c: Config, dbs: seq<Store>, tr: seq<Event>, k: string, p: nat, n: nat)
    requires History(c, dbs, tr) && p < n <= |tr| && Issues(tr[p], k)
    ensures LastIssue(tr[..n], k).Some? && tr[p].at <= LastIssue(tr[..n], k).value.at
    decreases n
  {
    assert tr[..n][..n - 1] == tr[..n - 1];
    Moment(c, dbs, tr, p);
    Moment(c, dbs, tr, n - 1);
    TimeOrder(c, dbs, tr, p, n - 1);
    if p < n - 1 && !Issues(tr[n - 1], k) { IssuedSince(c, dbs, tr, k, p, n - 1); }
  }

  lemma RotateResponse(c: Config, db: Store, e: Event, db': Store)
    requires Follows(c, db, e, db') && e.step.Rotate?
    ensures e.response == HandleRotate(c, db, e.step.token, e.step.newJti).1
  {
  }

  /** Keep-alive: every attempt succeeds, over runs of any length. */
  lemma {:induction false} EveryAttemptSucceeds(c: Config, dbs: seq<Store>, tr: seq<Event>, k: string, m: nat, i: nat)
    requires History(c, dbs, tr) && Attentive(c, tr, k, m) && m <= i < |tr| && Attempt(tr, i, k)
    ensures Issues(tr[i], k)
    decreases i
  {
    if !(tr[i].response.Created? && tr[i].response.key == k) {
      assert Recent(c, tr, k, m, i, tr[i].at);
      var p :| m <= p < i && Attempt(tr, p, k) && tr[i].at < tr[p].at + Window(c);
      EveryAttemptSucceeds(c, dbs, tr, k, m, p);
      IssuedSince(c, dbs, tr, k, p, i);
      NotClosed(c, tr, k, m, i);
      Moment(c, dbs, tr, i);
      RefreshExactly(c, dbs[i], tr[..i], k, tr[i].step.newJti);
      assert Follows(c, dbs[i], tr[i], dbs[i + 1]);
      RotateResponse(c, dbs[i], tr[i], dbs[i + 1]);
    }
  }

  lemma {:induction false} TurnsGrow(tr: seq<Event>, k: string, n: nat)
    requires n <= |tr|
    ensures TurnsIn(tr[..n], k) <= TurnsIn(tr, k)
    decreases |tr|
  {
    if n < |tr| {
      assert tr[..|tr| - 1][..n] == tr[..n];
      TurnsGrow(tr[..|tr| - 1], k, n);
    } else {
      assert tr[..n] == tr;
    }
  }

  /** While attempts are recent the next one will succeed, the session lives, every turn ever saved
      is there in order, and so is its realtime profile if it ever saved one. */
  lemma NothingIsLost(c: Config, dbs: seq<Store>, tr: seq<Event>, k: string, m: nat, newJti: string)
    requires History(c, dbs, tr) && Attentive(c, tr, k, m) && Recent(c, tr, k, m, |tr|, dbs[|tr|].now)
    ensures var db := dbs[|tr|];
      && LastIssue(tr, k).Some?
      && HandleRotate(c, db, LastIssue(tr, k).value.response.refresh, newJti).1.Rotated?
      && k in db.sessions
      && StoredTurns(db, k) == Some(TurnsIn(tr, k))
      && (forall n :: 0 <= n <= |tr| ==> TurnsIn(tr[..n], k) <= TurnsIn(tr, k))
      && (EverSaved(tr, k) ==> var p := ProfileKeyOf(c, tr, k);
            LastProfile(c, tr, p).Some? && ProfileAt(db.realtime, p) == LastProfile(c, tr, p))
  {
    var db, n := dbs[|tr|], |tr|;
    assert tr[..n] == tr;
    var p :| m <= p < n && Attempt(tr, p, k) && db.now < tr[p].at + Window(c);
    EveryAttemptSucceeds(c, dbs, tr, k, m, p);
    IssuedSince(c, dbs, tr, k, p, n);
    NotClosed(c, tr, k, m, n);
    RefreshExactly(c, db, tr, k, newJti);
    var r := LastIssue(tr, k).value.response;
    SessionBehindIssue(c, db, tr, k, r.jti);
    TurnsKept(c, db, tr, k);
    if EverSaved(tr, k) { ProfileKept(c, db, tr, k); }
    forall n | 0 <= n <= |tr| ensures TurnsIn(tr[..n], k) <= TurnsIn(tr, k) { TurnsGrow(tr, k, n); }
  }

  lemma SessionBehindIssue(c: Config, db: Store, tr: seq<Event>, k: string, j: string)
    requires Reached(c, db, tr) && LastIssue(tr, k).Some? && LastIssue(tr, k).value.response.jti == j
    requires !ClosedByToken(tr, k) && db.now < LastIssue(tr, k).value.at + c.ttl
    ensures k in db.sessions
  {
    ResolvesExactly(c, db, tr, j, k);
    TokensWithinSessions(c, db, tr, j);
  }
}
