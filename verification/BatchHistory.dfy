// Batch profiles: when the one a session looks up is sure to be there, and when it is not.
module BatchHistory {
  import opened Values
  import opened RedisStore
  import opened Requests
  import opened Handlers
  import opened Ledgers
  import opened LedgerInvariant
  import opened Simulation
  import opened Runs
  import opened Agreement
  import opened Theorems
  import opened FieldHistory

  /** The last update that named a customer for k also stored that customer's batch profile. */
  predicate FetchedLast(c: Config, tr: seq<Event>, k: string) {
    tr != [] &&
    var e := tr[|tr| - 1];
    if NamesCustomer(c, e, k) then IsFetched(e.step.fetched) else FetchedLast(c, tr[..|tr| - 1], k)
  }

  /** The event stores a batch profile under p. */
  predicate StoresBatch(c: Config, e: Event, p: string) {
    e.step.UpdateProfile? && e.response.ProfileSaved? && CustomerIn(c, e.step.profile) == Customer(p)
        && IsFetched(e.step.fetched)
  }

  /** The batch profile last stored under p, by any session. */
  function LastBatch(c: Config, tr: seq<Event>, p: string): Option<Json> {
    if tr == [] then None else
    var e := tr[|tr| - 1];
    if StoresBatch(c, e, p) then e.step.fetched else LastBatch(c, tr[..|tr| - 1], p)
  }

  /** The batch profile of k outlives k, if k's last customer was fetched. */
  predicate BatchCovers(c: Config, l: Ledger, tr: seq<Event>, k: string) {
    && (k !in l.records ==> !FetchedLast(c, tr, k))
    && (Live(c, l, k) && FetchedLast(c, tr, k) ==>
          var r := l.records[k];
          r.cusno.Some? && r.cusno.value in l.batch && r.extendedAt + c.ttl <= l.batch[r.cusno.value].until)
  }

  /** A step that names no customer for k: batch profiles only grow, and an extension of k takes its own along. */
  predicate Gentle(c: Config, l: Ledger, l': Ledger, k: string) {
    && (k in l.records <==> k in l'.records) && l.now <= l'.now
    && (forall p :: p in l.batch ==> p in l'.batch && l.batch[p].until <= l'.batch[p].until)
    && (k in l.records ==>
          var r, r' := l.records[k], l'.records[k];
          && r'.cusno == r.cusno
          && (r'.extendedAt == r.extendedAt
              || (Live(c, l, k) && r'.extendedAt == l.now
                  && (r.cusno.Some? && r.cusno.value in l.batch && l.now < l.batch[r.cusno.value].until ==>
                        l.now + c.ttl <= l'.batch[r.cusno.value].until))))
  }

  lemma FetchedStep(c: Config, tr: seq<Event>, e: Event, k: string)
    ensures FetchedLast(c, tr + [e], k) == if NamesCustomer(c, e, k) then IsFetched(e.step.fetched)
        else FetchedLast(c, tr, k)
    ensures forall p :: LastBatch(c, tr + [e], p) == if StoresBatch(c, e, p) then e.step.fetched
        else LastBatch(c, tr, p)
  {
    assert (tr + [e])[..|tr|] == tr;
  }

  lemma GentleCovers(c: Config, l: Ledger, l': Ledger, tr: seq<Event>, e: Event, k: string)
    requires BatchCovers(c, l, tr, k) && Gentle(c, l, l', k) && !NamesCustomer(c, e, k)
    ensures BatchCovers(c, l', tr + [e], k)
  {
    FetchedStep(c, tr, e, k);
  }

  lemma ExtendGentle(c: Config, l: Ledger, x: string, k: string)
    requires Sound(c, l) && Live(c, l, x)
    ensures Gentle(c, l, Extend(c, l, x), k)
  {
    assert SoundRecord(c, l, x);
    ProlongGrows(c, l.batch, if l.records[x].cusno.Some? then l.records[x].cusno.value else "", l.now);
  }

  lemma RotateGentle(c: Config, l: Ledger, t: Token, newJti: string, k: string)
    requires Sound(c, l)
    ensures Gentle(c, l, NextRotate(c, l, t, newJti).0, k)
  {
    var g := Permit(c, l, t, Some(Refresh));
    if g.Granted? {
      assert SoundRecord(c, l, g.key);
      ExtendGentle(c, l, g.key, k);
    }
  }

  lemma PatchGentle(c: Config, l: Ledger, x: string, q: PatchRequest, k: string)
    requires Sound(c, l)
    ensures Gentle(c, l, NextPatch(c, l, x, q).0, k)
  {
    if Live(c, l, x) && q.state == Some(Talk) { ExtendGentle(c, l, x, k); }
    if Live(c, l, x) && !Rejected(q) {
      AmendGentle(c, l, if q.state == Some(Talk) then Extend(c, l, x) else l, x, q, k);
    }
  }

  lemma AmendGentle(c: Config, l: Ledger, l1: Ledger, x: string, q: PatchRequest, k: string)
    requires Gentle(c, l, l1, k) && x in l1.records && x in l.records
    ensures Gentle(c, l, SetRecord(l1, x, Amend(l1.records[x], q, l.now)), k)
  {
  }

  lemma CreateCovers(c: Config, l: Ledger, tr: seq<Event>, s: Step, k: string)
    requires s.Create? && Fresh(l, s) && BatchCovers(c, l, tr, k)
    ensures var n := NextCreate(c, l, s); BatchCovers(c, n.0, tr + [Event(l.now, s, n.1)], k)
  {
    FetchedStep(c, tr, Event(l.now, s, NextCreate(c, l, s).1), k);
  }

  lemma ProfileCovers(c: Config, l: Ledger, tr: seq<Event>, x: string, profile: map<string, Json>,
      fetched: Option<Json>, k: string)
    requires Sound(c, l) && BatchCovers(c, l, tr, k)
    ensures var n := NextUpdateProfile(c, l, x, profile, fetched);
      BatchCovers(c, n.0, tr + [Event(l.now, UpdateProfile(x, profile, fetched), n.1)], k)
  {
    var (l', resp) := NextUpdateProfile(c, l, x, profile, fetched);
    var e := Event(l.now, UpdateProfile(x, profile, fetched), resp);
    var who := CustomerIn(c, profile);
    StoredGentle(c, l, x, who, Obj(profile), fetched, k);
    if NamesCustomer(c, e, k) {
      FetchedStep(c, tr, e, k);
      assert SoundRecord(c, l, k);
      StoredCovers(c, l, k, who.cusno, Obj(profile), fetched);
    } else {
      GentleCovers(c, l, l', tr, e, k);
    }
  }

  lemma StoredShape(c: Config, l: Ledger, x: string, who: Customer, profile: Json, fetched: Option<Json>)
    requires Live(c, l, x) && !who.Malformed?
    ensures var l' := NextProfile(c, l, x, who, profile, fetched).0;
      && x in l'.records && l'.records == l.records[x := l'.records[x]] && l'.now == l.now
      && l'.records[x].extendedAt == l.records[x].extendedAt
      && (!who.Customer? ==> l'.records[x].cusno == l.records[x].cusno)
      && (l'.batch == l.batch || (who.Customer? && fetched.Some?
          && l'.batch == l.batch[who.cusno := Shelf(fetched.value, l.now + c.ttl)]))
  {
  }

  lemma StoredGentle(c: Config, l: Ledger, x: string, who: Customer, profile: Json, fetched: Option<Json>, k: string)
    requires SoundShelves(c, l.batch, l.now)
    ensures var n := NextProfile(c, l, x, who, profile, fetched);
      !(n.1.ProfileSaved? && x == k && who.Customer?) ==> Gentle(c, l, n.0, k)
  {
    if Live(c, l, x) && !who.Malformed? { StoredShape(c, l, x, who, profile, fetched); }
  }

  lemma StoredCovers(c: Config, l: Ledger, k: string, n: string, profile: Json, fetched: Option<Json>)
    requires Live(c, l, k) && SoundRecord(c, l, k)
    ensures var l' := NextProfile(c, l, k, Customer(n), profile, fetched).0;
      && k in l'.records && l'.records[k].cusno == Some(n) && l'.records[k].extendedAt <= l.now
      && (IsFetched(fetched) ==> Get(l'.batch, n) == Some(Shelf(fetched.value, l.now + c.ttl)))
  {
  }

  lemma CloseGentle(c: Config, l: Ledger, s: Step, k: string)
    requires s.CloseByKey? || s.CloseByToken? || s.SaveResult?
    ensures Gentle(c, l, Next(c, l, s).0, k)
  {
    if s.SaveResult? { TurnGentle(c, l, s.key, TurnOf(s.result, l.now), k); }
  }

  lemma TurnGentle(c: Config, l: Ledger, x: string, turn: Json, k: string)
    ensures Gentle(c, l, NextTurn(c, l, x, turn).0, k)
  {
  }

  lemma NextCovers(c: Config, l: Ledger, tr: seq<Event>, s: Step, k: string)
    requires Sound(c, l) && Fresh(l, s) && BatchCovers(c, l, tr, k)
    ensures BatchCovers(c, Next(c, l, s).0, tr + [Event(l.now, s, Next(c, l, s).1)], k)
  {
    var (l', resp) := Next(c, l, s);
    var e := Event(l.now, s, resp);
    match s
    case Create(_, _, _, _, _) => CreateCovers(c, l, tr, s, k);
    case UpdateProfile(x, profile, fetched) => ProfileCovers(c, l, tr, x, profile, fetched, k);
    case Rotate(t, newJti) => RotateGentle(c, l, t, newJti, k); GentleCovers(c, l, l', tr, e, k);
    case Patch(x, q) => PatchGentle(c, l, x, q, k); GentleCovers(c, l, l', tr, e, k);
    case CloseByKey(_, _, _) => CloseGentle(c, l, s, k); GentleCovers(c, l, l', tr, e, k);
    case CloseByToken(_, _) => CloseGentle(c, l, s, k); GentleCovers(c, l, l', tr, e, k);
    case SaveResult(_, _) => CloseGentle(c, l, s, k); GentleCovers(c, l, l', tr, e, k);
    case _ => GentleCovers(c, l, l', tr, e, k);
  }

  // ---------- the value ----------

  function BatchValue(l: Ledger, p: string): Option<Json> {
    if p in l.batch then Some(l.batch[p].value) else None
  }

  lemma ExtendValue(c: Config, l: Ledger, k: string, p: string)
    requires k in l.records
    ensures BatchValue(Extend(c, l, k), p) == BatchValue(l, p)
  {
  }

  lemma PatchValue(c: Config, l: Ledger, k: string, q: PatchRequest, p: string)
    ensures BatchValue(NextPatch(c, l, k, q).0, p) == BatchValue(l, p)
  {
    if Live(c, l, k) { ExtendValue(c, l, k, p); }
  }

  lemma RotateValue(c: Config, l: Ledger, t: Token, newJti: string, p: string)
    ensures BatchValue(NextRotate(c, l, t, newJti).0, p) == BatchValue(l, p)
  {
    var g := Permit(c, l, t, Some(Refresh));
    if g.Granted? { ExtendValue(c, l, g.key, p); }
  }

  lemma StoredValue(c: Config, l: Ledger, x: string, who: Customer, profile: Json, fetched: Option<Json>, p: string)
    ensures var n := NextProfile(c, l, x, who, profile, fetched);
      BatchValue(n.0, p)
      == if n.1.ProfileSaved? && who == Customer(p) && IsFetched(fetched) then fetched else BatchValue(l, p)
  {
  }

  lemma CloseValue(c: Config, l: Ledger, s: Step, p: string)
    requires s.CloseByKey? || s.CloseByToken? || s.SaveResult?
    ensures BatchValue(Next(c, l, s).0, p) == BatchValue(l, p)
  {
  }

  lemma NextValue(c: Config, l: Ledger, s: Step, p: string)
    ensures var n := Next(c, l, s);
      BatchValue(n.0, p) == if StoresBatch(c, Event(l.now, s, n.1), p) then s.fetched else BatchValue(l, p)
  {
    match s
    case Rotate(t, newJti) => RotateValue(c, l, t, newJti, p);
    case Patch(x, q) => PatchValue(c, l, x, q, p);
    case UpdateProfile(x, profile, fetched) => StoredValue(c, l, x, CustomerIn(c, profile), Obj(profile), fetched, p);
    case CloseByKey(_, _, _) => CloseValue(c, l, s, p);
    case CloseByToken(_, _) => CloseValue(c, l, s, p);
    case SaveResult(_, _) => CloseValue(c, l, s, p);
    case _ =>
  }

  // ---------- any run ----------

  lemma {:induction false} RunCovers(c: Config, t0: int, steps: seq<Step>, k: string, p: string)
    requires 0 < c.ttl && Admissible(steps)
    ensures var (l, tr) := LedgerRun(c, t0, steps); BatchCovers(c, l, tr, k) && BatchValue(l, p) == LastBatch(c, tr, p)
  {
    if steps != [] {
      var prev, s := steps[..|steps| - 1], steps[|steps| - 1];
      assert steps == prev + [s];
      AdmissiblePrefix(steps, |steps| - 1);
      RunCovers(c, t0, prev, k, p);
      RunRefines(c, t0, prev);
      var (l, tr) := LedgerRun(c, t0, prev);
      DrawnFresh(l, prev, s);
      NextCovers(c, l, tr, s, k);
      NextValue(c, l, s, p);
      FetchedStep(c, tr, Event(l.now, s, Next(c, l, s).1), k);
    }
  }

  /** If the last update naming a customer for a live session fetched that customer's batch profile,
      it is there, as last stored by any session, and outlives the session. */
  lemma BatchKept(c: Config, db: Store, tr: seq<Event>, k: string)
    requires Reached(c, db, tr) && k in db.sessions && FetchedLast(c, tr, k)
    ensures LastCustomer(c, tr, k).Some?
    ensures var p := LastCustomer(c, tr, k).value;
      && p in db.batch && NoLater(db.sessions[k].deadline, db.batch[p].deadline)
      && LastBatch(c, tr, p).Some? && ProfileAt(db.batch, p) == LastBatch(c, tr, p)
  {
    var l := CoveredBehind(c, db, tr, k);
    RecordBehind(c, l, db, tr, k);
    CoveredRead(c, l, db, tr, k);
  }

  /** The ledger behind a run, with what it knows of batch profiles. */
  lemma CoveredBehind(c: Config, db: Store, tr: seq<Event>, k: string) returns (l: Ledger)
    requires Reached(c, db, tr)
    ensures Behind(c, l, db, tr) && BatchCovers(c, l, tr, k) && forall p :: BatchValue(l, p) == LastBatch(c, tr, p)
  {
    var t0, steps :| Admissible(steps) && Run(c, t0, steps) == (db, tr);
    l := LedgerRun(c, t0, steps).0;
    RunRefines(c, t0, steps);
    RunAgrees(c, t0, steps);
    RunCovers(c, t0, steps, k, "");
    forall p ensures BatchValue(l, p) == LastBatch(c, tr, p) { RunCovers(c, t0, steps, k, p); }
  }

  lemma CoveredRead(c: Config, l: Ledger, db: Store, tr: seq<Event>, k: string)
    requires db.now == l.now && MirrorsShelves(l.batch, l.now, db.batch) && Get(db.sessions, k) == SessionEntry(c, l, k)
    requires k in db.sessions && BatchCovers(c, l, tr, k) && FetchedLast(c, tr, k)
    requires forall p :: BatchValue(l, p) == LastBatch(c, tr, p)
    ensures k in l.records && l.records[k].cusno.Some?
    ensures var p := l.records[k].cusno.value;
      && p in db.batch && NoLater(db.sessions[k].deadline, db.batch[p].deadline)
      && LastBatch(c, tr, p).Some? && ProfileAt(db.batch, p) == LastBatch(c, tr, p)
  {
    var p := l.records[k].cusno.value;
    BatchRead(c, l, db, p);
    assert BatchValue(l, p) == LastBatch(c, tr, p);
  }

  lemma BatchRead(c: Config, l: Ledger, db: Store, p: string)
    requires MirrorsShelves(l.batch, l.now, db.batch)
    ensures Get(db.batch, p) == ShelfEntry(l.batch, l.now, p) && ProfileAt(db.batch, p) == Shelved(l.batch, p, l.now)
  {
    assert Get(db.batch, p) == ShelfEntry(l.batch, l.now, p);
    ShelfRead(l.batch, p, l.now, db.batch);
  }
}
