// The fields of a session hash that are stored as given: each holds what was last written to it.
module FieldHistory {
  import opened Values
  import opened RedisStore
  import opened Requests
  import opened Handlers
  import opened Ledgers
  import opened LedgerInvariant
  import opened Simulation
  import opened Runs
  import opened Theorems

  /** The event closed session k, by key or by token. */
  predicate Closes(e: Event, k: string) {
    (e.step.CloseByKey? || e.step.CloseByToken?) && e.response.Closed? && e.response.archive == Archive(k)
  }

  /** What a close writes into a field. */
  function CloseWrites(e: Event, f: HashField): Option<Text> {
    match e.step
    case CloseByKey(_, reason, summary) => CloseField(reason, summary, e.at, f)
    case CloseByToken(_, reason) => CloseField(reason, None, e.at, f)
    case _ => None
  }

  /** The event names a customer for session k. */
  predicate NamesCustomer(c: Config, e: Event, k: string) {
    SavesFor(e, k) && CustomerIn(c, e.step.profile).Customer?
  }

  /** What an event writes into field f of session k. */
  function Writes(c: Config, e: Event, k: string, f: HashField): Option<Text> {
    if e.step.Create? && e.step.key == k then (if IsDecoded(f) then None else Get(NewSession(c, e.step, e.at), f))
    else if !(Accepts(e, k) || Closes(e, k) || NamesCustomer(c, e, k)) then None
    else if f == UpdatedAtField then Some(Iso(e.at))
    else if Accepts(e, k) then PlainUpdate(e.step.request, e.at, f)
    else CloseWrites(e, f)
  }

  function LastWritten(c: Config, tr: seq<Event>, k: string, f: HashField): Option<Text> {
    if tr == [] then None else
    var e := tr[|tr| - 1];
    if Writes(c, e, k, f).Some? then Writes(c, e, k, f) else LastWritten(c, tr[..|tr| - 1], k, f)
  }

  /** A field after a write, or as it was. */
  function After(w: Option<Text>, before: Option<Text>): Option<Text> {
    if w.Some? then w else before
  }

  function PlainAt(l: Ledger, k: string, f: HashField): Option<Text> {
    if k in l.records then Get(l.records[k].plain, f) else None
  }

  lemma ArchiveInjective(a: string, b: string)
    requires Archive(a) == Archive(b)
    ensures a == b
  {
    assert Archive(a)[5..] == a && Archive(b)[5..] == b;
  }

  lemma TouchWrites(r: Record, fields: Hash, now: int, f: HashField)
    ensures Get(Touch(r, fields, now).plain, f)
            == After(if f == UpdatedAtField then Some(Iso(now)) else Get(fields, f), Get(r.plain, f))
  {
  }

  lemma CreateWrites(c: Config, l: Ledger, s: Step, k: string, f: HashField)
    requires s.Create? && Fresh(l, s)
    ensures var n := NextCreate(c, l, s);
      PlainAt(n.0, k, f) == After(Writes(c, Event(l.now, s, n.1), k, f), PlainAt(l, k, f))
  {
    NewPlain(c, s, l.now, f);
  }

  lemma NewPlain(c: Config, s: Step, now: int, f: HashField)
    requires s.Create?
    ensures Get(NewRecord(c, s, now).plain, f) == if IsDecoded(f) then None else Get(NewSession(c, s, now), f)
  {
  }

  lemma SetPlain(l: Ledger, k: string, r: Record, x: string, f: HashField)
    ensures PlainAt(SetRecord(l, k, r), x, f) == if x == k then Get(r.plain, f) else PlainAt(l, x, f)
  {
  }

  lemma ExtendPlain(c: Config, l: Ledger, k: string, x: string, f: HashField)
    requires k in l.records
    ensures PlainAt(Extend(c, l, k), x, f) == PlainAt(l, x, f)
    ensures Extend(c, l, k).records[k].plain == l.records[k].plain
  {
  }

  lemma AmendWrites(r: Record, q: PatchRequest, now: int, f: HashField)
    ensures Get(Amend(r, q, now).plain, f)
            == After(if f == UpdatedAtField then Some(Iso(now)) else PlainUpdate(q, now, f), Get(r.plain, f))
  {
    assert Get(PlainUpdates(q, now), f) == PlainUpdate(q, now, f);
    TouchWrites(r, PlainUpdates(q, now), now, f);
  }

  lemma PatchWrites(c: Config, l: Ledger, k: string, q: PatchRequest, x: string, f: HashField)
    ensures var n := NextPatch(c, l, k, q);
      PlainAt(n.0, x, f) == After(Writes(c, Event(l.now, Patch(k, q), n.1), x, f), PlainAt(l, x, f))
  {
    if Live(c, l, k) {
      ExtendPlain(c, l, k, x, f);
      WritesOfPatch(c, l.now, k, q, x, f);
      if !Rejected(q) { AcceptedWrites(if q.state == Some(Talk) then Extend(c, l, k) else l, l.now, k, q, x, f); }
    }
  }

  lemma AcceptedWrites(l: Ledger, now: int, k: string, q: PatchRequest, x: string, f: HashField)
    requires k in l.records
    ensures PlainAt(SetRecord(l, k, Amend(l.records[k], q, now)), x, f)
            == if x != k then PlainAt(l, x, f)
               else After(if f == UpdatedAtField then Some(Iso(now)) else PlainUpdate(q, now, f), PlainAt(l, x, f))
  {
    AmendWrites(l.records[k], q, now, f);
    SetPlain(l, k, Amend(l.records[k], q, now), x, f);
  }

  lemma WritesOfPatch(c: Config, at: int, k: string, q: PatchRequest, x: string, f: HashField)
    ensures Writes(c, Event(at, Patch(k, q), BadRequest), x, f) == None
    ensures Writes(c, Event(at, Patch(k, q), Patched(at)), x, f)
            == if x != k then None else if f == UpdatedAtField then Some(Iso(at)) else PlainUpdate(q, at, f)
  {
  }

  lemma CloseTouch(r: Record, reason: Option<string>, summary: Option<string>, now: int, f: HashField)
    ensures Get(Touch(r, CloseFields(reason, summary, now), now).plain, f)
            == After(if f == UpdatedAtField then Some(Iso(now)) else CloseField(reason, summary, now, f),
                Get(r.plain, f))
  {
    assert Get(CloseFields(reason, summary, now), f) == CloseField(reason, summary, now, f);
    TouchWrites(r, CloseFields(reason, summary, now), now, f);
  }

  lemma WritesOfClose(c: Config, e: Event, k: string, x: string, f: HashField)
    requires e.step.CloseByKey? || e.step.CloseByToken?
    requires e.response == Closed(e.at, Archive(k))
    ensures Writes(c, e, x, f) == if x != k then None else if f == UpdatedAtField then Some(Iso(e.at))
        else CloseWrites(e, f)
  {
    if Archive(x) == Archive(k) { ArchiveInjective(x, k); }
  }

  lemma CloseKeyWrites(c: Config, l: Ledger, k: string, reason: Option<string>, summary: Option<string>, x: string,
      f: HashField)
    ensures var n := NextCloseByKey(c, l, k, reason, summary);
      PlainAt(n.0, x, f) == After(Writes(c, Event(l.now, CloseByKey(k, reason, summary), n.1), x, f), PlainAt(l, x, f))
  {
    if Live(c, l, k) {
      var r := Touch(l.records[k], CloseFields(reason, summary, l.now), l.now);
      CloseTouch(l.records[k], reason, summary, l.now, f);
      SetPlain(l, k, r, x, f);
      WritesOfClose(c, Event(l.now, CloseByKey(k, reason, summary), Closed(l.now, Archive(k))), k, x, f);
    }
  }

  lemma CloseTokenWrites(c: Config, l: Ledger, t: Token, reason: Option<string>, x: string, f: HashField)
    ensures var n := NextCloseByToken(c, l, t, reason);
      PlainAt(n.0, x, f) == After(Writes(c, Event(l.now, CloseByToken(t, reason), n.1), x, f), PlainAt(l, x, f))
  {
    var g := Permit(c, l, t, None);
    if g.Granted? {
      var r := Touch(l.records[g.key], CloseFields(reason, None, l.now), l.now);
      CloseTouch(l.records[g.key], reason, None, l.now, f);
      SetPlain(l, g.key, r.(revoked := true), x, f);
      WritesOfClose(c, Event(l.now, CloseByToken(t, reason), Closed(l.now, Archive(g.key))), g.key, x, f);
    }
  }

  lemma ProfileWrites(c: Config, l: Ledger, k: string, profile: map<string, Json>, fetched: Option<Json>, x: string,
      f: HashField)
    ensures var n := NextUpdateProfile(c, l, k, profile, fetched);
      PlainAt(n.0, x, f) == After(Writes(c, Event(l.now, UpdateProfile(k, profile, fetched), n.1), x, f),
          PlainAt(l, x, f))
  {
    StoredWrites(c, l, k, CustomerIn(c, profile), Obj(profile), fetched, x, f);
  }

  lemma StoredWrites(c: Config, l: Ledger, k: string, who: Customer, profile: Json, fetched: Option<Json>, x: string,
      f: HashField)
    ensures var n := NextProfile(c, l, k, who, profile, fetched);
      && PlainAt(n.0, x, f)
         == (if n.1.ProfileSaved? && x == k && who.Customer? && f == UpdatedAtField
             then Some(Iso(l.now)) else PlainAt(l, x, f))
  {
    if Live(c, l, k) && who.Customer? {
      var r := l.records[k].(cusno := Some(who.cusno));
      TouchWrites(r, map[], l.now, f);
      SetPlain(l, k, Touch(r, map[], l.now), x, f);
    }
  }

  lemma RotateWrites(c: Config, l: Ledger, t: Token, newJti: string, x: string, f: HashField)
    ensures PlainAt(NextRotate(c, l, t, newJti).0, x, f) == PlainAt(l, x, f)
  {
  }

  lemma TurnWrites(c: Config, l: Ledger, k: string, turn: Json, x: string, f: HashField)
    ensures PlainAt(NextTurn(c, l, k, turn).0, x, f) == PlainAt(l, x, f)
  {
  }

  lemma NextWrites(c: Config, l: Ledger, s: Step, k: string, f: HashField)
    requires Fresh(l, s)
    ensures var n := Next(c, l, s);
      PlainAt(n.0, k, f) == After(Writes(c, Event(l.now, s, n.1), k, f), PlainAt(l, k, f))
  {
    match s
    case Create(_, _, _, _, _) => CreateWrites(c, l, s, k, f);
    case Rotate(t, newJti) => RotateWrites(c, l, t, newJti, k, f);
    case Patch(x, q) => PatchWrites(c, l, x, q, k, f);
    case CloseByKey(x, reason, summary) => CloseKeyWrites(c, l, x, reason, summary, k, f);
    case CloseByToken(t, reason) => CloseTokenWrites(c, l, t, reason, k, f);
    case SaveResult(x, q) => TurnWrites(c, l, x, TurnOf(q, l.now), k, f);
    case UpdateProfile(x, profile, fetched) => ProfileWrites(c, l, x, profile, fetched, k, f);
    case _ =>
  }

  lemma {:induction false} RunWrites(c: Config, t0: int, steps: seq<Step>, k: string, f: HashField)
    requires 0 < c.ttl && Admissible(steps)
    ensures var (l, tr) := LedgerRun(c, t0, steps); PlainAt(l, k, f) == LastWritten(c, tr, k, f)
  {
    if steps != [] {
      var prev, s := steps[..|steps| - 1], steps[|steps| - 1];
      assert steps == prev + [s];
      AdmissiblePrefix(steps, |steps| - 1);
      RunWrites(c, t0, prev, k, f);
      RunRefines(c, t0, prev);
      var (l, tr) := LedgerRun(c, t0, prev);
      DrawnFresh(l, prev, s);
      NextWrites(c, l, s, k, f);
      WrittenStep(c, tr, Event(l.now, s, Next(c, l, s).1), k, f);
    }
  }

  lemma WrittenStep(c: Config, tr: seq<Event>, e: Event, k: string, f: HashField)
    ensures LastWritten(c, tr + [e], k, f) == After(Writes(c, e, k, f), LastWritten(c, tr, k, f))
  {
    assert (tr + [e])[..|tr|] == tr;
  }

  /** Every field of a live session that is stored as given holds the value last written to it. */
  lemma FieldsKept(c: Config, db: Store, tr: seq<Event>, k: string, f: HashField)
    requires Reached(c, db, tr) && k in db.sessions && !IsDecoded(f)
    ensures Get(db.sessions[k].value, f) == LastWritten(c, tr, k, f)
  {
    var t0, steps :| Admissible(steps) && Run(c, t0, steps) == (db, tr);
    var l := LedgerRun(c, t0, steps).0;
    RunRefines(c, t0, steps);
    RunWrites(c, t0, steps, k, f);
    FieldRead(c, l, db, k, f);
  }

  lemma FieldRead(c: Config, l: Ledger, db: Store, k: string, f: HashField)
    requires Sound(c, l) && Mirrors(c, l, db) && k in db.sessions && !IsDecoded(f)
    ensures Get(db.sessions[k].value, f) == PlainAt(l, k, f)
  {
    assert Get(db.sessions, k) == SessionEntry(c, l, k);
    assert SoundRecord(c, l, k);
    RenderField(c, l.records[k], f);
  }

  /** A live session's state, as the last creation, patch or close left it. */
  function StateIn(c: Config, tr: seq<Event>, k: string): Text {
    var w := LastWritten(c, tr, k, StateField);
    if w.Some? then w.value else Raw("")
  }

  /** What ping and verify answer on a token that resolves: the session, its state and its deadline. */
  lemma VerifyExactly(c: Config, db: Store, tr: seq<Event>, t: Token, k: string)
    requires Reached(c, db, tr) && Accepted(t, db.now) && t.jti != "" && KeyOfJti(db, t.jti) == Some(k)
    ensures LastRenewal(tr, k).Some?
    ensures HandlePing(db, t) == Pinged(true, Some(LastRenewal(tr, k).value + c.ttl))
    ensures HandleVerify(db, t) == if t.kind == Access
      then Verified(k, StateIn(c, tr, k), true, Some(LastRenewal(tr, k).value + c.ttl)) else Unauthorized(WrongKind)
  {
    TokensWithinSessions(c, db, tr, t.jti);
    LiveExactly(c, db, tr, k);
    FieldsKept(c, db, tr, k, StateField);
    GrantedSession(c, db, tr, t, None);
    GrantedSession(c, db, tr, t, Some(Access));
  }
}
