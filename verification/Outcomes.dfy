// What each handler achieves, as its client sees it: which requests are refused, what a later lookup or
// verification answers, and which fields of the session hash hold what.
module Outcomes {
  import opened Values
  import opened RedisStore
  import opened Requests
  import opened Handlers
  import opened Ledgers
  import opened LedgerInvariant
  import opened Simulation
  import opened Runs
  import opened Agreement
  import opened Theorems
  import opened Continuations
  import opened Contents
  import opened FieldHistory

  // ---------- tokens ----------

  /** The newest access token passes verification exactly until its session is closed by token or until the
      shorter of the TTL and the access lifetime has passed; it never rotates, and no refresh token passes. */
  lemma AccessExactly(c: Config, db: Store, tr: seq<Event>, k: string, newJti: string)
    requires Reached(c, db, tr) && LastIssue(tr, k).Some?
    ensures var i := LastIssue(tr, k).value;
      var r := HandleVerify(db, i.response.access);
      && (r.Verified? <==> !ClosedByToken(tr, k) && db.now < i.at + c.ttl && db.now < i.at + c.accessLife)
      && (r.Verified? ==> r.key == k && r.alive)
      && !HandleRotate(c, db, i.response.access, newJti).1.Rotated?
      && !HandleVerify(db, i.response.refresh).Verified?
  {
    var l := ReachedBehind(c, db, tr);
    RecordBehind(c, l, db, tr, k);
    var i := LastIssue(tr, k).value;
    var t := i.response.access;
    ResolvesExactly(c, db, tr, t.jti, k);
    var other := KeyOfJti(db, t.jti);
    if other.Some? { ResolvesExactly(c, db, tr, t.jti, other.value); OwnedOnce(c, l, db, tr, t.jti, k, other.value); }
    RotateAnswer(c, db, t, newJti);
    VerifyAnswer(db, t);
    VerifyAnswer(db, i.response.refresh);
    GrantedSession(c, db, tr, t, Some(Access));
  }

  lemma VerifyAnswer(db: Store, t: Token)
    ensures var r := HandleVerify(db, t);
      && (r.Verified? <==> Accepted(t, db.now) && t.kind == Access && t.jti != "" && KeyOfJti(db, t.jti).Some?)
      && (r.Verified? ==> Some(r.key) == KeyOfJti(db, t.jti) && r.alive == Session(db, r.key).Some?)
  {
  }

  /** Create issues two tokens of the user's under the drawn jti, and a rotation two of the old token's user under
      the new jti; they differ in kind and lifetime only. */
  lemma TokensIssued(c: Config, db: Store, s: Step)
    requires s.Create? || s.Rotate?
    ensures var r := Handle(c, db, s).1;
      var jti, user := if s.Create? then s.jti else s.newJti, if s.Create? then s.user else s.token.sub;
      r.Created? || r.Rotated? ==>
        && r.jti == jti && r.access == Token(jti, user, db.now + c.accessLife, Access, true)
        && r.refresh == Token(jti, user, db.now + c.refreshLife, Refresh, true)
  {
  }

  /** A token that was not signed here, or is at or past its expiry, is refused everywhere and changes nothing. */
  lemma BadTokenRefused(c: Config, db: Store, t: Token, newJti: string, reason: Option<string>)
    requires !t.genuine || t.exp <= db.now
    ensures HandleVerify(db, t) == Unauthorized(BadToken) && HandlePing(db, t) == Unauthorized(BadToken)
    ensures HandleRotate(c, db, t, newJti) == (db, Unauthorized(BadToken))
    ensures HandleCloseByToken(db, t, reason) == (db, Unauthorized(BadToken))
  {
  }

  // ---------- one step and the fields of the hash ----------

  /** A field that holds a new value if one was written and its old value otherwise. */
  predicate Became(h: Hash, h': Hash, f: HashField, v: Option<Text>) {
    Get(h', f) == if v.Some? then v else Get(h, f)
  }

  lemma FieldStep(c: Config, db: Store, tr: seq<Event>, s: Step, db': Store, r: Response, k: string, f: HashField)
    requires Reached(c, db, tr) && DrawnJti(s).None? && DrawnKey(s).None? && Handle(c, db, s) == (db', r)
    requires k in db.sessions && k in db'.sessions && !IsDecoded(f)
    ensures Became(db.sessions[k].value, db'.sessions[k].value, f, Writes(c, Event(db.now, s, r), k, f))
  {
    var e := Event(db.now, s, r);
    DrawReached(c, db, tr, s);
    FieldsKept(c, db, tr, k, f);
    FieldsKept(c, db', tr + [e], k, f);
    WrittenStep(c, tr, e, k, f);
  }

  /** The text of an option that is given and not empty. */
  function GivenText(o: Option<string>): Option<Text> {
    if o.Some? && o.value != "" then Some(Raw(o.value)) else None
  }

  function StateText(s: Option<SessionState>): Option<Text> {
    if s == Some(Start) then Some(Raw("start"))
    else if s == Some(Talk) then Some(Raw("talk"))
    else if s == Some(End) then Some(Raw("end"))
    else None
  }

  // ---------- patch: what is refused, and what is read back ----------

  /** The reference has a conversation history that is no list, or a turn count that is no int (bool is one). */
  predicate Unreadable(m: map<string, Json>) {
    || ("conversation_history" in m && !m["conversation_history"].Null? && !m["conversation_history"].Arr?)
    || ("turn_count" in m && !m["turn_count"].Null? && !m["turn_count"].Int? && !m["turn_count"].Bool?)
  }

  /** A member that is there and not null. */
  function Member(m: map<string, Json>, key: string): Option<Json> {
    if key in m && !m[key].Null? then Some(m[key]) else None
  }

  /** A lookup of this reference would drop its history or its turn count. */
  predicate LosesValue(v: SessionView, m: map<string, Json>) {
    v.history != Member(m, "conversation_history") || v.turnCount != Member(m, "turn_count")
  }

  lemma LosesExactly(v: SessionView, m: map<string, Json>)
    requires v == View(v.plain, v.agentSessionKey, v.cusno, v.batch, v.realtime, Some(Obj(m)), v.turnIds)
    ensures LosesValue(v, m) <==> Unreadable(m)
    ensures v.activeTask == Member(m, "active_task") && v.currentIntent == Member(m, "current_intent")
    ensures v.currentTaskId == Member(m, "current_task_id")
    ensures var queue := Member(m, "task_queue_status");
      v.taskQueueDetail == if queue.Some? && queue.value.Arr? then queue else None
  {
  }

  /** A patch of a live session is refused exactly when its history is no list or its turn count no int. */
  lemma RefusedExactly(c: Config, db: Store, tr: seq<Event>, k: string, q: PatchRequest)
    requires Reached(c, db, tr) && k in db.sessions
    ensures HandlePatch(c, db, k, q).1
            == if q.patch.Some? && Unreadable(MergedReference(q.patch.value)) then BadRequest else Patched(db.now)
  {
    PatchAnswer(c, db, tr, k, q);
  }

  /** That is, exactly when a lookup of its merged reference would drop one of these values. */
  lemma RefusedIfLost(c: Config, db: Store, tr: seq<Event>, k: string, q: PatchRequest, v: SessionView)
    requires Reached(c, db, tr) && k in db.sessions && q.patch.Some?
    requires var m := MergedReference(q.patch.value);
      v == View(v.plain, v.agentSessionKey, v.cusno, v.batch, v.realtime, Some(Obj(m)), v.turnIds)
    ensures HandlePatch(c, db, k, q).1 == BadRequest <==> LosesValue(v, MergedReference(q.patch.value))
  {
    RefusedExactly(c, db, tr, k, q);
    LosesExactly(v, MergedReference(q.patch.value));
  }

  /** After an accepted patch with reference information a lookup answers every part of it. */
  lemma ReferenceSeen(c: Config, db: Store, tr: seq<Event>, k: string, q: PatchRequest, kind: Option<AgentType>,
      agentId: Option<string>)
    requires Reached(c, db, tr) && k in db.sessions && q.patch.Some? && !Unreadable(MergedReference(q.patch.value))
    requires MergedReference(q.patch.value) != map[]
    ensures var m := MergedReference(q.patch.value);
      var r := HandleResolve(c, HandlePatch(c, db, k, q).0, k, kind, agentId);
      && r.Resolved? && r.view.reference == Some(Obj(m))
      && r.view.history == Member(m, "conversation_history") && r.view.turnCount == Member(m, "turn_count")
      && r.view.activeTask == Member(m, "active_task") && r.view.currentIntent == Member(m, "current_intent")
      && r.view.currentTaskId == Member(m, "current_task_id")
  {
    var m := MergedReference(q.patch.value);
    var db' := HandlePatch(c, db, k, q).0;
    RefusedExactly(c, db, tr, k, q);
    PatchAnswer(c, db, tr, k, q);
    PatchThenResolve(c, db, tr, k, q, kind, agentId);
    ResolveShape(c, db', k, kind, agentId);
    LosesExactly(HandleResolve(c, db', k, kind, agentId).view, m);
  }

  lemma ResolveShape(c: Config, db: Store, k: string, kind: Option<AgentType>, agentId: Option<string>)
    ensures var r := HandleResolve(c, db, k, kind, agentId);
      r.Resolved? ==> var v := r.view;
        && v == View(v.plain, v.agentSessionKey, v.cusno, v.batch, v.realtime, v.reference, v.turnIds)
        && Session(db, k).Some? && v.plain == ViewPlain(Session(db, k).value)
  {
  }

  // ---------- patch: what is written ----------

  /** The event a patch records: exactly these five members. */
  predicate IsEvent(t: Text, p: StatePatch, now: int) {
    && t.Dumped? && t.json.Obj?
    && var m := t.json.fields;
       && m.Keys == {"event_type", "agent_id", "agent_type", "response_type", "updated_at"}
       && m["event_type"] == Str("AGENT_RESPONSE") && m["updated_at"] == Int(now)
       && m["agent_id"] == (if p.lastAgentId.Some? then Str(p.lastAgentId.value) else Null)
       && m["response_type"] == (if p.lastResponseType.Some? then Str(p.lastResponseType.value) else Null)
       && m["agent_type"] == (if p.lastAgentType == Some(Knowledge) then Str("knowledge")
                              else if p.lastAgentType == Some(Task) then Str("task") else Null)
  }

  lemma EventWritten(p: StatePatch, now: int)
    ensures IsEvent(Dumped(LastEvent(p, now)), p, now)
  {
    assert |"event_type"| != |"agent_id"| && "agent_type" != "event_type" && "agent_type" != "updated_at";
  }

  lemma PatchedField(c: Config, db: Store, tr: seq<Event>, k: string, q: PatchRequest, f: HashField)
    requires Reached(c, db, tr) && k in db.sessions && HandlePatch(c, db, k, q).1 == Patched(db.now) && !IsDecoded(f)
    ensures var db' := HandlePatch(c, db, k, q).0;
      && k in db'.sessions
      && Became(db.sessions[k].value, db'.sessions[k].value, f,
                if f == UpdatedAtField then Some(Iso(db.now)) else PlainUpdate(q, db.now, f))
  {
    var (db', r) := HandlePatch(c, db, k, q);
    PatchAnswer(c, db, tr, k, q);
    FieldStep(c, db, tr, Patch(k, q), db', r, k, f);
    WritesOfPatch(c, db.now, k, q, k, f);
  }

  /** An accepted patch sets the state it names,
      stamps the session and records the event of an agent or response type. */
  predicate PatchedState(h: Hash, h': Hash, q: PatchRequest, p: StatePatch, now: int) {
    && Became(h, h', StateField, StateText(q.state)) && Get(h', UpdatedAtField) == Some(Iso(now))
    && (if GivenText(p.lastAgentId).Some? || p.lastResponseType.Some?
        then LastEventField in h' && IsEvent(h'[LastEventField], p, now) else Became(h, h', LastEventField, None))
  }

  /** It sets the given fields of its state patch and leaves the rest. */
  predicate PatchedRest(h: Hash, h': Hash, p: StatePatch) {
    && Became(h, h', SubagentField, GivenText(p.subagentStatus))
    && Became(h, h', ActionOwnerField, GivenText(p.actionOwner))
    && Became(h, h', CushionField, GivenText(p.cushionMessage))
    && Became(h, h', AttributesField,
              if p.attributes.Some? && p.attributes.value != map[] then Some(Dumped(Obj(p.attributes.value))) else None)
    && Became(h, h', TriggerIdField, None) && Became(h, h', ChannelField, None) && Became(h, h', CloseReasonField, None)
  }

  lemma UpdatesGiven(q: PatchRequest, p: StatePatch, now: int)
    requires q.patch == Some(p)
    ensures PlainUpdate(q, now, StateField) == StateText(q.state)
    ensures PlainUpdate(q, now, SubagentField) == GivenText(p.subagentStatus)
    ensures PlainUpdate(q, now, ActionOwnerField) == GivenText(p.actionOwner)
    ensures PlainUpdate(q, now, CushionField) == GivenText(p.cushionMessage)
    ensures PlainUpdate(q, now, AttributesField)
            == if p.attributes.Some? && p.attributes.value != map[] then Some(Dumped(Obj(p.attributes.value))) else None
    ensures var event := PlainUpdate(q, now, LastEventField);
      && (event.Some? <==> GivenText(p.lastAgentId).Some? || p.lastResponseType.Some?)
      && (event.Some? ==> IsEvent(event.value, p, now))
    ensures forall f :: f in {TriggerIdField, ChannelField, CloseReasonField} ==> PlainUpdate(q, now, f) == None
  {
    EventWritten(p, now);
  }

  predicate PatchBecame(h: Hash, h': Hash, q: PatchRequest, now: int, f: HashField) {
    Became(h, h', f, if f == UpdatedAtField then Some(Iso(now)) else PlainUpdate(q, now, f))
  }

  lemma StateMeans(h: Hash, h': Hash, q: PatchRequest, p: StatePatch, now: int)
    requires q.patch == Some(p)
    requires forall f: HashField {:trigger PatchBecame(h, h', q, now, f)} ::
      !IsDecoded(f) ==> PatchBecame(h, h', q, now, f)
    ensures PatchedState(h, h', q, p, now)
  {
    assert PatchBecame(h, h', q, now, StateField) && PatchBecame(h, h', q, now, UpdatedAtField);
    assert PatchBecame(h, h', q, now, LastEventField);
    UpdatesGiven(q, p, now);
  }

  lemma RestMeans(h: Hash, h': Hash, q: PatchRequest, p: StatePatch, now: int)
    requires q.patch == Some(p)
    requires forall f: HashField {:trigger PatchBecame(h, h', q, now, f)} ::
      !IsDecoded(f) ==> PatchBecame(h, h', q, now, f)
    ensures PatchedRest(h, h', p)
  {
    assert PatchBecame(h, h', q, now, SubagentField) && PatchBecame(h, h', q, now, ActionOwnerField);
    assert PatchBecame(h, h', q, now, CushionField) && PatchBecame(h, h', q, now, AttributesField);
    assert PatchBecame(h, h', q, now, TriggerIdField);
    assert PatchBecame(h, h', q, now, ChannelField) && PatchBecame(h, h', q, now, CloseReasonField);
    UpdatesGiven(q, p, now);
  }

  /** An accepted patch writes what it gives, and nothing else. */
  lemma PatchWritesGiven(c: Config, db: Store, tr: seq<Event>, k: string, q: PatchRequest, p: StatePatch)
    requires Reached(c, db, tr) && k in db.sessions && HandlePatch(c, db, k, q).1 == Patched(db.now)
    requires q.patch == Some(p)
    ensures var db' := HandlePatch(c, db, k, q).0;
      && k in db'.sessions && PatchedState(db.sessions[k].value, db'.sessions[k].value, q, p, db.now)
      && PatchedRest(db.sessions[k].value, db'.sessions[k].value, p)
  {
    var db' := HandlePatch(c, db, k, q).0;
    PatchedField(c, db, tr, k, q, StateField);
    var h, h' := db.sessions[k].value, db'.sessions[k].value;
    forall f: HashField | !IsDecoded(f)
      ensures PatchBecame(h, h', q, db.now, f)
    {
      PatchedField(c, db, tr, k, q, f);
    }
    StateMeans(h, h', q, p, db.now);
    RestMeans(h, h', q, p, db.now);
  }

  /** A patch that names an agent and its session key registers the pair, for that agent only; any other
      registers nothing. */
  lemma PatchRegisters(c: Config, db: Store, tr: seq<Event>, k: string, q: PatchRequest, p: StatePatch, agentId: string)
    requires Reached(c, db, tr) && k in db.sessions && HandlePatch(c, db, k, q).1 == Patched(db.now)
    requires q.patch == Some(p)
    ensures FindMapping(HandlePatch(c, db, k, q).0, k, agentId)
            == if GivenText(p.agentSessionKey).Some? && p.lastAgentId == Some(agentId) && agentId != ""
               then Some(LocalMapping(Some(Str(p.agentSessionKey.value)),
                                      Some(Str(if p.lastAgentType == Some(Knowledge) then "knowledge" else "task"))))
               else FindMapping(db, k, agentId)
  {
    var (db', r) := HandlePatch(c, db, k, q);
    var e := Event(db.now, Patch(k, q), r);
    PatchAnswer(c, db, tr, k, q);
    DrawReached(c, db, tr, Patch(k, q));
    MappingKept(c, db, tr, k, agentId);
    MappingKept(c, db', tr + [e], k, agentId);
    assert (tr + [e])[..|tr|] == tr;
  }

  /** The turn id of an accepted patch is listed last, unless it was listed before. */
  lemma PatchListsTurn(c: Config, db: Store, tr: seq<Event>, k: string, q: PatchRequest, id: string)
    requires Reached(c, db, tr) && k in db.sessions && HandlePatch(c, db, k, q).1 == Patched(db.now)
    requires q.turnId == Some(id)
    ensures var r, r' := HandleResolve(c, db, k, None, None),
        HandleResolve(c, HandlePatch(c, db, k, q).0, k, None, None);
      && r.Resolved? && r'.Resolved? && r'.view.turnIds.Some?
      && var before := if r.view.turnIds.Some? then r.view.turnIds.value else [];
         r'.view.turnIds.value == if id in before then before else before + [id]
  {
    var (db', a) := HandlePatch(c, db, k, q);
    var e := Event(db.now, Patch(k, q), a);
    PatchAnswer(c, db, tr, k, q);
    DrawReached(c, db, tr, Patch(k, q));
    ResolveKept(c, db, tr, k, None, None);
    ResolveKept(c, db', tr + [e], k, None, None);
    PatchedIdsStep(tr, e, k);
  }

  /** What a lookup answers of the state, the subagent status and the last event of a hash. */
  lemma PlainSeen(c: Config, db: Store, k: string, kind: Option<AgentType>, agentId: Option<string>)
    requires k in db.sessions && StateField in db.sessions[k].value
    ensures var h, r := db.sessions[k].value, HandleResolve(c, db, k, kind, agentId);
      && r.Resolved? && r.view.plain.state == h[StateField]
      && (r.view.plain.isFirstCall <==> h[StateField] == Raw("start"))
      && (SubagentField in h ==> r.view.plain.subagentStatus == h[SubagentField])
      && (TriggerIdField in h ==> r.view.plain.triggerId == h[TriggerIdField])
      && (forall m ::
            m != map[] && Get(h, LastEventField) == Some(Dumped(Obj(m))) ==> r.view.plain.lastEvent == Some(Obj(m)))
  {
  }

  /** The lookup answers what a patch gave. */
  predicate SeesPatch(r: Response, q: PatchRequest, p: StatePatch, now: int) {
    && r.Resolved? && Some(r.view.plain.state) == StateText(q.state)
    && (r.view.plain.isFirstCall <==> q.state == Some(Start))
    && (GivenText(p.subagentStatus).Some? ==> Some(r.view.plain.subagentStatus) == GivenText(p.subagentStatus))
    && (p.lastResponseType.Some? ==>
          r.view.plain.lastEvent.Some? && IsEvent(Dumped(r.view.plain.lastEvent.value), p, now))
  }

  lemma PatchedSeen(c: Config, db: Store, k: string, h: Hash, q: PatchRequest, p: StatePatch, now: int,
      kind: Option<AgentType>, agentId: Option<string>)
    requires k in db.sessions && q.state.Some?
    requires PatchedState(h, db.sessions[k].value, q, p, now) && PatchedRest(h, db.sessions[k].value, p)
    ensures SeesPatch(HandleResolve(c, db, k, kind, agentId), q, p, now)
  {
    var h' := db.sessions[k].value;
    assert StateText(q.state).Some? by {
      match q.state.value
      case Start =>
      case Talk =>
      case End =>
    }
    PlainSeen(c, db, k, kind, agentId);
    if p.lastResponseType.Some? { assert "event_type" in h'[LastEventField].json.fields; }
  }

  /** After an accepted patch a lookup answers the state, the subagent status and the event it gave. */
  lemma PatchSeen(c: Config, db: Store, tr: seq<Event>, k: string, q: PatchRequest, p: StatePatch,
      kind: Option<AgentType>, agentId: Option<string>) returns (db': Store)
    requires Reached(c, db, tr) && k in db.sessions && HandlePatch(c, db, k, q).1 == Patched(db.now)
    requires q.patch == Some(p) && q.state.Some?
    ensures db' == HandlePatch(c, db, k, q).0 && SeesPatch(HandleResolve(c, db', k, kind, agentId), q, p, db.now)
  {
    PatchWritesGiven(c, db, tr, k, q, p);
    db' := HandlePatch(c, db, k, q).0;
    PatchedSeen(c, db', k, db.sessions[k].value, q, p, db.now, kind, agentId);
  }

  /** After a close by key a lookup answers an ended session. */
  lemma CloseSeen(c: Config, db: Store, tr: seq<Event>, k: string, reason: Option<string>, summary: Option<string>,
      kind: Option<AgentType>, agentId: Option<string>)
    requires Reached(c, db, tr) && k in db.sessions
    ensures var r := HandleResolve(c, HandleCloseByKey(db, k, reason, summary).0, k, kind, agentId);
      r.Resolved? && r.view.plain.state == Raw("end") && !r.view.plain.isFirstCall
  {
    var db' := HandleCloseByKey(db, k, reason, summary).0;
    CloseByKeyEnds(c, db, tr, k, reason, summary);
    PlainSeen(c, db', k, kind, agentId);
  }

  // ---------- close ----------

  /** What a close leaves of the hash. */
  predicate ClosedHash(h: Hash, h': Hash, reason: Option<string>, summary: Option<string>, now: int) {
    && Get(h', StateField) == Some(Raw("end")) && Get(h', EndedAtField) == Some(Iso(now))
    && Get(h', UpdatedAtField) == Some(Iso(now))
    && Became(h, h', CloseReasonField, if reason.Some? then Some(Raw(reason.value)) else None)
    && Became(h, h', SummaryField, GivenText(summary))
    && Became(h, h', SubagentField, None) && Became(h, h', LastEventField, None) && Became(h, h', TriggerIdField, None)
    && Became(h, h', ChannelField, None)
  }

  predicate CloseBecame(h: Hash, h': Hash, reason: Option<string>, summary: Option<string>, now: int, f: HashField) {
    Became(h, h', f, if f == UpdatedAtField then Some(Iso(now)) else CloseField(reason, summary, now, f))
  }

  lemma ClosedMeans(h: Hash, h': Hash, reason: Option<string>, summary: Option<string>, now: int)
    requires forall f: HashField {:trigger CloseBecame(h, h', reason, summary, now, f)} ::
      !IsDecoded(f) ==> CloseBecame(h, h', reason, summary, now, f)
    ensures ClosedHash(h, h', reason, summary, now)
  {
    assert CloseBecame(h, h', reason, summary, now, StateField)
        && CloseBecame(h, h', reason, summary, now, EndedAtField);
    assert CloseBecame(h, h', reason, summary, now, UpdatedAtField);
    assert CloseBecame(h, h', reason, summary, now, CloseReasonField);
    assert CloseBecame(h, h', reason, summary, now, SummaryField);
    assert CloseBecame(h, h', reason, summary, now, SubagentField);
    assert CloseBecame(h, h', reason, summary, now, LastEventField);
    assert CloseBecame(h, h', reason, summary, now, TriggerIdField);
    assert CloseBecame(h, h', reason, summary, now, ChannelField);
  }

  lemma ClosedFields(c: Config, db: Store, tr: seq<Event>, s: Step, db': Store, k: string, summary: Option<string>)
    requires Reached(c, db, tr) && k in db.sessions && k in db'.sessions
    requires s.CloseByKey? || s.CloseByToken?
    requires Handle(c, db, s) == (db', Closed(db.now, Archive(k)))
    requires summary == if s.CloseByKey? then s.summary else None
    ensures ClosedHash(db.sessions[k].value, db'.sessions[k].value, s.reason, summary, db.now)
  {
    var h, h' := db.sessions[k].value, db'.sessions[k].value;
    forall f: HashField | !IsDecoded(f)
      ensures CloseBecame(h, h', s.reason, summary, db.now, f)
    {
      ClosedField(c, db, tr, s, db', k, f);
    }
    ClosedMeans(h, h', s.reason, summary, db.now);
  }

  lemma ClosedField(c: Config, db: Store, tr: seq<Event>, s: Step, db': Store, k: string, f: HashField)
    requires Reached(c, db, tr) && k in db.sessions && k in db'.sessions && !IsDecoded(f)
    requires s.CloseByKey? || s.CloseByToken?
    requires Handle(c, db, s) == (db', Closed(db.now, Archive(k)))
    ensures Became(db.sessions[k].value, db'.sessions[k].value, f,
                   if f == UpdatedAtField then Some(Iso(db.now))
                   else CloseField(s.reason, if s.CloseByKey? then s.summary else None, db.now, f))
  {
    var e := Event(db.now, s, Closed(db.now, Archive(k)));
    FieldStep(c, db, tr, s, db', e.response, k, f);
    WritesOfClose(c, e, k, k, f);
  }

  /** Closing by key ends a live session and leaves every token working. */
  lemma CloseByKeyEnds(c: Config, db: Store, tr: seq<Event>, k: string, reason: Option<string>, summary: Option<string>)
    requires Reached(c, db, tr) && k in db.sessions
    ensures var (db', r) := HandleCloseByKey(db, k, reason, summary);
      && r == Closed(db.now, "arch_" + k) && db' == db.(sessions := db'.sessions) && k in db'.sessions
      && db'.sessions[k].deadline == db.sessions[k].deadline
      && ClosedHash(db.sessions[k].value, db'.sessions[k].value, reason, summary, db.now)
  {
    var l := LiveBehind(c, db, tr, k);
    SessionRead(c, l, k, db);
    var db' := CloseShape(c, db, k, reason, summary);
    ClosedFields(c, db, tr, CloseByKey(k, reason, summary), db', k, summary);
  }

  lemma CloseShape(c: Config, db: Store, k: string, reason: Option<string>, summary: Option<string>)
      returns (db': Store)
    requires Session(db, k).Some?
    ensures HandleCloseByKey(db, k, reason, summary) == (db', Closed(db.now, Archive(k)))
    ensures Handle(c, db, CloseByKey(k, reason, summary)) == (db', Closed(db.now, Archive(k)))
    ensures db' == db.(sessions := db'.sessions) && k in db'.sessions
        && k in db.sessions && db'.sessions[k].deadline == db.sessions[k].deadline
  {
    db' := HandleCloseByKey(db, k, reason, summary).0;
  }

  /** Closing by token ends the session, and the token and its jti are refused from then on. */
  lemma CloseByTokenEnds(c: Config, db: Store, tr: seq<Event>, t: Token, reason: Option<string>, k: string,
      newJti: string)
    requires Reached(c, db, tr) && Accepted(t, db.now) && t.jti != "" && KeyOfJti(db, t.jti) == Some(k)
    ensures var (db', r) := HandleCloseByToken(db, t, reason);
      && r == Closed(db.now, "arch_" + k) && k in db.sessions && k in db'.sessions
      && ClosedHash(db.sessions[k].value, db'.sessions[k].value, reason, None, db.now)
      && KeyOfJti(db', t.jti) == None && HandlePing(db', t) == Unauthorized(NotBound)
      && !HandleVerify(db', t).Verified? && !HandleRotate(c, db', t, newJti).1.Rotated?
      && (forall j :: j != t.jti ==> KeyOfJti(db', j) == KeyOfJti(db, j))
  {
    var (db', r) := HandleCloseByToken(db, t, reason);
    TokensWithinSessions(c, db, tr, t.jti);
    GrantedSession(c, db, tr, t, None);
    TokenCloseShape(db, t, reason, k);
    ClosedFields(c, db, tr, CloseByToken(t, reason), db', k, None);
    VerifyAnswer(db', t);
    RotateAnswer(c, db', t, newJti);
  }

  lemma TokenCloseShape(db: Store, t: Token, reason: Option<string>, k: string)
    requires Authorize(db, t, None) == Granted(k) && Session(db, k).Some?
    ensures var (db', r) := HandleCloseByToken(db, t, reason);
      && r == Closed(db.now, Archive(k)) && db'.now == db.now && k in db'.sessions && KeyOfJti(db', t.jti) == None
      && forall j :: j != t.jti ==> KeyOfJti(db', j) == KeyOfJti(db, j)
  {
  }
}
