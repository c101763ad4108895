// What create, saved results and saved profiles add, as a later lookup sees it.
module Additions {
  import opened Values
  import opened RedisStore
  import opened Requests
  import opened Handlers
  import opened Simulation
  import opened Runs
  import opened Agreement
  import opened Theorems
  import opened Continuations
  import opened Contents
  import opened BatchHistory
  import opened BatchLifetime

  // ---------- create ----------

  /** The hash of a new session. */
  predicate NewHash(h: Hash, s: Step, now: int, ttl: int)
    requires s.Create?
  {
    && Get(h, SessionKeyField) == Some(Raw(s.key)) && Get(h, UserIdField) == Some(Raw(s.user))
    && Get(h, StateField) == Some(Raw("start")) && Get(h, TriggerIdField) == Some(Raw(s.trigger))
    && Get(h, ChannelField) == Some(Raw(if s.channel.Some? then s.channel.value.eventChannel else "utterance"))
    && Get(h, StartTypeField) == (if s.channel.Some? then Some(Raw(s.channel.value.eventType)) else None)
    && Get(h, TaskQueueField) == Some(Raw("null")) && Get(h, SubagentField) == Some(Raw("undefined"))
    && Get(h, ConversationIdField) == Some(Raw("")) && Get(h, ProfileField) == Some(Dumped(Obj(map[])))
    && Get(h, CreatedAtField) == Some(Iso(now)) && Get(h, UpdatedAtField) == Some(Iso(now))
    && Get(h, ExpiresAtField) == Some(Iso(now + ttl))
    && h.Keys <= {SessionKeyField, UserIdField, StateField, TriggerIdField, ChannelField, StartTypeField,
        TaskQueueField,
                  SubagentField, ConversationIdField, ProfileField, CreatedAtField, UpdatedAtField, ExpiresAtField}
  }

  lemma NewSessionHash(c: Config, s: Step, now: int)
    requires s.Create?
    ensures NewHash(NewSession(c, s, now), s, now, c.ttl)
  {
  }

  lemma CreatedHash(c: Config, db: Store, s: Step)
    requires s.Create? && s.key !in db.sessions
    ensures var db' := HandleCreate(c, db, s).0;
      s.key in db'.sessions && NewHash(db'.sessions[s.key].value, s, db.now, c.ttl)
  {
    NewSessionHash(c, s, db.now);
    assert HandleCreate(c, db, s).0.sessions[s.key].value == NewSession(c, s, db.now);
  }

  /** What a lookup of a session just created answers. */
  predicate NewView(v: SessionView, s: Step)
    requires s.Create?
  {
    && v.plain.triggerId == Raw(s.trigger) && v.plain.state == Raw("start") && v.plain.isFirstCall
    && v.plain.taskQueueStatus == Raw("null") && v.plain.subagentStatus == Raw("undefined") && v.plain.lastEvent.None?
    && (s.channel.None? ==> v.plain.channel == Some((Raw(""), Raw("utterance"))))
    && (s.channel.Some? && (s.channel.value.eventType != "" || s.channel.value.eventChannel != "") ==>
          v.plain.channel == Some((Raw(s.channel.value.eventType), Raw(s.channel.value.eventChannel))))
    && v.agentSessionKey.None? && v.cusno.None? && v.batch.None? && v.reference.None? && v.turnIds.None?
    && v.history.None? && v.turnCount.None? && v.currentIntent.None? && v.activeTask.None?
  }

  lemma NewHashSeen(c: Config, db: Store, s: Step, kind: Option<AgentType>, agentId: Option<string>)
    requires s.Create? && s.key in db.sessions && NewHash(db.sessions[s.key].value, s, db.now, c.ttl)
    ensures var r := HandleResolve(c, db, s.key, kind, agentId); r.Resolved? && NewView(r.view, s)
  {
    var h := db.sessions[s.key].value;
    assert SessionKeyField in h;
    assert CusnoField !in h && AgentsField !in h && ReferenceField !in h && TurnIdsField !in h && LastEventField !in h;
    assert ObjectOf(ParseField(h, AgentsField)) == map[];
  }

  /** A new session is there with its own fields, and a lookup answers them and nothing else. */
  lemma CreateOpens(c: Config, db: Store, tr: seq<Event>, s: Step, kind: Option<AgentType>, agentId: Option<string>)
    requires Reached(c, db, tr) && s.Create? && NewDraws(tr, s)
    ensures var (db', r) := HandleCreate(c, db, s);
      && r.Created? && r.key == s.key && r.jti == s.jti
      && s.key in db'.sessions && NewHash(db'.sessions[s.key].value, s, db.now, c.ttl)
      && var seen := HandleResolve(c, db', s.key, kind, agentId); seen.Resolved? && NewView(seen.view, s)
  {
    UndrawnAbsent(c, db, tr, s.key);
    CreatedHash(c, db, s);
    CreateShape(c, db, s);
    NewHashSeen(c, HandleCreate(c, db, s).0, s, kind, agentId);
  }

  /** Its access token is verified at once, whatever else is stored. */
  lemma CreateVerifies(c: Config, db: Store, s: Step) returns (db': Store, r: Response)
    requires s.Create? && s.key != "" && s.jti != "" && s.key !in db.sessions && 0 < c.accessLife
    ensures HandleCreate(c, db, s) == (db', r) && r.Created?
    ensures HandleVerify(db', r.access) == Verified(s.key, Raw("start"), true, Some(db.now + c.ttl))
  {
    db', r := CreatedTokens(c, db, s);
    NewVerified(c, db', s, r.access);
  }

  /** And its refresh token rotates at once. */
  lemma CreateRotates(c: Config, db: Store, s: Step, newJti: string) returns (db': Store, r: Response)
    requires s.Create? && s.key != "" && s.jti != "" && s.key !in db.sessions && 0 < c.refreshLife
    ensures HandleCreate(c, db, s) == (db', r) && r.Created? && HandleRotate(c, db', r.refresh, newJti).1.Rotated?
  {
    db', r := CreatedTokens(c, db, s);
    RotateAnswer(c, db', r.refresh, newJti);
  }

  lemma CreatedTokens(c: Config, db: Store, s: Step) returns (db': Store, r: Response)
    requires s.Create? && s.key != "" && s.key !in db.sessions
    ensures HandleCreate(c, db, s) == (db', r) && r.Created? && db'.now == db.now
    ensures s.key in db'.sessions && NewHash(db'.sessions[s.key].value, s, db.now, c.ttl)
    ensures KeyOfJti(db', s.jti) == Some(s.key)
    ensures r.access == AccessToken(c, s.jti, s.user, db.now) && r.refresh == RefreshToken(c, s.jti, s.user, db.now)
  {
    CreatedHash(c, db, s);
    CreateShape(c, db, s);
    var created := HandleCreate(c, db, s);
    db', r := created.0, created.1;
  }

  lemma AdmitTokens(c: Config, db: Store, s: Step, access: Token, refresh: Token, newJti: string)
    requires s.Create? && s.key in db.sessions && NewHash(db.sessions[s.key].value, s, db.now, c.ttl)
    requires s.jti != "" && KeyOfJti(db, s.jti) == Some(s.key) && 0 < c.accessLife && 0 < c.refreshLife
    requires access == AccessToken(c, s.jti, s.user, db.now) && refresh == RefreshToken(c, s.jti, s.user, db.now)
    ensures HandleVerify(db, access) == Verified(s.key, Raw("start"), true, Some(db.now + c.ttl))
    ensures HandleRotate(c, db, refresh, newJti).1.Rotated?
  {
    NewVerified(c, db, s, access);
    RotateAnswer(c, db, refresh, newJti);
  }

  lemma NewVerified(c: Config, db: Store, s: Step, t: Token)
    requires s.Create? && s.key in db.sessions && NewHash(db.sessions[s.key].value, s, db.now, c.ttl)
    requires Authorize(db, t, Some(Access)) == Granted(s.key)
    ensures HandleVerify(db, t) == Verified(s.key, Raw("start"), true, Some(db.now + c.ttl))
  {
    assert StateField in db.sessions[s.key].value;
  }

  lemma CreateShape(c: Config, db: Store, s: Step)
    requires s.Create? && s.key != ""
    ensures var (db', r) := HandleCreate(c, db, s);
      && db'.now == db.now && r.Created? && r.key == s.key && r.jti == s.jti && KeyOfJti(db', s.jti) == Some(s.key)
      && r.access == AccessToken(c, s.jti, s.user, db.now) && r.refresh == RefreshToken(c, s.jti, s.user, db.now)
  {
  }

  // ---------- turns ----------

  function OptText(o: Option<string>): Option<Json> {
    if o.Some? then Some(Str(o.value)) else None
  }

  function OptList(items: seq<Json>): Option<Json> {
    if items == [] then None else Some(Arr(items))
  }

  /** The block of an answer: its members exactly where given. */
  predicate IsResponse(m: map<string, Json>, r: ApiResult) {
    && m.Keys <= {"globId", "requestId", "result", "resultCode", "resultMsg", "transactionResult"}
    && Get(m, "globId") == OptText(r.globId) && Get(m, "requestId") == OptText(r.requestId)
    && Get(m, "result") == OptText(r.result) && Get(m, "resultCode") == OptText(r.resultCode)
    && Get(m, "resultMsg") == OptText(r.resultMsg) && Get(m, "transactionResult") == OptList(r.results)
  }

  /** The metadata of a turn: identifiers always, agent and blocks where there is something in them. */
  predicate IsSol(m: map<string, Json>, r: ApiResult) {
    && m.Keys <= {"global_session_key", "turn_id", "agent", "request", "response"}
    && Get(m, "global_session_key") == Some(Str(r.sessionKey)) && Get(m, "turn_id") == Some(Str(r.turnId))
    && Get(m, "agent") == OptText(r.agentId)
    && Get(m, "request") == (if r.payloads == [] then None else Some(Obj(map["transactionPayload" := Arr(r.payloads)])))
    && (if "response" in m then m["response"].Obj? && m["response"].fields != map[]
        && IsResponse(m["response"].fields, r)
        else IsResponse(map[], r))
  }

  predicate IsTurn(t: Json, r: ApiResult, now: int) {
    && t.Obj? && t.fields.Keys == {"turn_id", "global_session_key", "timestamp", "metadata"}
    && t.fields["turn_id"] == Str(r.turnId) && t.fields["global_session_key"] == Str(r.sessionKey)
    && t.fields["timestamp"] == Int(now)
    && t.fields["metadata"].Obj? && t.fields["metadata"].fields.Keys == {"sol_api"}
    && t.fields["metadata"].fields["sol_api"].Obj? && IsSol(t.fields["metadata"].fields["sol_api"].fields, r)
  }

  function One(name: string, v: Option<Json>): map<string, Json> {
    if v.Some? then map[name := v.value] else map[]
  }

  predicate Distinct(names: seq<string>) {
    forall i, j :: 0 <= i < j < |names| ==> names[i] != names[j]
  }

  lemma AddOne(m: map<string, Json>, name: string, v: Option<Json>, k: string)
    ensures Get(m + One(name, v), k) == if k == name && v.Some? then v else Get(m, k)
  {
  }

  /** What is under k when six optional members are put together in order. */
  lemma SixAt(n: seq<string>, v: seq<Option<Json>>, k: string)
    requires |n| == 6 && |v| == 6
    ensures Get(Six(n, v), k)
            == if k == n[5] && v[5].Some? then v[5] else if k == n[4] && v[4].Some? then v[4]
               else if k == n[3] && v[3].Some? then v[3] else if k == n[2] && v[2].Some? then v[2]
               else if k == n[1] && v[1].Some? then v[1] else if k == n[0] && v[0].Some? then v[0] else None
  {
    var m1 := One(n[0], v[0]);
    var m2 := m1 + One(n[1], v[1]);
    var m3 := m2 + One(n[2], v[2]);
    var m4 := m3 + One(n[3], v[3]);
    var m5 := m4 + One(n[4], v[4]);
    AddOne(m1, n[1], v[1], k);
    AddOne(m2, n[2], v[2], k);
    AddOne(m3, n[3], v[3], k);
    AddOne(m4, n[4], v[4], k);
    AddOne(m5, n[5], v[5], k);
  }

  function Six(n: seq<string>, v: seq<Option<Json>>): map<string, Json>
    requires |n| == 6 && |v| == 6
  {
    One(n[0], v[0]) + One(n[1], v[1]) + One(n[2], v[2]) + One(n[3], v[3]) + One(n[4], v[4]) + One(n[5], v[5])
  }

  lemma SixMembers(n: seq<string>, v: seq<Option<Json>>, m: map<string, Json>)
    requires |n| == 6 && |v| == 6 && Distinct(n) && m == Six(n, v)
    ensures m.Keys <= {n[0], n[1], n[2], n[3], n[4], n[5]}
    ensures Get(m, n[0]) == v[0] && Get(m, n[1]) == v[1] && Get(m, n[2]) == v[2]
    ensures Get(m, n[3]) == v[3] && Get(m, n[4]) == v[4] && Get(m, n[5]) == v[5]
  {
    forall k | k in m ensures k in {n[0], n[1], n[2], n[3], n[4], n[5]} {
      assert Get(m, k).Some?;
      SixAt(n, v, k);
    }
    SixAt(n, v, n[0]);
    SixAt(n, v, n[1]);
    SixAt(n, v, n[2]);
    SixAt(n, v, n[3]);
    SixAt(n, v, n[4]);
    SixAt(n, v, n[5]);
  }

  lemma ResponseNames()
    ensures Distinct(RESPONSE_NAMES)
  {
    assert "globId"[0] != "result"[0] && "requestId"[2] != "resultMsg"[2];
  }

  const RESPONSE_NAMES := ["globId", "requestId", "result", "resultCode", "resultMsg", "transactionResult"]

  function ResponseValues(r: ApiResult): (v: seq<Option<Json>>)
    ensures |v| == 6
  {
    [OptText(r.globId), OptText(r.requestId), OptText(r.result), OptText(r.resultCode), OptText(r.resultMsg),
     OptList(r.results)]
  }

  lemma ResponseIsSix(r: ApiResult)
    ensures ResponseBlock(r) == Six(RESPONSE_NAMES, ResponseValues(r))
  {
  }

  lemma ResponseBuilt(r: ApiResult)
    ensures IsResponse(ResponseBlock(r), r)
  {
    ResponseNames();
    ResponseIsSix(r);
    SixMembers(RESPONSE_NAMES, ResponseValues(r), ResponseBlock(r));
  }

  /** A non-empty block. */
  function OptBlock(m: map<string, Json>): Option<Json> {
    if m == map[] then None else Some(Obj(m))
  }

  lemma FiveMembers(n: seq<string>, x: Json, y: Json, v: seq<Option<Json>>)
    requires |n| == 5 && |v| == 3 && Distinct(n)
    ensures var m := map[n[0] := x, n[1] := y] + One(n[2], v[0]) + One(n[3], v[1]) + One(n[4], v[2]);
      && m.Keys <= {n[0], n[1], n[2], n[3], n[4]} && Get(m, n[0]) == Some(x) && Get(m, n[1]) == Some(y)
      && Get(m, n[2]) == v[0] && Get(m, n[3]) == v[1] && Get(m, n[4]) == v[2]
  {
  }

  lemma SolNames()
    ensures Distinct(["global_session_key", "turn_id", "agent", "request", "response"])
  {
    assert "turn_id"[0] != "request"[0];
  }

  lemma SolBuilt(r: ApiResult)
    ensures IsSol(SolOf(r), r)
  {
    var n := ["global_session_key", "turn_id", "agent", "request", "response"];
    var request, response := RequestBlock(r), ResponseBlock(r);
    var v := [OptText(r.agentId), OptBlock(request), OptBlock(response)];
    SolNames();
    ResponseBuilt(r);
    FiveMembers(n, Str(r.sessionKey), Str(r.turnId), v);
    assert SolOf(r) == map[n[0] := Str(r.sessionKey), n[1] := Str(r.turnId)] + One(n[2], v[0]) + One(n[3],
        v[1]) + One(n[4], v[2]);
    assert r.payloads != [] ==> "transactionPayload" in request;
  }

  lemma TurnBuilt(r: ApiResult, now: int)
    ensures IsTurn(TurnOf(r, now), r, now)
  {
    SolBuilt(r);
  }

  lemma SaveShape(c: Config, db: Store, k: string, q: ApiResult, turn: Json)
    requires turn == TurnOf(q, db.now) && Session(db, k).Some?
    ensures HandleSaveResult(c, db, k, q) == (AddTurn(c, db, k, turn), TurnSaved(turn))
  {
  }

  lemma SavedTurn(c: Config, tr: seq<Event>, e: Event, k: string, q: ApiResult, turn: Json)
    requires e.step == SaveResult(k, q) && e.response == TurnSaved(turn)
    ensures TurnsIn(tr + [e], k) == TurnsIn(tr, k) + [turn]
  {
    ContentStep(tr, e, k);
  }

  /** The store and the event after a result is saved. */
  lemma SaveFollows(c: Config, db: Store, tr: seq<Event>, k: string, q: ApiResult, turn: Json)
      returns (db': Store, e: Event)
    requires Reached(c, db, tr) && k in db.sessions && Session(db, k).Some? && turn == TurnOf(q, db.now)
    ensures HandleSaveResult(c, db, k, q) == (db', TurnSaved(turn)) && Reached(c, db', tr + [e])
    ensures e.step == SaveResult(k, q) && e.response == TurnSaved(turn)
    ensures db' == db.(turns := db'.turns)
  {
    SaveShape(c, db, k, q, turn);
    DrawReached(c, db, tr, SaveResult(k, q));
    db', e := AddTurn(c, db, k, turn), Event(db.now, SaveResult(k, q), TurnSaved(turn));
  }

  /** Saving a result for a live session adds one turn with its contents behind the others. */
  lemma ResultSaved(c: Config, db: Store, tr: seq<Event>, k: string, q: ApiResult) returns (db': Store, turn: Json)
    requires Reached(c, db, tr) && k in db.sessions
    ensures HandleSaveResult(c, db, k, q) == (db', TurnSaved(turn)) && IsTurn(turn, q, db.now)
    ensures StoredTurns(db, k) == Some(TurnsIn(tr, k)) && StoredTurns(db', k) == Some(TurnsIn(tr, k) + [turn])
    ensures db' == db.(turns := db'.turns)
  {
    LiveSession(c, db, tr, k);
    turn := TurnOf(q, db.now);
    TurnBuilt(q, db.now);
    var e;
    db', e := SaveFollows(c, db, tr, k, q, turn);
    Contents.TurnsKept(c, db, tr, k);
    TurnStored(c, db', tr, e, k, q, turn);
  }

  lemma LiveSession(c: Config, db: Store, tr: seq<Event>, k: string)
    requires Reached(c, db, tr) && k in db.sessions
    ensures Session(db, k).Some?
  {
    var l := LiveBehind(c, db, tr, k);
    SessionRead(c, l, k, db);
  }

  lemma TurnStored(c: Config, db': Store, tr: seq<Event>, e: Event, k: string, q: ApiResult, turn: Json)
    requires Reached(c, db', tr + [e]) && k in db'.sessions
    requires e.step == SaveResult(k, q) && e.response == TurnSaved(turn)
    ensures StoredTurns(db', k) == Some(TurnsIn(tr, k) + [turn])
  {
    SavedTurn(c, tr, e, k, q, turn);
    Contents.TurnsKept(c, db', tr + [e], k);
  }

  // ---------- profiles ----------

  /** The profile names customer n: at its top level, or without one there in its responseData. */
  predicate NamesAtTop(c: Config, profile: map<string, Json>, n: string) {
    && "cusnoN10" in profile && n == Strip(n) != ""
    && var v := profile["cusnoN10"];
       (v.Str? && Strip(v.s) == n) || (v.Int? && v.n != 0 && Strip(c.str(v)) == n)
  }

  predicate NamesNested(c: Config, profile: map<string, Json>, n: string) {
    && "cusnoN10" !in profile && "responseData" in profile && profile["responseData"].Obj?
    && NamesAtTop(c, profile["responseData"].fields, n)
  }

  predicate NamesNobody(profile: map<string, Json>) {
    || ("cusnoN10" !in profile && "responseData" !in profile)
    || ("cusnoN10" in profile && profile["cusnoN10"].Str? && profile["cusnoN10"].s != ""
        && Strip(profile["cusnoN10"].s) == "")
    || ("cusnoN10" !in profile && "responseData" in profile && profile["responseData"].Obj?
        && "cusnoN10" !in profile["responseData"].fields)
  }

  lemma CustomerRead(c: Config, profile: map<string, Json>, n: string)
    ensures NamesAtTop(c, profile, n) || NamesNested(c, profile, n) ==> CustomerIn(c, profile) == Customer(n)
    ensures NamesNobody(profile) ==> CustomerIn(c, profile) == NoCustomer
    ensures "cusnoN10" !in profile && "responseData" in profile && !profile["responseData"].Obj? ==>
      CustomerIn(c, profile) == Malformed
  {
    assert Strip("") == "";
  }

  /** Saving a profile that names a customer: a lookup answers the customer, the profile and what was fetched. */
  lemma ProfileJoins(c: Config, db: Store, tr: seq<Event>, k: string, n: string, profile: map<string, Json>,
      fetched: Option<Json>)
    requires Reached(c, db, tr) && k in db.sessions && (NamesAtTop(c, profile, n) || NamesNested(c, profile, n))
    ensures var (db', a) := HandleUpdateProfile(c, db, k, profile, fetched);
      && a == ProfileSaved(db.now)
      && var r := HandleResolve(c, db', k, None, None);
         && r.Resolved? && r.view.cusno == Some(n) && r.view.realtime == Some(Obj(profile))
         && (fetched.Some? && Truthy(fetched.value) ==> r.view.batch == fetched)
  {
    CustomerRead(c, profile, n);
    var l := LiveBehind(c, db, tr, k);
    SessionRead(c, l, k, db);
    var db', e := JoinMade(c, db, tr, k, n, profile, fetched);
    JoinSeen(c, db', tr, e, k, n, profile, fetched);
  }

  lemma JoinTrace(c: Config, tr: seq<Event>, e: Event, k: string, n: string, profile: map<string, Json>,
      fetched: Option<Json>)
    requires e.step == UpdateProfile(k, profile, fetched) && e.response.ProfileSaved?
        && CustomerIn(c, profile) == Customer(n)
    ensures LastCustomer(c, tr + [e], k) == Some(n) && EverSaved(tr + [e], k)
    ensures LastProfile(c, tr + [e], n) == Some(Obj(profile))
    ensures IsFetched(fetched) ==> FetchedLast(c, tr + [e], k) && LastBatch(c, tr + [e], n) == fetched
  {
    assert (tr + [e])[..|tr|] == tr;
    EverSavedStep(tr, e, k);
    FetchedStep(c, tr, e, k);
  }

  lemma JoinSeen(c: Config, db': Store, tr: seq<Event>, e: Event, k: string, n: string, profile: map<string, Json>,
      fetched: Option<Json>)
    requires Reached(c, db', tr + [e]) && k in db'.sessions
    requires e.step == UpdateProfile(k, profile, fetched) && e.response.ProfileSaved?
        && CustomerIn(c, profile) == Customer(n)
    ensures var r := HandleResolve(c, db', k, None, None);
      && r.Resolved? && r.view.cusno == Some(n) && r.view.realtime == Some(Obj(profile))
      && (IsFetched(fetched) ==> r.view.batch == fetched)
  {
    JoinTrace(c, tr, e, k, n, profile, fetched);
    ResolveKept(c, db', tr + [e], k, None, None);
    if IsFetched(fetched) { BatchKept(c, db', tr + [e], k); }
    BatchSeen(c, db', k);
  }

  lemma BatchSeen(c: Config, db: Store, k: string)
    ensures var r := HandleResolve(c, db, k, None, None);
      r.Resolved? ==> r.view.batch == if r.view.cusno.Some? then ProfileAt(db.batch, r.view.cusno.value) else None
  {
  }

  /** A profile that names nobody is saved under the session's own key and seen while the session has no customer. */
  lemma ProfileAlone(c: Config, db: Store, tr: seq<Event>, k: string, profile: map<string, Json>, fetched: Option<Json>)
      returns (db': Store)
    requires Reached(c, db, tr) && k in db.sessions && NamesNobody(profile) && LastCustomer(c, tr, k).None?
    ensures HandleUpdateProfile(c, db, k, profile, fetched) == (db', ProfileSaved(db.now))
    ensures var r := HandleResolve(c, db', k, None, None);
      r.Resolved? && r.view.cusno.None? && r.view.batch.None? && r.view.realtime == Some(Obj(profile))
  {
    CustomerRead(c, profile, "");
    LiveSession(c, db, tr, k);
    var e;
    db', e := AloneFollows(c, db, tr, k, profile, fetched);
    AloneSeen(c, db', tr, e, k, profile, fetched);
  }

  /** One whose responseData is no object fails and changes nothing. */
  lemma ProfileMalformed(c: Config, db: Store, tr: seq<Event>, k: string, profile: map<string, Json>,
      fetched: Option<Json>)
    requires Reached(c, db, tr) && k in db.sessions
    requires "cusnoN10" !in profile && "responseData" in profile && !profile["responseData"].Obj?
    ensures HandleUpdateProfile(c, db, k, profile, fetched) == (db, Crashed)
  {
    CustomerRead(c, profile, "");
    LiveSession(c, db, tr, k);
    MalformedShape(c, db, k, Obj(profile), fetched);
  }

  lemma MalformedShape(c: Config, db: Store, k: string, profile: Json, fetched: Option<Json>)
    requires Session(db, k).Some?
    ensures StoreProfile(c, db, k, Malformed, profile, fetched) == (db, Crashed)
  {
  }

  lemma AloneFollows(c: Config, db: Store, tr: seq<Event>, k: string, profile: map<string, Json>, fetched: Option<Json>)
      returns (db': Store, e: Event)
    requires Reached(c, db, tr) && k in db.sessions && Session(db, k).Some? && CustomerIn(c, profile).NoCustomer?
    ensures HandleUpdateProfile(c, db, k, profile, fetched) == (db', ProfileSaved(db.now)) && Reached(c, db', tr + [e])
    ensures e.step == UpdateProfile(k, profile, fetched) && e.response == ProfileSaved(db.now) && k in db'.sessions
  {
    AloneShape(c, db, k, Obj(profile), fetched);
    DrawReached(c, db, tr, UpdateProfile(k, profile, fetched));
    db' := StoreProfile(c, db, k, NoCustomer, Obj(profile), fetched).0;
    e := Event(db.now, UpdateProfile(k, profile, fetched), ProfileSaved(db.now));
  }

  lemma AloneShape(c: Config, db: Store, k: string, profile: Json, fetched: Option<Json>)
    requires Session(db, k).Some?
    ensures var (db', a) := StoreProfile(c, db, k, NoCustomer, profile, fetched);
      a == ProfileSaved(db.now) && db'.sessions == db.sessions
  {
  }

  lemma AloneSeen(c: Config, db': Store, tr: seq<Event>, e: Event, k: string, profile: map<string, Json>,
      fetched: Option<Json>)
    requires Reached(c, db', tr + [e]) && k in db'.sessions && LastCustomer(c, tr, k).None?
    requires e.step == UpdateProfile(k, profile, fetched) && e.response.ProfileSaved?
        && CustomerIn(c, profile).NoCustomer?
    ensures var r := HandleResolve(c, db', k, None, None);
      r.Resolved? && r.view.cusno.None? && r.view.batch.None? && r.view.realtime == Some(Obj(profile))
  {
    assert (tr + [e])[..|tr|] == tr;
    EverSavedStep(tr, e, k);
    ResolveKept(c, db', tr + [e], k, None, None);
    BatchSeen(c, db', k);
  }
}
