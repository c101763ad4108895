// What each handler does to the store and answers, as a function of the store.
// The classes in Services.dfy are proved against these functions.
module Handlers {
  import opened Values
  import opened RedisStore
  import opened Requests

  // ---------- fields of the session hash ----------

  function TextOr(h: Hash, field: HashField, default: string): Text {
    if field in h then h[field] else Raw(default)
  }

  predicate Filled(h: Hash, field: HashField) {
    field in h && h[field] != Raw("")
  }

  /** `session.get("cusno")` where truthy.  The field is only ever written as raw text. */
  function Cusno(h: Hash): Option<string> {
    if CusnoField in h && h[CusnoField].Raw? then NonEmpty(h[CusnoField].s) else None
  }

  /** The key the session's realtime profile is looked up under. */
  function EffectiveKey(h: Hash, key: string): string {
    if Cusno(h).Some? then Cusno(h).value else key
  }

  function ParseField(h: Hash, field: HashField): Option<Json> {
    if field in h then Loads(h[field]) else None
  }

  function ObjectOf(j: Option<Json>): map<string, Json> {
    if j.Some? && j.value.Obj? then j.value.fields else map[]
  }

  function ExpiresAt(h: Hash): Option<int> {
    if ExpiresAtField in h then FromIso(h[ExpiresAtField]) else None
  }

  function EncodeAgent(a: Agent): Json {
    Obj(map["agent_session_key" := Str(a.sessionKey), "agent_type" := Str(a.kind)])
  }

  /** `[str(t) for t in parsed]` when the parsed field is a list. */
  function TurnIds(c: Config, h: Hash): Option<seq<string>> {
    var j := ParseField(h, TurnIdsField);
    if j.Some? && j.value.Arr? then
      Some(seq(|j.value.items|, i requires 0 <= i < |j.value.items| => StrOf(c.str, j.value.items[i])))
    else None
  }

  function AddTurnId(ids: seq<string>, id: string): seq<string> {
    if id in ids then ids else ids + [id]
  }

  function DumpIds(ids: seq<string>): Text {
    Dumped(Arr(seq(|ids|, i requires 0 <= i < |ids| => Str(ids[i]))))
  }

  // ---------- repository ----------

  /** The session hash, or None when Redis answers with an empty one. */
  function Session(db: Store, key: string): Option<Hash> {
    if key in db.sessions && db.sessions[key].value != map[] then Some(db.sessions[key].value) else None
  }

  function Stamped(fields: Hash, now: int): (u: Hash)
    ensures PlainOnly(fields) ==> PlainOnly(u)
  {
    fields[UpdatedAtField := Iso(now)]
  }

  /** Partial update: absent values are dropped and `updated_at` is always set. */
  function Update(db: Store, key: string, fields: Hash): Store {
    if key in db.sessions then
      db.(sessions := HSet(db.sessions, key, Stamped(fields, db.now)))
    else db
  }

  /** The session, its turns and its profiles all get a fresh lease of life. */
  function RefreshTtl(c: Config, db: Store, key: string): Store {
    match Session(db, key)
    case None => db
    case Some(h) =>
      var until := db.now + c.ttl;
      db.(sessions := db.sessions[key := Entry(h[ExpiresAtField := Iso(until)], Some(until))],
          turns := ExpireAt(db.turns, key, until),
          realtime := ExpireAt(db.realtime, EffectiveKey(h, key), until),
          batch := if Cusno(h).Some? then ExpireAt(db.batch, Cusno(h).value, until) else db.batch)
  }

  function SetLocalMapping(db: Store, key: string, agentId: string, agent: Agent): Store {
    match Session(db, key)
    case None => db
    case Some(h) =>
      var agents := ObjectOf(ParseField(h, AgentsField))[agentId := EncodeAgent(agent)];
      db.(sessions := HSet(db.sessions, key, map[AgentsField := Dumped(Obj(agents))]))
  }

  /** get_local_mapping */
  function FindMapping(db: Store, key: string, agentId: string): Option<LocalMapping> {
    match Session(db, key)
    case None => None
    case Some(h) =>
      var agents := ObjectOf(ParseField(h, AgentsField));
      if agentId in agents && Truthy(agents[agentId]) then
        var pair := ObjectOf(Some(agents[agentId]));
        Some(LocalMapping(Get(pair, "agent_session_key"), Get(pair, "agent_type")))
      else None
  }

  function SessionKeyOf(m: Option<LocalMapping>): Option<Json> {
    if m.Some? then m.value.sessionKey else None
  }

  function LoadAll(ts: seq<Text>): Option<seq<Json>> {
    if ts == [] then Some([]) else
    match (Loads(ts[0]), LoadAll(ts[1..]))
    case (Some(j), Some(js)) => Some([j] + js)
    case _ => None
  }

  /** The saved turns; None stands for a decoding error. */
  function StoredTurns(db: Store, key: string): Option<seq<Json>> {
    if key in db.turns then LoadAll(db.turns[key].value) else Some([])
  }

  function AddTurn(c: Config, db: Store, key: string, turn: Json): Store {
    db.(turns := ExpireAt(RPush(db.turns, key, Dumped(turn)), key, db.now + c.ttl))
  }

  function ProfileAt(t: Table<Text>, key: string): Option<Json> {
    if key in t && t[key].value != Raw("") then Loads(t[key].value) else None
  }

  // ---------- tokens ----------

  /** The session a jti resolves to. */
  function KeyOfJti(db: Store, jti: string): Option<string> {
    if jti in db.jtis then NonEmpty(db.jtis[jti].value) else None
  }

  datatype Grant = Granted(key: string) | Refused(why: Refusal)

  /** Signature and expiry, then the kind when one is asked for, then the binding. */
  function Authorize(db: Store, t: Token, kind: Option<TokenKind>): Grant {
    if !Accepted(t, db.now) then Refused(BadToken)
    else if kind.Some? && t.kind != kind.value then Refused(WrongKind)
    else if t.jti == "" then Refused(NoJti)
    else match KeyOfJti(db, t.jti)
      case None => Refused(NotBound)
      case Some(key) => Granted(key)
  }

  // ---------- handlers ----------

  function NewSession(c: Config, s: Step, now: int): Hash
    requires s.Create?
  {
    var h := map[SessionKeyField := Raw(s.key), UserIdField := Raw(s.user),
        ChannelField := Raw(if s.channel.Some? then s.channel.value.eventChannel else "utterance"),
        ConversationIdField := Raw(""), StateField := Raw("start"),
        TaskQueueField := Raw("null"), SubagentField := Raw("undefined"),
        ProfileField := Dumped(Obj(map[])), ExpiresAtField := Iso(now + c.ttl),
        CreatedAtField := Iso(now), UpdatedAtField := Iso(now), TriggerIdField := Raw(s.trigger)];
    if s.channel.Some? then h[StartTypeField := Raw(s.channel.value.eventType)] else h
  }

  function HandleCreate(c: Config, db: Store, s: Step): (Store, Response)
    requires s.Create?
  {
    var db1 := db.(jtis := SetEx(db.jtis, s.jti, s.key, db.now + c.ttl));
    var db2 := if Session(db1, s.key).Some? then db1 else
      db1.(sessions := ExpireAt(HSet(db1.sessions, s.key, NewSession(c, s, db.now)), s.key, db.now + c.ttl));
    (db2, Created(s.key, s.jti, AccessToken(c, s.jti, s.user, db.now), RefreshToken(c, s.jti, s.user, db.now)))
  }

  function HandleVerify(db: Store, t: Token): Response {
    match Authorize(db, t, Some(Access))
    case Refused(why) => Unauthorized(why)
    case Granted(key) =>
      match Session(db, key)
      case None => Verified(key, Raw(""), false, None)
      case Some(h) => Verified(key, TextOr(h, StateField, ""), true, ExpiresAt(h))
  }

  function HandlePing(db: Store, t: Token): Response {
    match Authorize(db, t, None)
    case Refused(why) => Unauthorized(why)
    case Granted(key) =>
      match Session(db, key)
      case None => Pinged(false, None)
      case Some(h) => Pinged(true, ExpiresAt(h))
  }

  function HandleRotate(c: Config, db: Store, t: Token, newJti: string): (Store, Response) {
    match Authorize(db, t, Some(Refresh))
    case Refused(why) => (db, Unauthorized(why))
    case Granted(key) =>
      var db1 := RefreshTtl(c, db, key);
      var db2 := db1.(jtis := SetEx(Del(db1.jtis, t.jti), newJti, key, db.now + c.ttl));
      (db2, Rotated(key, newJti, AccessToken(c, newJti, t.sub, db.now), RefreshToken(c, newJti, t.sub, db.now)))
  }

  /** The patch's reference information overridden by the two top-level fields. */
  function MergedReference(p: StatePatch): map<string, Json> {
    (if p.reference.Some? then p.reference.value else map[])
    + (if p.currentIntent.Some? then map["current_intent" := Str(p.currentIntent.value)] else map[])
    + (if p.turnCount.Some? then map["turn_count" := Int(p.turnCount.value)] else map[])
  }

  /** A history must be a list and a turn count an int (bool is an int in Python); null passes. */
  predicate ValidReference(r: map<string, Json>) {
    && ("conversation_history" in r ==> r["conversation_history"].Null? || r["conversation_history"].Arr?)
    && ("turn_count" in r ==> r["turn_count"].Null? || r["turn_count"].Int? || r["turn_count"].Bool?)
  }

  predicate Rejected(r: PatchRequest) {
    r.patch.Some? && MergedReference(r.patch.value) != map[] && !ValidReference(MergedReference(r.patch.value))
  }

  predicate RegistersAgent(r: PatchRequest) {
    r.patch.Some? && IsGiven(r.patch.value.agentSessionKey) && IsGiven(r.patch.value.lastAgentId)
  }

  function AgentOf(p: StatePatch): Agent
    requires p.agentSessionKey.Some?
  {
    Agent(p.agentSessionKey.value, if p.lastAgentType.Some? then p.lastAgentType.value.Name() else "task")
  }

  function OptStr(o: Option<string>): Json {
    if o.Some? then Str(o.value) else Null
  }

  function LastEvent(p: StatePatch, now: int): Json {
    Obj(map["event_type" := Str("AGENT_RESPONSE"), "agent_id" := OptStr(p.lastAgentId),
            "agent_type" := OptStr(if p.lastAgentType.Some? then Some(p.lastAgentType.value.Name()) else None),
            "response_type" := OptStr(p.lastResponseType), "updated_at" := Int(now)])
  }

  /** Sets a field under a condition. */
  function With(h: Hash, on: bool, f: HashField, v: Text): (r: Hash)
    ensures PlainOnly(h) && !IsDecoded(f) ==> PlainOnly(r)
  {
    if on then h[f := v] else h
  }

  /** What a patch writes into a field that is stored as given. */
  function PlainUpdate(r: PatchRequest, now: int, f: HashField): Option<Text> {
    match f
    case StateField => if r.state.Some? then Some(Raw(r.state.value.Name())) else None
    case SubagentField =>
      if r.patch.Some? && IsGiven(r.patch.value.subagentStatus) then Some(RawOf(r.patch.value.subagentStatus)) else None
    case ActionOwnerField =>
      if r.patch.Some? && IsGiven(r.patch.value.actionOwner) then Some(RawOf(r.patch.value.actionOwner)) else None
    case CushionField =>
      if r.patch.Some? && IsGiven(r.patch.value.cushionMessage) then Some(RawOf(r.patch.value.cushionMessage)) else None
    case AttributesField =>
      if r.patch.Some? && r.patch.value.attributes.Some? && r.patch.value.attributes.value != map[]
      then Some(Dumped(Obj(r.patch.value.attributes.value))) else None
    case LastEventField =>
      if r.patch.Some? && (IsGiven(r.patch.value.lastAgentId) || r.patch.value.lastResponseType.Some?)
      then Some(Dumped(LastEvent(r.patch.value, now))) else None
    case _ => None
  }

  function PlainUpdates(r: PatchRequest, now: int): (u: Hash)
    ensures PlainOnly(u)
  {
    map f: HashField | PlainUpdate(r, now, f).Some? :: PlainUpdate(r, now, f).value
  }

  function RawOf(o: Option<string>): Text {
    Raw(if o.Some? then o.value else "")
  }

  function PatchUpdates(c: Config, h: Hash, r: PatchRequest, now: int): Hash {
    var merged := if r.patch.Some? then MergedReference(r.patch.value) else map[];
    var seen := TurnIds(c, h);
    var u := With(PlainUpdates(r, now), merged != map[], ReferenceField, Dumped(Obj(merged)));
    if r.turnId.None? then u
    else u[TurnIdsField := DumpIds(AddTurnId(if seen.Some? then seen.value else [], r.turnId.value))]
  }

  function HandlePatch(c: Config, db: Store, key: string, r: PatchRequest): (Store, Response) {
    match Session(db, key)
    case None => (db, NotFound)
    case Some(h) =>
      var db1 := if r.state == Some(Talk) then RefreshTtl(c, db, key) else db;
      if Rejected(r) then (db1, BadRequest) else
      var db2 := if RegistersAgent(r)
        then SetLocalMapping(db1, key, r.patch.value.lastAgentId.value, AgentOf(r.patch.value)) else db1;
      (Update(db2, key, PatchUpdates(c, h, r, db.now)), Patched(db.now))
  }

  function ViewPlain(h: Hash): PlainView {
    var event := ParseField(h, LastEventField);
    PlainView(
      TextOr(h, TriggerIdField, ""),
      if Filled(h, ChannelField) || Filled(h, StartTypeField)
        then Some((TextOr(h, StartTypeField, ""), TextOr(h, ChannelField, ""))) else None,
      TextOr(h, StateField, "start"),
      Get(h, StateField) == Some(Raw("start")),
      TextOr(h, TaskQueueField, "null"),
      TextOr(h, SubagentField, "undefined"),
      if event.Some? && event.value.Obj? && Truthy(event.value) then event else None)
  }

  /** `m.get(key)`, where null is Python's None. */
  function Given(m: map<string, Json>, key: string): Option<Json> {
    if key in m && !m[key].Null? then Some(m[key]) else None
  }

  /** Drops a value that is not an int (which bool is), or not a list. */
  function Fitting(v: Option<Json>, number: bool): Option<Json> {
    if v.Some? && (if number then v.value.Int? || v.value.Bool? else v.value.Arr?) then v else None
  }

  function View(plain: PlainView, agent: Option<Json>, cusno: Option<string>, batch: Option<Json>,
                realtime: Option<Json>, reference: Option<Json>, turnIds: Option<seq<string>>): SessionView
  {
    var m := ObjectOf(reference);
    SessionView(plain, agent, cusno, batch, realtime, reference,
      Given(m, "active_task"),
      Fitting(Given(m, "conversation_history"), false),
      Given(m, "current_intent"),
      Given(m, "current_task_id"),
      Fitting(Given(m, "task_queue_status"), false),
      Fitting(Given(m, "turn_count"), true),
      turnIds)
  }

  function HandleResolve(c: Config, db: Store, key: string, kind: Option<AgentType>, agentId: Option<string>)
    : Response
  {
    match Session(db, key)
    case None => NotFound
    case Some(h) =>
      var agent := if kind == Some(Task) && IsGiven(agentId)
        then SessionKeyOf(FindMapping(db, key, agentId.value)) else None;
      Resolved(View(ViewPlain(h), agent, Cusno(h),
        if Cusno(h).Some? then ProfileAt(db.batch, Cusno(h).value) else None,
        ProfileAt(db.realtime, EffectiveKey(h, key)),
        ParseField(h, ReferenceField), TurnIds(c, h)))
  }

  function Archive(key: string): string {
    "arch_" + key
  }

  function CloseField(reason: Option<string>, summary: Option<string>, now: int, f: HashField): Option<Text> {
    match f
    case StateField => Some(Raw("end"))
    case EndedAtField => Some(Iso(now))
    case CloseReasonField => if reason.Some? then Some(Raw(reason.value)) else None
    case SummaryField => if IsGiven(summary) then Some(Raw(summary.value)) else None
    case _ => None
  }

  function CloseFields(reason: Option<string>, summary: Option<string>, now: int): (u: Hash)
    ensures PlainOnly(u)
  {
    map f: HashField | CloseField(reason, summary, now, f).Some? :: CloseField(reason, summary, now, f).value
  }

  function HandleCloseByKey(db: Store, key: string, reason: Option<string>, summary: Option<string>)
    : (Store, Response)
  {
    if Session(db, key).None? then (db, NotFound)
    else (Update(db, key, CloseFields(reason, summary, db.now)), Closed(db.now, Archive(key)))
  }

  function HandleCloseByToken(db: Store, t: Token, reason: Option<string>): (Store, Response) {
    match Authorize(db, t, None)
    case Refused(why) => (db, Unauthorized(why))
    case Granted(key) =>
      if Session(db, key).None? then (db, NotFound) else
      var db1 := Update(db, key, CloseFields(reason, None, db.now));
      (db1.(jtis := Del(db1.jtis, t.jti)), Closed(db.now, Archive(key)))
  }

  function OptMember(name: string, v: Option<string>): map<string, Json> {
    if v.Some? then map[name := Str(v.value)] else map[]
  }

  function RequestBlock(r: ApiResult): map<string, Json> {
    if r.payloads != [] then map["transactionPayload" := Arr(r.payloads)] else map[]
  }

  function ResponseBlock(r: ApiResult): map<string, Json> {
    OptMember("globId", r.globId) + OptMember("requestId", r.requestId)
    + OptMember("result", r.result) + OptMember("resultCode", r.resultCode) + OptMember("resultMsg", r.resultMsg)
    + if r.results != [] then map["transactionResult" := Arr(r.results)] else map[]
  }

  function SolOf(r: ApiResult): map<string, Json> {
    map["global_session_key" := Str(r.sessionKey), "turn_id" := Str(r.turnId)]
    + OptMember("agent", r.agentId)
    + (if RequestBlock(r) != map[] then map["request" := Obj(RequestBlock(r))] else map[])
    + (if ResponseBlock(r) != map[] then map["response" := Obj(ResponseBlock(r))] else map[])
  }

  /** The turn document built from an API result. */
  function TurnOf(r: ApiResult, now: int): Json {
    Obj(map["turn_id" := Str(r.turnId), "global_session_key" := Str(r.sessionKey), "timestamp" := Int(now),
            "metadata" := Obj(map["sol_api" := Obj(SolOf(r))])])
  }

  function HandleSaveResult(c: Config, db: Store, key: string, r: ApiResult): (Store, Response) {
    StoreTurn(c, db, key, TurnOf(r, db.now))
  }

  function StoreTurn(c: Config, db: Store, key: string, turn: Json): (Store, Response) {
    if Session(db, key).None? then (db, NotFound) else (AddTurn(c, db, key, turn), TurnSaved(turn))
  }

  datatype Customer = NoCustomer | Customer(cusno: string) | Malformed

  /** The customer number in a profile: top level first, then responseData. */
  function CustomerIn(c: Config, profile: map<string, Json>): (r: Customer)
    ensures r.Customer? ==> r.cusno != ""
  {
    var top := Get(profile, "cusnoN10");
    if top.Some? && Truthy(top.value) then CustomerOf(c, top.value)
    else if "responseData" !in profile then NoCustomer
    else if !profile["responseData"].Obj? then Malformed
    else
      var nested := Get(profile["responseData"].fields, "cusnoN10");
      if nested.Some? && Truthy(nested.value) then CustomerOf(c, nested.value) else NoCustomer
  }

  function CustomerOf(c: Config, raw: Json): (r: Customer)
    ensures r.Customer? ==> r.cusno != ""
  {
    var s := Strip(StrOf(c.str, raw));
    if s == "" then NoCustomer else Customer(s)
  }

  function SaveProfile(t: Table<Text>, key: string, profile: Json, deadline: int): Table<Text> {
    ExpireAt(Set(t, key, Dumped(profile)), key, deadline)
  }

  /** The batch profile service found something that is worth storing. */
  predicate IsFetched(fetched: Option<Json>) {
    fetched.Some? && Truthy(fetched.value)
  }

  function HandleUpdateProfile(c: Config, db: Store, key: string, profile: map<string, Json>, fetched: Option<Json>)
    : (Store, Response)
  {
    StoreProfile(c, db, key, CustomerIn(c, profile), Obj(profile), fetched)
  }

  function StoreProfile(c: Config, db: Store, key: string, who: Customer, profile: Json, fetched: Option<Json>)
    : (Store, Response)
  {
    if Session(db, key).None? then (db, NotFound) else
    var until := db.now + c.ttl;
    match who
    case Malformed => (db, Crashed)
    case NoCustomer =>
      (db.(realtime := SaveProfile(db.realtime, key, profile, until)), ProfileSaved(db.now))
    case Customer(cusno) =>
      var db1 := Update(db, key, map[CusnoField := Raw(cusno)]);
      (db1.(realtime := SaveProfile(db1.realtime, cusno, profile, until),
            batch := if IsFetched(fetched) then SaveProfile(db1.batch, cusno, fetched.value, until) else db1.batch),
       ProfileSaved(db.now))
  }

  /** One step of the service. */
  function Handle(c: Config, db: Store, s: Step): (Store, Response) {
    match s
    case Create(_, _, _, _, _) => HandleCreate(c, db, s)
    case Verify(t) => (db, HandleVerify(db, t))
    case Ping(t) => (db, HandlePing(db, t))
    case Rotate(t, newJti) => HandleRotate(c, db, t, newJti)
    case Patch(key, r) => HandlePatch(c, db, key, r)
    case Resolve(key, kind, agentId) => (db, HandleResolve(c, db, key, kind, agentId))
    case CloseByKey(key, reason, summary) => HandleCloseByKey(db, key, reason, summary)
    case CloseByToken(t, reason) => HandleCloseByToken(db, t, reason)
    case SaveResult(key, r) => HandleSaveResult(c, db, key, r)
    case UpdateProfile(key, profile, fetched) => HandleUpdateProfile(c, db, key, profile, fetched)
    case GetTurns(key) => (db, Turns(StoredTurns(db, key)))
    case Tick(d) => (Elapse(db, d), Ticked)
  }
}
