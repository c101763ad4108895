// The handlers as the service writes them: reads, then Redis writes in order.  Each is proved to do
// to the store, and to answer, exactly what its function in Handlers says.
module Services {
  import opened Values
  import opened RedisStore
  import opened Requests
  import opened Handlers
  import opened RedisAccess

  class AuthService {
    const helper: RedisHelper
    const repo: RedisSessionRepository

    constructor (repo: RedisSessionRepository)
      ensures this.repo == repo && helper == repo.helper
    {
      this.repo, helper := repo, repo.helper;
    }

    ghost predicate Valid() {
      repo.helper == helper
    }

    /** Binds a new jti to the session and issues its two tokens. */
    method CreateTokens(user: string, key: string, jti: string) returns (access: Token, refresh: Token)
      modifies helper`jtis
      ensures helper.jtis == SetEx(old(helper.jtis), jti, key, helper.now + helper.c.ttl)
      ensures access == AccessToken(helper.c, jti, user, helper.now)
          && refresh == RefreshToken(helper.c, jti, user, helper.now)
    {
      helper.SetJtiMapping(jti, key, helper.c.ttl);
      access := AccessToken(helper.c, jti, user, helper.now);
      refresh := RefreshToken(helper.c, jti, user, helper.now);
    }

    /** Signature and expiry, kind if one is asked for, jti claim, binding. */
    method Check(token: Token, kind: Option<TokenKind>) returns (g: Grant)
      ensures g == Authorize(helper.Db(), token, kind)
    {
      if !Accepted(token, helper.now) { return Refused(BadToken); }
      if kind.Some? && token.kind != kind.value { return Refused(WrongKind); }
      if token.jti == "" { return Refused(NoJti); }
      var key := helper.GetGlobalSessionKeyByJti(token.jti);
      g := if key.Some? then Granted(key.value) else Refused(NotBound);
    }

    method VerifyTokenAndGetSession(token: Token) returns (r: Response)
      requires Valid()
      ensures r == HandleVerify(helper.Db(), token)
    {
      var g := Check(token, Some(Access));
      if g.Refused? { return Unauthorized(g.why); }
      var session := repo.Get(g.key);
      if session.None? { return Verified(g.key, Raw(""), false, None); }
      r := Verified(g.key, TextOr(session.value, StateField, ""), true, ExpiresAt(session.value));
    }

    method PingSessionByToken(token: Token) returns (r: Response)
      requires Valid()
      ensures r == HandlePing(helper.Db(), token)
    {
      var g := Check(token, None);
      if g.Refused? { return Unauthorized(g.why); }
      var session := repo.Get(g.key);
      if session.None? { return Pinged(false, None); }
      r := Pinged(true, ExpiresAt(session.value));
    }

    /** Rotation: extend the session, drop the old binding, bind a new jti. */
    method RefreshTokens(token: Token, newJti: string) returns (r: Response)
      requires Valid()
      modifies helper
      ensures (helper.Db(), r) == HandleRotate(helper.c, old(helper.Db()), token, newJti)
    {
      var g := Check(token, Some(Refresh));
      if g.Refused? { return Unauthorized(g.why); }
      repo.RefreshTtl(g.key);
      var access := AccessToken(helper.c, newJti, token.sub, helper.now);
      var refresh := RefreshToken(helper.c, newJti, token.sub, helper.now);
      helper.DeleteJti(token.jti);
      helper.SetJtiMapping(newJti, g.key, helper.c.ttl);
      r := Rotated(g.key, newJti, access, refresh);
    }

    /** Marks the session ended, verifies the token once more and drops its binding. */
    method CloseSessionByToken(token: Token, reason: Option<string>) returns (r: Response)
      requires Valid()
      modifies helper`sessions, helper`jtis
      ensures (helper.Db(), r) == HandleCloseByToken(old(helper.Db()), token, reason)
    {
      var g := Check(token, None);
      if g.Refused? { return Unauthorized(g.why); }
      var session := repo.Get(g.key);
      if session.None? { return NotFound; }
      var updates := Closing(reason, helper.now);
      ClosingGiven(reason, None, helper.now);
      repo.Update(g.key, updates);
      var again := Accepted(token, helper.now);
      if again && token.jti != "" { helper.DeleteJti(token.jti); }
      r := Closed(helper.now, Archive(g.key));
    }
  }

  /** The update dictionary of both close handlers. */
  function Closing(reason: Option<string>, now: int): map<HashField, Option<Text>> {
    map[StateField := Some(Raw(End.Name())), CloseReasonField := RawOption(reason), EndedAtField := Some(Iso(now))]
  }

  lemma ClosingGiven(reason: Option<string>, summary: Option<string>, now: int)
    ensures !IsGiven(summary) ==> Kept(Closing(reason, now)) == CloseFields(reason, summary, now)
    ensures IsGiven(summary)
        ==> Kept(Closing(reason, now)[SummaryField := RawOption(summary)]) == CloseFields(reason, summary, now)
  {
    var updates := if IsGiven(summary) then Closing(reason, now)[SummaryField := RawOption(summary)]
        else Closing(reason, now);
    SameMap(Kept(updates), CloseFields(reason, summary, now));
  }

  function AllGiven(h: Hash): (u: map<HashField, Option<Text>>)
    ensures Kept(u) == h
  {
    map f | f in h :: Some(h[f])
  }

  function RawOption(o: Option<string>): Option<Text> {
    if o.Some? then Some(Raw(o.value)) else None
  }

  class ProfileService {
    const helper: RedisHelper
    const repo: RedisSessionRepository

    constructor (repo: RedisSessionRepository)
      ensures this.repo == repo && helper == repo.helper
    {
      this.repo, helper := repo, repo.helper;
    }

    ghost predicate Valid() {
      repo.helper == helper
    }

    method GetBatchAndRealtimeProfiles(cusno: string) returns (b: Option<Json>, r: Option<Json>)
      ensures b == ProfileAt(helper.batch, cusno) && r == ProfileAt(helper.realtime, cusno)
    {
      b := helper.GetBatchProfile(cusno);
      r := helper.GetRealtimeProfile(cusno);
    }

    /** The customer number in a profile, looked for at the top level and then in responseData. */
    method FindCustomer(profile: map<string, Json>) returns (who: Customer)
      ensures who == CustomerIn(helper.c, profile)
    {
      var raw := Get(profile, "cusnoN10");
      if raw.None? || !Truthy(raw.value) {
        var data := if "responseData" in profile then profile["responseData"] else Obj(map[]);
        if !data.Obj? { return Malformed; }
        raw := Get(data.fields, "cusnoN10");
      }
      if raw.None? || !Truthy(raw.value) { return NoCustomer; }
      var cusno := Strip(StrOf(helper.c.str, raw.value));
      who := if cusno == "" then NoCustomer else Customer(cusno);
    }

    method SaveProfiles(key: string, cusno: string, profile: Json, fetched: Option<Json>)
      requires Valid()
      modifies helper`sessions, helper`realtime, helper`batch
      ensures var db1, until := Update(old(helper.Db()), key, map[CusnoField := Raw(cusno)]), helper.now + helper.c.ttl;
        helper.Db() == db1.(realtime := SaveProfile(db1.realtime, cusno, profile, until),
          batch := if IsFetched(fetched) then SaveProfile(db1.batch, cusno, fetched.value, until) else db1.batch)
    {
      var updates := map[CusnoField := Some(Raw(cusno))];
      assert Kept(updates) == map[CusnoField := Raw(cusno)];
      repo.Update(key, updates);
      helper.SetRealtimeProfile(cusno, profile);
      if IsFetched(fetched) { helper.SetBatchProfile(cusno, fetched.value); }
    }

    /** Saves a realtime profile under its customer number, or under the session key when it has none. */
    method UpdateRealtimePersonalContext(key: string, profile: map<string, Json>, fetched: Option<Json>)
        returns (r: Response)
      requires Valid()
      modifies helper`sessions, helper`realtime, helper`batch
      ensures (helper.Db(), r) == HandleUpdateProfile(helper.c, old(helper.Db()), key, profile, fetched)
    {
      var session := repo.Get(key);
      if session.None? { return NotFound; }
      var who := FindCustomer(profile);
      match who {
        case Malformed => return Crashed;
        case NoCustomer => helper.SetRealtimeProfile(key, Obj(profile));
        case Customer(cusno) => SaveProfiles(key, cusno, Obj(profile), fetched);
      }
      r := ProfileSaved(helper.now);
    }
  }

  class SessionService {
    const helper: RedisHelper
    const repo: RedisSessionRepository
    const auth: AuthService
    const profiles: ProfileService

    constructor (repo: RedisSessionRepository)
      ensures Valid() && this.repo == repo
    {
      this.repo, helper := repo, repo.helper;
      auth := new AuthService(repo);
      profiles := new ProfileService(repo);
    }

    ghost predicate Valid() {
      repo.helper == helper && auth.Valid() && auth.helper == helper && profiles.Valid() && profiles.helper == helper
    }

    /** Tokens first, then the session. */
    method CreateSession(s: Step) returns (r: Response)
      requires Valid() && s.Create?
      modifies helper`jtis, helper`sessions
      ensures (helper.Db(), r) == HandleCreate(helper.c, old(helper.Db()), s)
    {
      var access, refresh := auth.CreateTokens(s.user, s.key, s.jti);
      repo.Create(s);
      r := Created(s.key, s.jti, access, refresh);
    }

    method ResolveSession(key: string, kind: Option<AgentType>, agentId: Option<string>) returns (r: Response)
      requires Valid()
      ensures r == HandleResolve(helper.c, helper.Db(), key, kind, agentId)
    {
      var session := repo.Get(key);
      if session.None? { return NotFound; }
      var h := session.value;
      var agent: Option<Json> := None;
      if kind == Some(Task) && IsGiven(agentId) {
        var mapping := repo.GetLocalMapping(key, agentId.value);
        if mapping.Some? { agent := mapping.value.sessionKey; }
      }
      var batch, realtime := FindProfiles(key, Cusno(h));
      var reference := ParseField(h, ReferenceField);
      var task, history, intent, taskId, queue, count := ReadReference(reference);
      var ids := ReadTurnIds(h);
      r := Resolved(SessionView(ViewPlain(h), agent, Cusno(h), batch, realtime, reference,
                                task, history, intent, taskId, queue, count, ids));
    }

    /** The profiles of the customer, or the one under the session's own key. */
    method FindProfiles(key: string, cusno: Option<string>) returns (batch: Option<Json>, realtime: Option<Json>)
      requires Valid()
      ensures batch == if cusno.Some? then ProfileAt(helper.batch, cusno.value) else None
      ensures realtime == ProfileAt(helper.realtime, if cusno.Some? then cusno.value else key)
    {
      if cusno.Some? {
        batch, realtime := profiles.GetBatchAndRealtimeProfiles(cusno.value);
      } else {
        realtime := helper.GetRealtimeProfile(key);
        batch := None;
      }
    }

    /** Takes the parts of a reference, then drops those of an unexpected type. */
    method ReadReference(reference: Option<Json>)
      returns (task: Option<Json>, history: Option<Json>, intent: Option<Json>, taskId: Option<Json>,
          queue: Option<Json>, count: Option<Json>)
      ensures var m := ObjectOf(reference);
        && task == Given(m, "active_task") && intent == Given(m, "current_intent")
            && taskId == Given(m, "current_task_id")
        && history == Fitting(Given(m, "conversation_history"), false)
        && queue == Fitting(Given(m, "task_queue_status"), false)
        && count == Fitting(Given(m, "turn_count"), true)
    {
      task, history, intent, taskId, queue, count := None, None, None, None, None, None;
      if reference.Some? && reference.value.Obj? {
        var m := reference.value.fields;
        task, history, intent := Given(m, "active_task"), Given(m, "conversation_history"), Given(m, "current_intent");
        taskId, queue, count := Given(m, "current_task_id"), Given(m, "task_queue_status"), Given(m, "turn_count");
      }
      if history.Some? && !history.value.Arr? { history := None; }
      if queue.Some? && !queue.value.Arr? { queue := None; }
      if count.Some? && !count.value.Int? && !count.value.Bool? { count := None; }
    }

    /** The stored turn ids as strings, if the field holds a list. */
    method ReadTurnIds(h: Hash) returns (ids: Option<seq<string>>)
      ensures ids == TurnIds(helper.c, h)
    {
      var parsed := ParseField(h, TurnIdsField);
      if parsed.None? || !parsed.value.Arr? { return None; }
      var items := parsed.value.items;
      var strings: seq<string> := [];
      for i := 0 to |items|
        invariant |strings| == i && forall j :: 0 <= j < i ==> strings[j] == StrOf(helper.c.str, items[j])
      {
        strings := strings + [StrOf(helper.c.str, items[i])];
      }
      assert strings == TurnIds(helper.c, h).value;
      ids := Some(strings);
    }

    method CloseSession(key: string, reason: Option<string>, summary: Option<string>) returns (r: Response)
      requires Valid()
      modifies helper`sessions
      ensures (helper.Db(), r) == HandleCloseByKey(old(helper.Db()), key, reason, summary)
    {
      var session := repo.Get(key);
      if session.None? { return NotFound; }
      var updates := Closing(reason, helper.now);
      if IsGiven(summary) { updates := updates[SummaryField := RawOption(summary)]; }
      ClosingGiven(reason, summary, helper.now);
      repo.Update(key, updates);
      r := Closed(helper.now, Archive(key));
    }

    /** The fields of a patch that are stored as given, gathered one by one. */
    method GatherFields(q: PatchRequest) returns (updates: Hash)
      ensures updates == PlainUpdates(q, helper.now)
    {
      updates := map[];
      if q.state.Some? { updates := updates[StateField := Raw(q.state.value.Name())]; }
      if q.patch.Some? { updates := GatherPatch(q, q.patch.value, updates); }
      SameMap(updates, PlainUpdates(q, helper.now));
    }

    method GatherPatch(q: PatchRequest, p: StatePatch, before: Hash) returns (updates: Hash)
      requires q.patch == Some(p)
      requires forall f: HashField :: Get(before, f) == if f.StateField? then PlainUpdate(q, helper.now, f) else None
      ensures forall f: HashField :: Get(updates, f) == PlainUpdate(q, helper.now, f)
    {
      updates := before;
      if IsGiven(p.subagentStatus) { updates := updates[SubagentField := Raw(p.subagentStatus.value)]; }
      if IsGiven(p.actionOwner) { updates := updates[ActionOwnerField := Raw(p.actionOwner.value)]; }
      if IsGiven(p.cushionMessage) { updates := updates[CushionField := Raw(p.cushionMessage.value)]; }
      if p.attributes.Some? && p.attributes.value != map[] {
        updates := updates[AttributesField := Dumped(Obj(p.attributes.value))];
      }
      if IsGiven(p.lastAgentId) || p.lastResponseType.Some? {
        updates := updates[LastEventField := Dumped(LastEvent(p, helper.now))];
      }
    }

    /** Everything a patch writes into the session hash besides the agent mapping. */
    method CollectUpdates(h: Hash, q: PatchRequest) returns (updates: Hash)
      ensures updates == PatchUpdates(helper.c, h, q, helper.now)
    {
      updates := GatherFields(q);
      if q.patch.Some? {
        var merged := Merge(q.patch.value);
        if merged != map[] { updates := updates[ReferenceField := Dumped(Obj(merged))]; }
      }
      if q.turnId.Some? {
        var ids := Accumulate(h, q.turnId.value);
        updates := updates[TurnIdsField := DumpIds(ids)];
      }
    }

    method PatchSessionState(key: string, q: PatchRequest) returns (r: Response)
      requires Valid()
      modifies helper
      ensures (helper.Db(), r) == HandlePatch(helper.c, old(helper.Db()), key, q)
    {
      var session := repo.Get(key);
      if session.None? { return NotFound; }
      if q.state == Some(Talk) { repo.RefreshTtl(key); }
      r := ApplyPatch(key, session.value, q);
    }

    /** Validation, then the agent mapping, then the session fields. */
    method ApplyPatch(key: string, h: Hash, q: PatchRequest) returns (r: Response)
      requires Valid()
      modifies helper`sessions
      ensures var db := old(helper.Db());
        (helper.Db(), r) == if Rejected(q) then (db, BadRequest) else
          (Update(if RegistersAgent(q)
              then SetLocalMapping(db, key, q.patch.value.lastAgentId.value, AgentOf(q.patch.value)) else db,
                  key, PatchUpdates(helper.c, h, q, db.now)), Patched(db.now))
    {
      if q.patch.Some? {
        var merged := Merge(q.patch.value);
        if merged != map[] && !ValidReference(merged) { return BadRequest; }
        RegisterAgent(key, q, q.patch.value);
      }
      var updates := CollectUpdates(h, q);
      repo.Update(key, AllGiven(updates));
      r := Patched(helper.now);
    }

    /** The patch's reference information with the two top-level fields put in. */
    method Merge(p: StatePatch) returns (merged: map<string, Json>)
      ensures merged == MergedReference(p)
    {
      merged := if p.reference.Some? then p.reference.value else map[];
      if p.currentIntent.Some? { merged := merged["current_intent" := Str(p.currentIntent.value)]; }
      if p.turnCount.Some? { merged := merged["turn_count" := Int(p.turnCount.value)]; }
    }

    method RegisterAgent(key: string, q: PatchRequest, p: StatePatch)
      requires Valid() && q.patch == Some(p)
      modifies helper`sessions
      ensures helper.Db() == if RegistersAgent(q)
          then SetLocalMapping(old(helper.Db()), key, p.lastAgentId.value, AgentOf(p))
                             else old(helper.Db())
    {
      if IsGiven(p.agentSessionKey) && IsGiven(p.lastAgentId) {
        repo.SetLocalMapping(key, p.lastAgentId.value, AgentOf(p));
      }
    }

    /** The turn ids stored so far and this one, once. */
    method Accumulate(h: Hash, id: string) returns (ids: seq<string>)
      ensures var seen := TurnIds(helper.c, h); ids == AddTurnId(if seen.Some? then seen.value else [], id)
    {
      var parsed := ReadTurnIds(h);
      ids := if parsed.Some? then parsed.value else [];
      if id !in ids { ids := ids + [id]; }
    }

    /** Builds the turn document block by block and appends it to the session's turns. */
    method SaveApiResult(key: string, q: ApiResult) returns (r: Response)
      requires Valid()
      modifies helper`turns
      ensures (helper.Db(), r) == HandleSaveResult(helper.c, old(helper.Db()), key, q)
    {
      var session := repo.Get(key);
      if session.None? { return NotFound; }
      var turn := BuildTurn(q);
      repo.AddTurn(key, turn);
      r := TurnSaved(turn);
    }

    method BuildTurn(q: ApiResult) returns (turn: Json)
      ensures turn == TurnOf(q, helper.now)
    {
      var request: map<string, Json> := map[];
      if q.payloads != [] { request := request["transactionPayload" := Arr(q.payloads)]; }
      var response := BuildResponse(q);
      var sol := map["global_session_key" := Str(q.sessionKey), "turn_id" := Str(q.turnId)];
      sol := PutGiven(sol, "agent", q.agentId);
      sol := PutBlock(sol, "request", request);
      sol := PutBlock(sol, "response", response);
      turn := Obj(map["turn_id" := Str(q.turnId), "global_session_key" := Str(q.sessionKey),
                      "timestamp" := Int(helper.now), "metadata" := Obj(map["sol_api" := Obj(sol)])]);
    }

    method BuildResponse(q: ApiResult) returns (response: map<string, Json>)
      ensures response == ResponseBlock(q)
    {
      response := PutGiven(map[], "globId", q.globId);
      assert response == OptMember("globId", q.globId);
      response := PutGiven(response, "requestId", q.requestId);
      response := PutGiven(response, "result", q.result);
      response := PutGiven(response, "resultCode", q.resultCode);
      response := PutGiven(response, "resultMsg", q.resultMsg);
      response := PutList(response, "transactionResult", q.results);
    }

    method PutList(m: map<string, Json>, name: string, items: seq<Json>) returns (r: map<string, Json>)
      ensures r == m + if items != [] then map[name := Arr(items)] else map[]
    {
      r := m;
      if items != [] { r := r[name := Arr(items)]; }
    }

    method PutGiven(m: map<string, Json>, name: string, v: Option<string>) returns (r: map<string, Json>)
      ensures r == m + OptMember(name, v)
    {
      r := m;
      if v.Some? { r := r[name := Str(v.value)]; }
    }

    method PutBlock(m: map<string, Json>, name: string, block: map<string, Json>) returns (r: map<string, Json>)
      ensures r == m + if block != map[] then map[name := Obj(block)] else map[]
    {
      r := m;
      if block != map[] { r := r[name := Obj(block)]; }
    }
  }
}
