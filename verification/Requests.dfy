// Configuration, tokens, requests and responses.
module Requests {
  import opened Values

  /** Deployment settings.  `str` is Python's str() on a JSON value. */
  datatype Config = Config(ttl: int, accessLife: int, refreshLife: int, str: Json -> string)

  datatype TokenKind = Access | Refresh | OtherKind

  /** A JWT.  `genuine` says the signature verifies; a missing `jti` claim is the empty string. */
  datatype Token = Token(jti: string, sub: string, exp: int, kind: TokenKind, genuine: bool)

  /** jwt.decode accepts a token strictly before its expiry (section 4.1.4 of RFC 7519). */
  predicate Accepted(t: Token, now: int) {
    t.genuine && now < t.exp
  }

  function AccessToken(c: Config, jti: string, user: string, now: int): Token {
    Token(jti, user, now + c.accessLife, Access, true)
  }

  function RefreshToken(c: Config, jti: string, user: string, now: int): Token {
    Token(jti, user, now + c.refreshLife, Refresh, true)
  }

  datatype SessionState = Start | Talk | End {
    function Name(): string {
      match this
      case Start => "start"
      case Talk => "talk"
      case End => "end"
    }
  }

  datatype AgentType = Knowledge | Task {
    function Name(): string {
      match this
      case Knowledge => "knowledge"
      case Task => "task"
    }
  }

  datatype Agent = Agent(sessionKey: string, kind: string)

  datatype Channel = Channel(eventType: string, eventChannel: string)

  datatype StatePatch = StatePatch(
    subagentStatus: Option<string>,
    actionOwner: Option<string>,
    reference: Option<map<string, Json>>,
    cushionMessage: Option<string>,
    lastAgentId: Option<string>,
    lastAgentType: Option<AgentType>,
    lastResponseType: Option<string>,
    agentSessionKey: Option<string>,
    attributes: Option<map<string, Json>>,
    currentIntent: Option<string>,
    turnCount: Option<int>)

  datatype PatchRequest = PatchRequest(
    turnId: Option<string>,
    state: Option<SessionState>,
    patch: Option<StatePatch>)

  datatype ApiResult = ApiResult(
    sessionKey: string,
    turnId: string,
    agentId: Option<string>,
    payloads: seq<Json>,
    globId: Option<string>,
    requestId: Option<string>,
    result: Option<string>,
    resultCode: Option<string>,
    resultMsg: Option<string>,
    results: seq<Json>)

  /** One call of a handler, or the passing of time.  Random identifiers the handler draws are arguments. */
  datatype Step =
    | Create(key: string, jti: string, user: string, channel: Option<Channel>, trigger: string)
    | Verify(token: Token)
    | Ping(token: Token)
    | Rotate(token: Token, newJti: string)
    | Patch(key: string, request: PatchRequest)
    | Resolve(key: string, agentType: Option<AgentType>, agentId: Option<string>)
    | CloseByKey(key: string, reason: Option<string>, summary: Option<string>)
    | CloseByToken(token: Token, reason: Option<string>)
    | SaveResult(key: string, result: ApiResult)
    | UpdateProfile(key: string, profile: map<string, Json>, fetched: Option<Json>)
    | GetTurns(key: string)
    | Tick(d: nat)

  /** What is registered for an agent: its own session key and its kind. */
  datatype LocalMapping = LocalMapping(sessionKey: Option<Json>, kind: Option<Json>)

  /** Fields of a session that are stored and read back as they were written. */
  datatype PlainView = PlainView(
    triggerId: Text,
    channel: Option<(Text, Text)>,
    state: Text,
    isFirstCall: bool,
    taskQueueStatus: Text,
    subagentStatus: Text,
    lastEvent: Option<Json>)

  /** The answer to a session lookup. */
  datatype SessionView = SessionView(
    plain: PlainView,
    agentSessionKey: Option<Json>,
    cusno: Option<string>,
    batch: Option<Json>,
    realtime: Option<Json>,
    reference: Option<Json>,
    activeTask: Option<Json>,
    history: Option<Json>,
    currentIntent: Option<Json>,
    currentTaskId: Option<Json>,
    taskQueueDetail: Option<Json>,
    turnCount: Option<Json>,
    turnIds: Option<seq<string>>)

  datatype Refusal = BadToken | WrongKind | NoJti | NotBound

  datatype Response =
    | Created(key: string, jti: string, access: Token, refresh: Token)
    | Verified(key: string, state: Text, alive: bool, expiresAt: Option<int>)
    | Pinged(alive: bool, expiresAt: Option<int>)
    | Rotated(key: string, jti: string, access: Token, refresh: Token)
    | Patched(at: int)
    | Resolved(view: SessionView)
    | Closed(at: int, archive: string)
    | TurnSaved(turn: Json)
    | ProfileSaved(at: int)
    | Turns(turns: Option<seq<Json>>)
    | NotFound
    | Unauthorized(why: Refusal)
    | BadRequest
    | Crashed
    | Ticked
}
