// An abstract account of the service: one record per session ever created and one shelf per
// profile ever saved.  Nothing expires, nothing is deleted and nothing is serialised; who is
// present is worked out from the clock.  Mirrors says which Redis store a ledger stands for.
module Ledgers {
  import opened Values
  import opened RedisStore
  import opened Requests
  import opened Handlers

  datatype Record = Record(
    extendedAt: int,             // creation, or the latest TALK patch or rotation
    issuedAt: int,               // when the newest jti was issued
    jti: string,                 // the newest jti
    revoked: bool,               // closed by a token carrying the newest jti
    plain: Hash,                 // fields stored as given
    cusno: Option<string>,
    turnIds: Option<seq<string>>,
    agents: map<string, Agent>,
    reference: map<string, Json>,
    turns: seq<Json>,
    turnsUntil: int,
    savedOwn: bool)              // a profile was saved under the session's own key

  datatype Shelf = Shelf(value: Json, until: int)

  datatype Ledger = Ledger(
    now: int,
    records: map<string, Record>,
    owner: map<string, string>,  // every jti ever issued, and the session it was issued for
    realtime: map<string, Shelf>,
    batch: map<string, Shelf>)

  function Opening(now: int): Ledger {
    Ledger(now, map[], map[], map[], map[])
  }

  // ---------- who is present ----------

  predicate Live(c: Config, l: Ledger, k: string) {
    k in l.records && l.now < l.records[k].extendedAt + c.ttl
  }

  /** The session a jti stands for: only the newest, unless revoked, and only for one TTL. */
  function Holder(c: Config, l: Ledger, jti: string): (k: Option<string>)
    ensures k.Some? ==> k.value in l.records && l.records[k.value].jti == jti
  {
    if && jti in l.owner && l.owner[jti] in l.records
       && var r := l.records[l.owner[jti]]; r.jti == jti && !r.revoked && l.now < r.issuedAt + c.ttl
    then Some(l.owner[jti]) else None
  }

  function ProfileKey(r: Record, k: string): string {
    if r.cusno.Some? then r.cusno.value else k
  }

  /** A profile was saved under the key the session now looks under. */
  predicate HasProfile(r: Record) {
    r.cusno.Some? || r.savedOwn
  }

  function Shelved(s: map<string, Shelf>, p: string, now: int): Option<Json> {
    if p in s && now < s[p].until then Some(s[p].value) else None
  }

  // ---------- the store a ledger stands for ----------

  function EncodeAgents(agents: map<string, Agent>): map<string, Json> {
    map a | a in agents :: EncodeAgent(agents[a])
  }

  function DecodedField(c: Config, r: Record, f: HashField): Option<Text> {
    match f
    case ExpiresAtField => Some(Iso(r.extendedAt + c.ttl))
    case CusnoField => if r.cusno.Some? then Some(Raw(r.cusno.value)) else None
    case TurnIdsField => if r.turnIds.Some? then Some(DumpIds(r.turnIds.value)) else None
    case AgentsField => if r.agents != map[] then Some(Dumped(Obj(EncodeAgents(r.agents)))) else None
    case ReferenceField => if r.reference != map[] then Some(Dumped(Obj(r.reference))) else None
    case _ => None
  }

  function Decoded(c: Config, r: Record): Hash {
    map f: HashField | DecodedField(c, r, f).Some? :: DecodedField(c, r, f).value
  }

  /** The session hash a record stands for. */
  function Render(c: Config, r: Record): Hash {
    r.plain + Decoded(c, r)
  }

  function DumpAll(js: seq<Json>): seq<Text> {
    seq(|js|, i requires 0 <= i < |js| => Dumped(js[i]))
  }

  function SessionEntry(c: Config, l: Ledger, k: string): Option<Entry<Hash>> {
    if Live(c, l, k)
    then Some(Entry(Render(c, l.records[k]), Some(l.records[k].extendedAt + c.ttl))) else None
  }

  function TurnEntry(l: Ledger, k: string): Option<Entry<seq<Text>>> {
    if k in l.records && l.records[k].turns != [] && l.now < l.records[k].turnsUntil
    then Some(Entry(DumpAll(l.records[k].turns), Some(l.records[k].turnsUntil))) else None
  }

  function JtiEntry(c: Config, l: Ledger, jti: string): Option<Entry<string>> {
    var k := Holder(c, l, jti);
    if k.Some? then Some(Entry(k.value, Some(l.records[k.value].issuedAt + c.ttl))) else None
  }

  function ShelfEntry(s: map<string, Shelf>, now: int, p: string): Option<Entry<Text>> {
    if p in s && now < s[p].until then Some(Entry(Dumped(s[p].value), Some(s[p].until))) else None
  }

  ghost predicate MirrorsSessions(c: Config, l: Ledger, t: Table<Hash>) {
    forall k :: Get(t, k) == SessionEntry(c, l, k)
  }

  ghost predicate MirrorsTurns(l: Ledger, t: Table<seq<Text>>) {
    forall k :: Get(t, k) == TurnEntry(l, k)
  }

  ghost predicate MirrorsJtis(c: Config, l: Ledger, t: Table<string>) {
    forall j :: Get(t, j) == JtiEntry(c, l, j)
  }

  ghost predicate MirrorsShelves(s: map<string, Shelf>, now: int, t: Table<Text>) {
    forall p :: Get(t, p) == ShelfEntry(s, now, p)
  }

  /** The store holds, key by key, exactly what the ledger implies, deadlines included. */
  ghost predicate Mirrors(c: Config, l: Ledger, db: Store) {
    && db.now == l.now
    && MirrorsSessions(c, l, db.sessions)
    && MirrorsTurns(l, db.turns)
    && MirrorsJtis(c, l, db.jtis)
    && MirrorsShelves(l.realtime, l.now, db.realtime)
    && MirrorsShelves(l.batch, l.now, db.batch)
  }

  // ---------- what a step does to a ledger ----------

  function Permit(c: Config, l: Ledger, t: Token, kind: Option<TokenKind>): (g: Grant)
    ensures g.Granted? ==> Holder(c, l, t.jti) == Some(g.key) && Accepted(t, l.now)
  {
    if !Accepted(t, l.now) then Refused(BadToken)
    else if kind.Some? && t.kind != kind.value then Refused(WrongKind)
    else if t.jti == "" then Refused(NoJti)
    else match Holder(c, l, t.jti)
      case None => Refused(NotBound)
      case Some(k) => Granted(k)
  }

  function Prolong(s: map<string, Shelf>, p: string, now: int, until: int): map<string, Shelf> {
    if p in s && now < s[p].until then s[p := s[p].(until := until)] else s
  }

  /** The session is extended, and with it its turns and the profiles it uses. */
  function Extend(c: Config, l: Ledger, k: string): (l': Ledger)
    requires k in l.records
    ensures l'.owner == l.owner && l'.now == l.now && l'.records.Keys == l.records.Keys
  {
    var r := l.records[k];
    var until := l.now + c.ttl;
    l.(records := l.records[k := r.(extendedAt := l.now, turnsUntil := until)],
       realtime := Prolong(l.realtime, ProfileKey(r, k), l.now, until),
       batch := if r.cusno.Some? then Prolong(l.batch, r.cusno.value, l.now, until) else l.batch)
  }

  function Touch(r: Record, fields: Hash, now: int): Record {
    r.(plain := r.plain + Stamped(fields, now))
  }

  function NewRecord(c: Config, s: Step, now: int): Record
    requires s.Create?
  {
    Record(now, now, s.jti, false, NewSession(c, s, now) - {ExpiresAtField}, None, None, map[], map[], [],
        now + c.ttl, false)
  }

  function AmendedAgents(agents: map<string, Agent>, q: PatchRequest): map<string, Agent> {
    if RegistersAgent(q) then agents[q.patch.value.lastAgentId.value := AgentOf(q.patch.value)] else agents
  }

  function AmendedReference(reference: map<string, Json>, q: PatchRequest): map<string, Json> {
    if q.patch.Some? && MergedReference(q.patch.value) != map[] then MergedReference(q.patch.value) else reference
  }

  function AmendedTurnIds(ids: Option<seq<string>>, q: PatchRequest): Option<seq<string>> {
    if q.turnId.Some? then Some(AddTurnId(if ids.Some? then ids.value else [], q.turnId.value)) else ids
  }

  /** What an accepted patch makes of a record. */
  function Amend(r: Record, q: PatchRequest, now: int): Record {
    Touch(r.(agents := AmendedAgents(r.agents, q), reference := AmendedReference(r.reference, q),
             turnIds := AmendedTurnIds(r.turnIds, q)), PlainUpdates(q, now), now)
  }

  function SetRecord(l: Ledger, k: string, r: Record): Ledger {
    l.(records := l.records[k := r])
  }

  function Lookup(c: Config, l: Ledger, k: string, kind: Option<AgentType>, agentId: Option<string>): Response
    requires k in l.records
  {
    var r := l.records[k];
    Resolved(View(ViewPlain(r.plain),
      if kind == Some(Task) && IsGiven(agentId) && agentId.value in r.agents
        then Some(Str(r.agents[agentId.value].sessionKey)) else None,
      r.cusno,
      if r.cusno.Some? then Shelved(l.batch, r.cusno.value, l.now) else None,
      Shelved(l.realtime, ProfileKey(r, k), l.now),
      if r.reference != map[] then Some(Obj(r.reference)) else None,
      r.turnIds))
  }

  function NextCreate(c: Config, l: Ledger, s: Step): (Ledger, Response)
    requires s.Create?
  {
    (l.(records := l.records[s.key := NewRecord(c, s, l.now)], owner := l.owner[s.jti := s.key]),
     Created(s.key, s.jti, AccessToken(c, s.jti, s.user, l.now), RefreshToken(c, s.jti, s.user, l.now)))
  }

  function AnswerVerify(c: Config, l: Ledger, t: Token): Response {
    match Permit(c, l, t, Some(Access))
    case Refused(why) => Unauthorized(why)
    case Granted(k) =>
      Verified(k, TextOr(l.records[k].plain, StateField, ""), true, Some(l.records[k].extendedAt + c.ttl))
  }

  function AnswerPing(c: Config, l: Ledger, t: Token): Response {
    match Permit(c, l, t, None)
    case Refused(why) => Unauthorized(why)
    case Granted(k) => Pinged(true, Some(l.records[k].extendedAt + c.ttl))
  }

  function Reissue(l: Ledger, k: string, newJti: string): Ledger
    requires k in l.records
  {
    SetRecord(l, k, l.records[k].(issuedAt := l.now, jti := newJti)).(owner := l.owner[newJti := k])
  }

  function NextRotate(c: Config, l: Ledger, t: Token, newJti: string): (Ledger, Response) {
    match Permit(c, l, t, Some(Refresh))
    case Refused(why) => (l, Unauthorized(why))
    case Granted(k) =>
      (Reissue(Extend(c, l, k), k, newJti),
       Rotated(k, newJti, AccessToken(c, newJti, t.sub, l.now), RefreshToken(c, newJti, t.sub, l.now)))
  }

  function NextPatch(c: Config, l: Ledger, k: string, q: PatchRequest): (Ledger, Response) {
    if !Live(c, l, k) then (l, NotFound) else
    var l1 := if q.state == Some(Talk) then Extend(c, l, k) else l;
    if Rejected(q) then (l1, BadRequest)
    else (SetRecord(l1, k, Amend(l1.records[k], q, l.now)), Patched(l.now))
  }

  function NextCloseByKey(c: Config, l: Ledger, k: string, reason: Option<string>, summary: Option<string>)
    : (Ledger, Response)
  {
    if !Live(c, l, k) then (l, NotFound) else
    (SetRecord(l, k, Touch(l.records[k], CloseFields(reason, summary, l.now), l.now)), Closed(l.now, Archive(k)))
  }

  function NextCloseByToken(c: Config, l: Ledger, t: Token, reason: Option<string>): (Ledger, Response) {
    match Permit(c, l, t, None)
    case Refused(why) => (l, Unauthorized(why))
    case Granted(k) =>
      (SetRecord(l, k, Touch(l.records[k], CloseFields(reason, None, l.now), l.now).(revoked := true)),
       Closed(l.now, Archive(k)))
  }

  function AppendTurn(r: Record, turn: Json, until: int): Record {
    r.(turns := r.turns + [turn], turnsUntil := until)
  }

  function NextSaveResult(c: Config, l: Ledger, k: string, q: ApiResult): (Ledger, Response) {
    NextTurn(c, l, k, TurnOf(q, l.now))
  }

  function NextTurn(c: Config, l: Ledger, k: string, turn: Json): (Ledger, Response) {
    if !Live(c, l, k) then (l, NotFound) else
    (SetRecord(l, k, AppendTurn(l.records[k], turn, l.now + c.ttl)), TurnSaved(turn))
  }

  function NextUpdateProfile(c: Config, l: Ledger, k: string, profile: map<string, Json>, fetched: Option<Json>)
    : (Ledger, Response)
  {
    NextProfile(c, l, k, CustomerIn(c, profile), Obj(profile), fetched)
  }

  function NextProfile(c: Config, l: Ledger, k: string, who: Customer, profile: Json, fetched: Option<Json>)
    : (Ledger, Response)
  {
    if !Live(c, l, k) then (l, NotFound) else
    match who
    case Malformed => (l, Crashed)
    case NoCustomer =>
      (Shelve(c, l, k, l.records[k].(savedOwn := true), k, profile), ProfileSaved(l.now))
    case Customer(n) =>
      var l1 := Shelve(c, l, k, Touch(l.records[k].(cusno := Some(n)), map[], l.now), n, profile);
      (if IsFetched(fetched) then ShelveBatch(c, l1, n, fetched.value) else l1, ProfileSaved(l.now))
  }

  function ShelveBatch(c: Config, l: Ledger, p: string, v: Json): Ledger {
    l.(batch := l.batch[p := Shelf(v, l.now + c.ttl)])
  }

  function Shelve(c: Config, l: Ledger, k: string, r: Record, p: string, profile: Json): Ledger {
    SetRecord(l, k, r).(realtime := l.realtime[p := Shelf(profile, l.now + c.ttl)])
  }

  function AnswerTurns(l: Ledger, k: string): Response {
    Turns(Some(if k in l.records && l.now < l.records[k].turnsUntil then l.records[k].turns else []))
  }

  function Next(c: Config, l: Ledger, s: Step): (Ledger, Response) {
    match s
    case Create(_, _, _, _, _) => NextCreate(c, l, s)
    case Verify(t) => (l, AnswerVerify(c, l, t))
    case Ping(t) => (l, AnswerPing(c, l, t))
    case Rotate(t, newJti) => NextRotate(c, l, t, newJti)
    case Patch(k, q) => NextPatch(c, l, k, q)
    case Resolve(k, kind, agentId) =>
      (l, if Live(c, l, k) then Lookup(c, l, k, kind, agentId) else NotFound)
    case CloseByKey(k, reason, summary) => NextCloseByKey(c, l, k, reason, summary)
    case CloseByToken(t, reason) => NextCloseByToken(c, l, t, reason)
    case SaveResult(k, q) => NextSaveResult(c, l, k, q)
    case UpdateProfile(k, profile, fetched) => NextUpdateProfile(c, l, k, profile, fetched)
    case GetTurns(k) => (l, AnswerTurns(l, k))
    case Tick(d) => (l.(now := l.now + d), Ticked)
  }
}
