// The service's access to Redis: RedisHelper issues the commands, RedisSessionRepository combines
// them.  Every method is proved against the function of the store it implements.
module RedisAccess {
  import opened Values
  import opened RedisStore
  import opened Requests
  import opened Handlers

  class RedisHelper {
    const c: Config
    var now: int
    var sessions: Table<Hash>
    var turns: Table<seq<Text>>
    var jtis: Table<string>
    var realtime: Table<Text>
    var batch: Table<Text>

    constructor (c: Config, now: int)
      ensures this.c == c && Db() == EmptyStore(now)
    {
      this.c, this.now := c, now;
      sessions, turns, jtis, realtime, batch := map[], map[], map[], map[], map[];
    }

    /** The contents of the server. */
    ghost function Db(): Store
      reads this
    {
      Store(now, sessions, turns, jtis, realtime, batch)
    }

    /** Time passes on the server. */
    method Elapse(d: nat)
      modifies this
      ensures now == old(now) + d
      ensures sessions == Sweep(old(sessions), now) && turns == Sweep(old(turns), now) && jtis == Sweep(old(jtis), now)
      ensures realtime == Sweep(old(realtime), now) && batch == Sweep(old(batch), now)
    {
      now := now + d;
      sessions := Sweep(sessions, now);
      turns := Sweep(turns, now);
      jtis := Sweep(jtis, now);
      realtime := Sweep(realtime, now);
      batch := Sweep(batch, now);
    }

    // ---------- sessions ----------

    method GetSession(key: string) returns (h: Option<Hash>)
      ensures h == Session(Db(), key)
    {
      h := if key in sessions && sessions[key].value != map[] then Some(sessions[key].value) else None;
    }

    method SetSession(key: string, data: Hash, ttl: int)
      modifies this`sessions
      ensures sessions == ExpireAt(HSet(old(sessions), key, data), key, now + ttl)
    {
      sessions := HSet(sessions, key, data);
      sessions := ExpireAt(sessions, key, now + ttl);
    }

    /** Absent values are dropped, and nothing is written to a missing session. */
    method UpdateSession(key: string, updates: map<HashField, Option<Text>>)
      modifies this`sessions
      ensures sessions == if key in old(sessions) && Kept(updates) != map[]
                          then HSet(old(sessions), key, Kept(updates)) else old(sessions)
    {
      if key !in sessions { return; }
      var clean := map f | f in updates && updates[f].Some? :: updates[f].value;
      if clean == map[] { return; }
      sessions := HSet(sessions, key, clean);
    }

    // ---------- turns ----------

    /** Loads the list entry by entry; None is the decoding error of one of them. */
    method GetContextTurns(key: string) returns (r: Option<seq<Json>>)
      ensures r == StoredTurns(Db(), key)
    {
      var texts := if key in turns then turns[key].value else [];
      var loaded: seq<Json> := [];
      var i := 0;
      assert texts[0..] == texts;
      assert LoadAll(texts).Some? ==> loaded + LoadAll(texts).value == LoadAll(texts).value;
      while i < |texts|
        invariant 0 <= i <= |texts|
        invariant LoadAll(texts) == Prepended(loaded, LoadAll(texts[i..]))
      {
        assert texts[i..][1..] == texts[i + 1..];
        PrependNext(loaded, texts[i..]);
        match Loads(texts[i])
        case None => return None;
        case Some(j) => loaded := loaded + [j];
        i := i + 1;
      }
      assert texts[i..] == [] && loaded + [] == loaded;
      r := Some(loaded);
    }

    method AddContextTurn(key: string, turn: Json)
      modifies this`turns
      ensures Db() == AddTurn(c, old(Db()), key, turn)
    {
      turns := RPush(turns, key, Dumped(turn));
      turns := ExpireAt(turns, key, now + c.ttl);
    }

    method ExtendTurns(key: string)
      modifies this`turns
      ensures turns == ExpireAt(old(turns), key, now + c.ttl)
    {
      if key in turns { turns := ExpireAt(turns, key, now + c.ttl); }
    }

    // ---------- jtis ----------

    method SetJtiMapping(jti: string, key: string, ttl: int)
      modifies this`jtis
      ensures jtis == SetEx(old(jtis), jti, key, now + ttl)
    {
      jtis := SetEx(jtis, jti, key, now + ttl);
    }

    method GetGlobalSessionKeyByJti(jti: string) returns (key: Option<string>)
      ensures key == KeyOfJti(Db(), jti)
    {
      key := if jti in jtis && jtis[jti].value != "" then Some(jtis[jti].value) else None;
    }

    method DeleteJti(jti: string)
      modifies this`jtis
      ensures jtis == Del(old(jtis), jti)
    {
      jtis := Del(jtis, jti);
    }

    // ---------- profiles ----------

    method GetRealtimeProfile(key: string) returns (p: Option<Json>)
      ensures p == ProfileAt(realtime, key)
    {
      p := ProfileAt(realtime, key);
    }

    method SetRealtimeProfile(key: string, profile: Json)
      modifies this`realtime
      ensures realtime == SaveProfile(old(realtime), key, profile, now + c.ttl)
    {
      realtime := Set(realtime, key, Dumped(profile));
      realtime := ExpireAt(realtime, key, now + c.ttl);
    }

    method ExtendRealtime(key: string)
      modifies this`realtime
      ensures realtime == ExpireAt(old(realtime), key, now + c.ttl)
    {
      if key in realtime { realtime := ExpireAt(realtime, key, now + c.ttl); }
    }

    method GetBatchProfile(key: string) returns (p: Option<Json>)
      ensures p == ProfileAt(batch, key)
    {
      p := ProfileAt(batch, key);
    }

    method SetBatchProfile(key: string, profile: Json)
      modifies this`batch
      ensures batch == SaveProfile(old(batch), key, profile, now + c.ttl)
    {
      batch := Set(batch, key, Dumped(profile));
      batch := ExpireAt(batch, key, now + c.ttl);
    }

    method ExtendBatch(key: string)
      modifies this`batch
      ensures batch == ExpireAt(old(batch), key, now + c.ttl)
    {
      if key in batch { batch := ExpireAt(batch, key, now + c.ttl); }
    }
  }

  /** The values that are given, as a hash. */
  function Kept(updates: map<HashField, Option<Text>>): Hash {
    map f | f in updates && updates[f].Some? :: updates[f].value
  }

  function Prepended(js: seq<Json>, more: Option<seq<Json>>): Option<seq<Json>> {
    if more.Some? then Some(js + more.value) else None
  }

  lemma PrependNext(js: seq<Json>, ts: seq<Text>)
    requires ts != []
    ensures Prepended(js, LoadAll(ts))
            == if Loads(ts[0]).Some? then Prepended(js + [Loads(ts[0]).value], LoadAll(ts[1..])) else None
  {
    var more := LoadAll(ts[1..]);
    if Loads(ts[0]).Some? && more.Some? {
      assert js + ([Loads(ts[0]).value] + more.value) == js + [Loads(ts[0]).value] + more.value;
    }
  }

  class RedisSessionRepository {
    const helper: RedisHelper

    constructor (helper: RedisHelper)
      ensures this.helper == helper
    {
      this.helper := helper;
    }

    /** Creates the session unless it exists. */
    method Create(s: Step)
      requires s.Create?
      modifies helper`sessions
      ensures helper.sessions == if Session(old(helper.Db()), s.key).Some? then old(helper.sessions)
        else ExpireAt(HSet(old(helper.sessions), s.key, NewSession(helper.c, s, helper.now)), s.key,
            helper.now + helper.c.ttl)
    {
      var existing := helper.GetSession(s.key);
      if existing.Some? { return; }
      var now := helper.now;
      var session := map[SessionKeyField := Raw(s.key), UserIdField := Raw(s.user),
        ChannelField := Raw(if s.channel.Some? then s.channel.value.eventChannel else "utterance"),
        ConversationIdField := Raw(""), StateField := Raw(Start.Name()),
        TaskQueueField := Raw("null"), SubagentField := Raw("undefined"),
        ProfileField := Dumped(Obj(map[])), ExpiresAtField := Iso(now + helper.c.ttl),
        CreatedAtField := Iso(now), UpdatedAtField := Iso(now)];
      session := session[TriggerIdField := Raw(s.trigger)];
      if s.channel.Some? { session := session[StartTypeField := Raw(s.channel.value.eventType)]; }
      helper.SetSession(s.key, session, helper.c.ttl);
    }

    method Get(key: string) returns (h: Option<Hash>)
      ensures h == Session(helper.Db(), key)
    {
      h := helper.GetSession(key);
    }

    /** Partial update; `updated_at` is always written. */
    method Update(key: string, fields: map<HashField, Option<Text>>)
      modifies helper`sessions
      ensures helper.Db() == Handlers.Update(old(helper.Db()), key, Kept(fields))
    {
      var updates := fields[UpdatedAtField := Some(Iso(helper.now))];
      assert Kept(updates) == Stamped(Kept(fields), helper.now);
      assert UpdatedAtField in Kept(updates);
      helper.UpdateSession(key, updates);
    }

    /** Renews the session, its turns and the profiles it uses, family by family. */
    method RefreshTtl(key: string)
      modifies helper`sessions, helper`turns, helper`realtime, helper`batch
      ensures helper.Db() == Handlers.RefreshTtl(helper.c, old(helper.Db()), key)
    {
      var session := helper.GetSession(key);
      match session
      case None => return;
      case Some(h) =>
        var data := h[ExpiresAtField := Iso(helper.now + helper.c.ttl)];
        assert h + data == data;
        helper.SetSession(key, data, helper.c.ttl);
        helper.ExtendTurns(key);
        assert Cusno(data) == Cusno(h);
        ExtendProfiles(key, Cusno(data));
    }

    method ExtendProfiles(key: string, cusno: Option<string>)
      modifies helper`realtime, helper`batch
      ensures var until := helper.now + helper.c.ttl;
        && helper.realtime == ExpireAt(old(helper.realtime), if cusno.Some? then cusno.value else key, until)
        && helper.batch == if cusno.Some? then ExpireAt(old(helper.batch), cusno.value, until) else old(helper.batch)
    {
      if cusno.Some? {
        helper.ExtendRealtime(cusno.value);
        helper.ExtendBatch(cusno.value);
      } else {
        helper.ExtendRealtime(key);
      }
    }

    method SetLocalMapping(key: string, agentId: string, agent: Agent)
      modifies helper`sessions
      ensures helper.Db() == Handlers.SetLocalMapping(old(helper.Db()), key, agentId, agent)
    {
      var session := helper.GetSession(key);
      match session
      case None => return;
      case Some(h) =>
        var mappings := ObjectOf(ParseField(h, AgentsField));
        mappings := mappings[agentId := EncodeAgent(agent)];
        var updates := map[AgentsField := Some(Dumped(Obj(mappings)))];
        assert Kept(updates) == map[AgentsField := Dumped(Obj(mappings))];
        assert AgentsField in Kept(updates);
        helper.UpdateSession(key, updates);
    }

    /** What is registered for an agent. */
    method GetLocalMapping(key: string, agentId: string) returns (r: Option<LocalMapping>)
      ensures r == FindMapping(helper.Db(), key, agentId)
    {
      var session := helper.GetSession(key);
      if session.None? { return None; }
      var mappings := ObjectOf(ParseField(session.value, AgentsField));
      if agentId !in mappings || !Truthy(mappings[agentId]) { return None; }
      var pair := ObjectOf(Some(mappings[agentId]));
      r := Some(LocalMapping(Values.Get(pair, "agent_session_key"), Values.Get(pair, "agent_type")));
    }

    method AddTurn(key: string, turn: Json)
      modifies helper`turns
      ensures helper.Db() == Handlers.AddTurn(helper.c, old(helper.Db()), key, turn)
    {
      helper.AddContextTurn(key, turn);
    }

    method GetTurns(key: string) returns (r: Option<seq<Json>>)
      ensures r == StoredTurns(helper.Db(), key)
    {
      r := helper.GetContextTurns(key);
    }
  }
}
