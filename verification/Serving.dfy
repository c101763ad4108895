// The classes drive a run: serving any steps on a fresh helper yields the store and the trace that
// the theorems about runs speak of.
module Serving {
  import opened Requests
  import opened Handlers
  import opened RedisAccess
  import opened Services
  import opened Runs

  method Serve(service: SessionService, s: Step) returns (r: Response)
    requires service.Valid()
    modifies service.helper
    ensures (service.helper.Db(), r) == Handle(service.helper.c, old(service.helper.Db()), s)
  {
    match s
    case Create(_, _, _, _, _) => r := service.CreateSession(s);
    case Verify(t) => r := service.auth.VerifyTokenAndGetSession(t);
    case Ping(t) => r := service.auth.PingSessionByToken(t);
    case Rotate(t, newJti) => r := service.auth.RefreshTokens(t, newJti);
    case Patch(key, q) => r := service.PatchSessionState(key, q);
    case Resolve(key, kind, agentId) => r := service.ResolveSession(key, kind, agentId);
    case CloseByKey(key, reason, summary) => r := service.CloseSession(key, reason, summary);
    case CloseByToken(t, reason) => r := service.auth.CloseSessionByToken(t, reason);
    case SaveResult(key, q) => r := service.SaveApiResult(key, q);
    case UpdateProfile(key, profile, fetched) =>
      r := service.profiles.UpdateRealtimePersonalContext(key, profile, fetched);
    case GetTurns(key) => var ts := service.repo.GetTurns(key); r := Turns(ts);
    case Tick(d) => service.helper.Elapse(d); r := Ticked;
  }

  /** Serves the steps one after the other on a fresh store. */
  method ServeAll(c: Config, t0: int, steps: seq<Step>) returns (service: SessionService, trace: seq<Event>)
    ensures fresh(service.helper) && (service.helper.Db(), trace) == Run(c, t0, steps)
  {
    var helper := new RedisHelper(c, t0);
    var repo := new RedisSessionRepository(helper);
    service := new SessionService(repo);
    trace := [];
    var i := 0;
    while i < |steps|
      invariant 0 <= i <= |steps| && service.Valid() && service.helper == helper && helper.c == c
      invariant (helper.Db(), trace) == Run(c, t0, steps[..i])
    {
      var at := helper.now;
      var r := Serve(service, steps[i]);
      trace := trace + [Event(at, steps[i], r)];
      assert steps[..i + 1][..i] == steps[..i];
      assert Run(c, t0, steps[..i + 1]) == RunThen(c, t0, steps[..i], steps[i]);
      i := i + 1;
    }
    assert steps[..i] == steps;
  }
}
