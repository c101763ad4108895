// Whole runs of the service: the store a sequence of steps leads to, the trace of what was
// answered, and the proof that every run agrees with the ledger.
module Runs {
  import opened Values
  import opened RedisStore
  import opened Requests
  import opened Handlers
  import opened Ledgers
  import opened LedgerInvariant
  import opened Simulation

  /** One step of a run: when it happened, what was asked and what was answered. */
  datatype Event = Event(at: int, step: Step, response: Response)

  /** Runs the service on Redis, from an empty store at time t0. */
  function Run(c: Config, t0: int, steps: seq<Step>): (Store, seq<Event>)
    decreases |steps|, 0
  {
    if steps == [] then (EmptyStore(t0), [])
    else RunThen(c, t0, steps[..|steps| - 1], steps[|steps| - 1])
  }

  /** A run and one more step. */
  function RunThen(c: Config, t0: int, steps: seq<Step>, s: Step): (Store, seq<Event>)
    decreases |steps|, 1
  {
    var (db, trace) := Run(c, t0, steps);
    var (db', r) := Handle(c, db, s);
    (db', trace + [Event(db.now, s, r)])
  }

  lemma RunNext(c: Config, t0: int, steps: seq<Step>, s: Step)
    ensures Run(c, t0, steps + [s]) == RunThen(c, t0, steps, s)
  {
    var all := steps + [s];
    assert all[..|all| - 1] == steps && all[|all| - 1] == s;
  }

  /** The same steps on the ledger. */
  function LedgerRun(c: Config, t0: int, steps: seq<Step>): (Ledger, seq<Event>) {
    if steps == [] then (Opening(t0), []) else
    var (l, trace) := LedgerRun(c, t0, steps[..|steps| - 1]);
    var s := steps[|steps| - 1];
    var (l', r) := Next(c, l, s);
    (l', trace + [Event(l.now, s, r)])
  }

  function DrawnJti(s: Step): Option<string> {
    match s
    case Create(_, jti, _, _, _) => Some(jti)
    case Rotate(_, newJti) => Some(newJti)
    case _ => None
  }

  function DrawnKey(s: Step): Option<string> {
    match s
    case Create(key, _, _, _, _) => Some(key)
    case _ => None
  }

  /** Jtis and session keys drawn during a run are non-empty and never repeat. */
  ghost predicate Admissible(steps: seq<Step>) {
    && (forall i :: 0 <= i < |steps| ==> DrawnJti(steps[i]) != Some("") && DrawnKey(steps[i]) != Some(""))
    && (forall i, j :: 0 <= i < j < |steps| && DrawnJti(steps[j]).Some? ==> DrawnJti(steps[i]) != DrawnJti(steps[j]))
    && (forall i, j :: 0 <= i < j < |steps| && DrawnKey(steps[j]).Some? ==> DrawnKey(steps[i]) != DrawnKey(steps[j]))
  }

  lemma AdmissiblePrefix(steps: seq<Step>, n: nat)
    requires Admissible(steps) && n <= |steps|
    ensures Admissible(steps[..n])
  {
  }

  /** Everything the ledger knows was drawn by one of the steps. */
  ghost predicate DrawnFrom(l: Ledger, steps: seq<Step>) {
    && (forall j :: j in l.owner ==> exists i :: 0 <= i < |steps| && DrawnJti(steps[i]) == Some(j))
    && (forall k :: k in l.records ==> exists i :: 0 <= i < |steps| && DrawnKey(steps[i]) == Some(k))
  }

  lemma NextDraws(c: Config, l: Ledger, s: Step)
    ensures forall j :: j in Next(c, l, s).0.owner ==> j in l.owner || DrawnJti(s) == Some(j)
    ensures forall k :: k in Next(c, l, s).0.records ==> k in l.records || DrawnKey(s) == Some(k)
  {
    match s
    case Patch(k, q) => PatchDraws(c, l, k, q);
    case UpdateProfile(k, profile, fetched) => ProfileDraws(c, l, k, CustomerIn(c, profile), Obj(profile), fetched);
    case _ =>
  }

  lemma PatchDraws(c: Config, l: Ledger, k: string, q: PatchRequest)
    ensures var l' := NextPatch(c, l, k, q).0; l'.owner == l.owner && l'.records.Keys == l.records.Keys
  {
  }

  lemma ProfileDraws(c: Config, l: Ledger, k: string, who: Customer, profile: Json, fetched: Option<Json>)
    ensures var l' := NextProfile(c, l, k, who, profile, fetched).0;
      l'.owner == l.owner && l'.records.Keys == l.records.Keys
  {
  }

  lemma DrawnFresh(l: Ledger, steps: seq<Step>, s: Step)
    requires DrawnFrom(l, steps) && Admissible(steps + [s])
    ensures Fresh(l, s)
  {
    var all := steps + [s];
    assert all[|steps|] == s;
    assert forall i :: 0 <= i < |steps| ==> all[i] == steps[i];
  }

  lemma DrawnNext(c: Config, l: Ledger, steps: seq<Step>, s: Step)
    requires DrawnFrom(l, steps)
    ensures DrawnFrom(Next(c, l, s).0, steps + [s])
  {
    var l', all := Next(c, l, s).0, steps + [s];
    NextDraws(c, l, s);
    assert all[|steps|] == s;
    forall j | j in l'.owner ensures exists i :: 0 <= i < |all| && DrawnJti(all[i]) == Some(j) {
      if j in l.owner {
        var i :| 0 <= i < |steps| && DrawnJti(steps[i]) == Some(j);
        assert all[i] == steps[i];
      }
    }
    forall k | k in l'.records ensures exists i :: 0 <= i < |all| && DrawnKey(all[i]) == Some(k) {
      if k in l.records {
        var i :| 0 <= i < |steps| && DrawnKey(steps[i]) == Some(k);
        assert all[i] == steps[i];
      }
    }
  }

  /** Refinement: over any run Redis answers exactly as the ledger does, and mirrors it at the end. */
  lemma {:induction false} RunRefines(c: Config, t0: int, steps: seq<Step>)
    requires 0 < c.ttl && Admissible(steps)
    ensures Run(c, t0, steps).1 == LedgerRun(c, t0, steps).1
    ensures Mirrors(c, LedgerRun(c, t0, steps).0, Run(c, t0, steps).0)
    ensures Sound(c, LedgerRun(c, t0, steps).0) && DrawnFrom(LedgerRun(c, t0, steps).0, steps)
  {
    if steps == [] {
      OpeningSound(c, t0);
    } else {
      var prev, s := steps[..|steps| - 1], steps[|steps| - 1];
      assert steps == prev + [s];
      AdmissiblePrefix(steps, |steps| - 1);
      RunRefines(c, t0, prev);
      var l := LedgerRun(c, t0, prev).0;
      DrawnFresh(l, prev, s);
      Commute(c, l, s, Run(c, t0, prev).0);
      NextSound(c, l, s);
      DrawnNext(c, l, prev, s);
    }
  }

  // ---------- what a trace says ----------

  /** The event issued tokens for session k. */
  predicate Issues(e: Event, k: string) {
    (e.response.Created? || e.response.Rotated?) && e.response.key == k
  }

  /** The event renewed session k: its creation, a rotation or a TALK patch. */
  predicate Renews(e: Event, k: string) {
    Issues(e, k) || (e.step.Patch? && e.step.key == k && e.step.request.state == Some(Talk) && e.response != NotFound)
  }

  function LastIssue(tr: seq<Event>, k: string): (r: Option<Event>)
    ensures r.Some? ==> Issues(r.value, k)
  {
    if tr == [] then None else
    var e := tr[|tr| - 1];
    if Issues(e, k) then Some(e) else LastIssue(tr[..|tr| - 1], k)
  }

  function LastRenewal(tr: seq<Event>, k: string): Option<int> {
    if tr == [] then None else
    var e := tr[|tr| - 1];
    if Renews(e, k) then Some(e.at) else LastRenewal(tr[..|tr| - 1], k)
  }

  /** Since the last issue of tokens for k, a close was accepted on one of those tokens. */
  predicate ClosedByToken(tr: seq<Event>, k: string) {
    tr != [] &&
    var e, prev := tr[|tr| - 1], tr[..|tr| - 1];
    if Issues(e, k) then false
    else || ClosedByToken(prev, k)
         || (e.step.CloseByToken? && e.response.Closed?
             && LastIssue(prev, k).Some? && e.step.token.jti == LastIssue(prev, k).value.response.jti)
  }

  /** The turns saved for k, in order. */
  function TurnsIn(tr: seq<Event>, k: string): seq<Json> {
    if tr == [] then [] else
    var e := tr[|tr| - 1];
    TurnsIn(tr[..|tr| - 1], k)
    + if e.step.SaveResult? && e.step.key == k && e.response.TurnSaved? then [e.response.turn] else []
  }

  predicate Accepts(e: Event, k: string) {
    e.step.Patch? && e.step.key == k && e.response.Patched?
  }

  /** The turn ids of accepted patches of k, in order, repetitions included. */
  function PatchedIds(tr: seq<Event>, k: string): seq<string> {
    if tr == [] then [] else
    var e := tr[|tr| - 1];
    PatchedIds(tr[..|tr| - 1], k)
    + if Accepts(e, k) && e.step.request.turnId.Some? then [e.step.request.turnId.value] else []
  }

  /** The elements of s in the order of their first occurrence. */
  function FirstSeen(s: seq<string>): (r: seq<string>)
    ensures forall x :: x in r <==> x in s
    ensures forall i, j :: 0 <= i < j < |r| ==> r[i] != r[j]
  {
    if s == [] then [] else
    var init, last := s[..|s| - 1], s[|s| - 1];
    assert s == init + [last];
    if last in init then FirstSeen(init) else FirstSeen(init) + [last]
  }

  /** The position of the first occurrence of x. */
  function FirstAt(s: seq<string>, x: string): (n: nat)
    requires x in s
    ensures n < |s| && s[n] == x && x !in s[..n]
  {
    var m := |s| - 1;
    assert s == s[..m] + [s[m]];
    if x in s[..m] then
      var n := FirstAt(s[..m], x);
      assert s[..m][..n] == s[..n];
      n
    else m
  }

  /** FirstSeen keeps the elements, each once, in the order of their first occurrence. */
  lemma {:induction false} FirstSeenOrder(s: seq<string>, i: nat, j: nat)
    requires i < j < |FirstSeen(s)|
    ensures FirstAt(s, FirstSeen(s)[i]) < FirstAt(s, FirstSeen(s)[j])
  {
    var m := |s| - 1;
    var init := s[..m];
    assert s == init + [s[m]];
    if j < |FirstSeen(init)| { FirstSeenOrder(init, i, j); }
  }

  /** The pair an accepted patch of k last registered for agent a. */
  function LastAgent(tr: seq<Event>, k: string, a: string): Option<Agent> {
    if tr == [] then None else
    var e := tr[|tr| - 1];
    if Accepts(e, k) && RegistersAgent(e.step.request) && e.step.request.patch.value.lastAgentId == Some(a)
    then Some(AgentOf(e.step.request.patch.value))
    else LastAgent(tr[..|tr| - 1], k, a)
  }

  /** The last non-empty merged reference information of an accepted patch of k. */
  function LastReference(tr: seq<Event>, k: string): map<string, Json> {
    if tr == [] then map[] else
    var e := tr[|tr| - 1];
    if Accepts(e, k) then AmendedReference(LastReference(tr[..|tr| - 1], k), e.step.request)
    else LastReference(tr[..|tr| - 1], k)
  }

  predicate SavesFor(e: Event, k: string) {
    e.step.UpdateProfile? && e.step.key == k && e.response.ProfileSaved?
  }

  /** The customer number of the last profile of k that carried one. */
  function LastCustomer(c: Config, tr: seq<Event>, k: string): Option<string> {
    if tr == [] then None else
    var e := tr[|tr| - 1];
    if SavesFor(e, k) && CustomerIn(c, e.step.profile).Customer?
    then Some(CustomerIn(c, e.step.profile).cusno)
    else LastCustomer(c, tr[..|tr| - 1], k)
  }

  predicate EverSaved(tr: seq<Event>, k: string) {
    exists i :: 0 <= i < |tr| && SavesFor(tr[i], k)
  }

  /** The key a profile update writes under. */
  function WrittenKey(c: Config, s: Step): string
    requires s.UpdateProfile?
  {
    var who := CustomerIn(c, s.profile);
    if who.Customer? then who.cusno else s.key
  }

  /** The profile last written under p, by any session. */
  function LastProfile(c: Config, tr: seq<Event>, p: string): Option<Json> {
    if tr == [] then None else
    var e := tr[|tr| - 1];
    if e.step.UpdateProfile? && e.response.ProfileSaved? && WrittenKey(c, e.step) == p
    then Some(Obj(e.step.profile))
    else LastProfile(c, tr[..|tr| - 1], p)
  }

  // ---------- the ledger agrees with the trace ----------

  ghost predicate IssueAgrees(c: Config, r: Record, e: Option<Event>) {
    && e.Some? && (e.value.response.Created? || e.value.response.Rotated?)
    && e.value.at == r.issuedAt && e.value.response.jti == r.jti
    && e.value.response.refresh == RefreshToken(c, r.jti, e.value.response.refresh.sub, r.issuedAt)
    && e.value.response.access == AccessToken(c, r.jti, e.value.response.access.sub, r.issuedAt)
  }

  ghost predicate ContentAgrees(r: Record, tr: seq<Event>, k: string) {
    && r.turns == TurnsIn(tr, k)
    && r.turnIds == (if PatchedIds(tr, k) == [] then None else Some(FirstSeen(PatchedIds(tr, k))))
    && (forall a :: Get(r.agents, a) == LastAgent(tr, k, a))
    && r.reference == LastReference(tr, k)
  }

  ghost predicate AgreesOn(c: Config, l: Ledger, tr: seq<Event>, k: string)
    requires k in l.records
  {
    var r := l.records[k];
    && LastRenewal(tr, k) == Some(r.extendedAt)
    && IssueAgrees(c, r, LastIssue(tr, k))
    && r.revoked == ClosedByToken(tr, k)
    && ContentAgrees(r, tr, k)
    && r.cusno == LastCustomer(c, tr, k)
    && HasProfile(r) == EverSaved(tr, k)
  }

  /** Nothing has been accepted for a key that was never created. */
  ghost predicate Untouched(c: Config, tr: seq<Event>, k: string) {
    && LastRenewal(tr, k) == None && LastIssue(tr, k) == None && !ClosedByToken(tr, k)
    && TurnsIn(tr, k) == [] && PatchedIds(tr, k) == [] && (forall a :: LastAgent(tr, k, a) == None)
    && LastReference(tr, k) == map[] && LastCustomer(c, tr, k) == None && !EverSaved(tr, k)
  }

  ghost predicate Agrees(c: Config, l: Ledger, tr: seq<Event>) {
    && (forall k {:trigger AgreesOn(c, l, tr, k)} :: k in l.records ==> AgreesOn(c, l, tr, k))
    && (forall k {:trigger Untouched(c, tr, k)} :: k !in l.records ==> Untouched(c, tr, k))
    && (forall p :: LastProfile(c, tr, p) == if p in l.realtime then Some(l.realtime[p].value) else None)
  }
}
