/** The run loop of one executor: it routes each iteration to planner, synthesizer, verifier
    or a terminal decision, retries a failing model role once, and guards against repeated
    actions.  Every write goes through the protocol steps; provider, tools, clock and
    capacity checks answer nondeterministically. */
module InvestigationLoop {
  import opened Wrappers
  import opened InvestigationPolicy
  import opened RunProtocol

  const MAX_IDENTICAL_ACTION_STATE_REPEATS := 3
  const MAX_SYNTHESIS_PASSES_WITHOUT_GROUND_TRUTH := 2

  predicate Transient(c: Code) {
    c.Timeout? || c.ProviderUnavailable? || c.RateLimit? || c.InvalidResponse? || c.ResponseMalformed? || c.EmptyResponse?
  }

  // The provider codes an iteration handles; any other error leaves the iteration.
  predicate Handled(c: Code) {
    Transient(c) || c.ProviderError? || c.SchemaUnsupported? || c.OutputTruncated?
  }

  // ---------- what the routing guards read ----------

  function TrailingFailures(calls: seq<Call>, role: Role): nat {
    if calls == [] then 0
    else
      var c := calls[|calls| - 1];
      if c.role == role && c.status == Success then 0
      else TrailingFailures(calls[..|calls| - 1], role) + if c.role == role && c.status == FailedCall then 1 else 0
  }

  predicate RetryDue(r: Run, role: Role) {
    && r.calls != []
    && var c := r.calls[|r.calls| - 1];
    c.role == role && c.status == FailedCall && Transient(c.code) && TrailingFailures(r.calls, role) <= 1
  }

  function Max(a: nat, b: nat): nat { if a < b then b else a }

  function LatestSynthesis(calls: seq<Call>): Option<nat> {
    if calls == [] then None
    else
      var c, earlier := calls[|calls| - 1], LatestSynthesis(calls[..|calls| - 1]);
      if c.role == Synthesizer && c.status == Success then Some(Max(c.finishedAt, earlier.GetOr(0))) else earlier
  }

  function CountSyntheses(calls: seq<Call>, since: Option<nat>): nat {
    if calls == [] then 0
    else
      var c := calls[|calls| - 1];
      CountSyntheses(calls[..|calls| - 1], since)
      + if c.role == Synthesizer && c.status == Success && (since.None? || c.finishedAt > since.value) then 1 else 0
  }

  function LatestStep(steps: seq<Step>): nat {
    if steps == [] then 0
    else Max(LatestStep(steps[..|steps| - 1]), if steps[|steps| - 1].success then steps[|steps| - 1].finishedAt else 0)
  }

  function LatestReportAt(r: Run): nat {
    if r.reports == [] then 0 else r.reports[|r.reports| - 1].createdAt
  }

  // New ground truth is a tool result, a human answer or a verifier report.
  function GroundTruthAt(r: Run): nat {
    Max(LatestStep(r.trail.steps), Max(r.trail.inputAt.GetOr(0), LatestReportAt(r)))
  }

  predicate Blocked(r: Run) { PreVerifierBlockers(PolicyOf(r)) != {} }

  predicate VerificationDue(r: Run) {
    && !Blocked(r)
    && (r.reports == [] || r.reports[|r.reports| - 1].bound != Current(r))
    && LatestSynthesis(r.calls).Some?
    && LatestStep(r.trail.steps) <= LatestSynthesis(r.calls).value
    && r.trail.inputAt.GetOr(0) <= LatestSynthesis(r.calls).value
  }

  predicate PreVerifierRepairDue(r: Run) {
    && Blocked(r)
    && LatestSynthesis(r.calls).Some?
    && (r.package.searched || CountSyntheses(r.calls, None) >= 2)
    && GroundTruthAt(r) <= LatestSynthesis(r.calls).value
  }

  predicate VerifierRepairDue(r: Run) {
    && r.reports != []
    && var p := r.reports[|r.reports| - 1];
    && !p.success && p.bound == Current(r)
    && forall c :: c in r.calls && c.role == Synthesizer && c.status == Success ==> c.createdAt <= p.createdAt
  }

  // Where an iteration of a running run goes, budgets other than model calls aside.
  datatype Route = AskHuman | GoReady | GiveUp | Ask(role: Role)

  predicate Exhausted(r: Run) { r.budget.modelCalls >= r.budget.maxModelCalls }

  predicate RepairStuck(r: Run) {
    PreVerifierRepairDue(r) && CountSyntheses(r.calls, Some(GroundTruthAt(r))) >= MAX_SYNTHESIS_PASSES_WITHOUT_GROUND_TRUTH
  }

  function Routing(r: Run): Route {
    if Gap(r.package) then AskHuman
    else if Evaluate(PolicyOf(r)) == ReadyForDecision then GoReady
    else if Exhausted(r) then AskHuman
    else if RetryDue(r, Verifier) || (VerificationDue(r) && !VerifierRepairDue(r)) then Ask(Verifier)
    else if RepairStuck(r) then GiveUp
    else if VerifierRepairDue(r) || RetryDue(r, Synthesizer) || PreVerifierRepairDue(r) then Ask(Synthesizer)
    else Ask(Planner)
  }

  /** Routing never asks the verifier about a package with deterministic findings, never again
      about a package whose failing report still binds it (unless that call itself is retried),
      and stops asking for repairs after two syntheses without new ground truth. */
  lemma RoutingIsDisciplined(r: Run)
    requires Routed(r)
    ensures Routing(r) == Ask(Verifier) ==> !Blocked(r)
    ensures Routing(r) == Ask(Verifier) && !RetryDue(r, Verifier) ==>
      r.reports != [] ==> r.reports[|r.reports| - 1].bound != Current(r)
    ensures Routing(r) == Ask(Synthesizer) && PreVerifierRepairDue(r) ==>
      CountSyntheses(r.calls, Some(GroundTruthAt(r))) < MAX_SYNTHESIS_PASSES_WITHOUT_GROUND_TRUTH
    ensures Routing(r) == Ask(Verifier) && VerifierRepairDue(r) ==> RetryDue(r, Verifier)
  {
    if RetryDue(r, Verifier) { assert r.calls[|r.calls| - 1].role == Verifier; }
  }

  // The first call an iteration made, if it made one.
  ghost predicate FirstCall(r: Run, r': Run, role: Role) {
    |r'.calls| > |r.calls| ==> r'.calls[|r.calls|].role == role
  }

  // ---------- actions and results ----------

  datatype Action = Tool(name: string) | Synthesize(claims: seq<Check>, brief: Brief, relevance: Option<string>) | Investigate | Clarify

  datatype Fingerprint = Fingerprint(
    action: string, register: Register, brief: Brief, steps: seq<(string, bool)>,
    verifier: Option<(bool, nat, bool, set<string>)>, inputs: Option<nat>)

  function FingerprintOf(r: Run, action: string): Fingerprint {
    var steps := seq(|r.trail.steps|, i requires 0 <= i < |r.trail.steps| => (r.trail.steps[i].key, r.trail.steps[i].success));
    var verifier := if r.reports == [] then None
      else var p := r.reports[|r.reports| - 1]; Some((p.success, p.critical, p.referencesValid, p.checked));
    Fingerprint(action, Current(r).register, Current(r).brief, steps, verifier, r.trail.inputAt)
  }

  datatype CallResult = Answered | RefusedForBudget | ProviderFailed(code: Code) | CallRaised

  datatype Advanced = Returned(status: Status) | Raised

  // What an iteration may come to, given where it was routed.
  ghost predicate Obeys(route: Route, r: Run, r': Run, result: Advanced) {
    match route
    case AskHuman => result == Returned(WaitingHuman) && r'.calls == r.calls
    case GoReady => |r'.calls| == |r.calls| && r'.package == r.package
      && (result == Returned(Ready) || (result == Raised && r'.reports != r.reports))
    case GiveUp => (result == Returned(Failed) || result == Returned(WaitingHuman)) && r'.calls == r.calls
    case Ask(role) => FirstCall(r, r', role) && (|r'.calls| == |r.calls| ==> result == Returned(WaitingHuman) || result == Raised)
  }

  // ---------- invariants ----------

  // Between two iterations the executor is in the middle of nothing.
  ghost predicate Idle(r: Run) { Inv(r) && r.generation !in r.busy }

  // No verifier call was ever made on a package with deterministic blockers, and the package
  // has not acquired any since the latest call if that was a verifier call.
  ghost predicate Routed(r: Run) {
    && (forall k :: 0 <= k < |r.calls| && r.calls[k].role == Verifier ==> !r.calls[k].blocked)
    && (r.calls != [] && r.calls[|r.calls| - 1].role == Verifier ==> !Blocked(r))
  }

  ghost predicate RetriesBounded(r: Run) {
    forall role :: TrailingFailures(r.calls, role) <= 1
  }

  // The retry and repeat discipline at the end of an iteration.
  ghost predicate Boundary(r: Run, repeats: nat) {
    r.status == Running ==> RetriesBounded(r) && repeats <= MAX_IDENTICAL_ACTION_STATE_REPEATS
  }

  // No role but that of the latest call is past its one retry.
  ghost predicate OthersBounded(r: Run) {
    r.calls != [] && forall role :: role != r.calls[|r.calls| - 1].role ==> TrailingFailures(r.calls, role) <= 1
  }

  function RemainingCalls(r: Run): int { r.budget.maxModelCalls - r.budget.modelCalls }

  lemma TrailingAfter(calls: seq<Call>, c: Call, role: Role)
    ensures TrailingFailures(calls + [c], role) ==
            if c.role == role && c.status == Success then 0
            else TrailingFailures(calls, role) + if c.role == role && c.status == FailedCall then 1 else 0
  {
    assert (calls + [c])[..|calls|] == calls;
  }

  // Calls are never lost, and keep their role, their executor and the package they were made on.
  ghost predicate SameCalls(r: Run, r': Run) {
    && |r.calls| <= |r'.calls|
    && forall k :: 0 <= k < |r.calls| ==>
         && r'.calls[k].role == r.calls[k].role && r'.calls[k].blocked == r.calls[k].blocked
         && r'.calls[k].generation == r.calls[k].generation
  }

  // One call was appended.
  ghost predicate OneCall(r: Run, r': Run, role: Role, status: CallStatus) {
    && |r'.calls| == |r.calls| + 1 && SameCalls(r, r')
    && r'.calls[|r.calls|].role == role && r'.calls[|r.calls|].status == status
    && r'.calls[|r.calls|].blocked == Blocked(r)
  }

  // A provider call touches neither package nor status nor steps.
  ghost predicate SamePackage(r: Run, r': Run) {
    && r'.package == r.package && r'.status == r.status && r'.generation == r.generation
    && r'.budget.maxModelCalls == r.budget.maxModelCalls && r'.budget.maxVerifierCalls == r.budget.maxVerifierCalls
    && r'.approvedBy == r.approvedBy && r'.trail.steps == r.trail.steps
  }

  // The state while the owner waits for the provider.
  ghost predicate Waiting(r: Run, r1: Run, role: Role) {
    && SamePackage(r, r1) && OneCall(r, r1, role, InFlight)
    && r1.calls[|r.calls|].generation == r.generation && !r1.calls[|r.calls|].contractError
    && r.generation in r1.busy && r1.busy[r.generation] == Calling(|r.calls|)
    && r1.budget.modelCalls == r.budget.modelCalls + 1
  }

  // The state after the owner's call is closed.
  ghost predicate Closed(r: Run, r2: Run, role: Role, status: CallStatus) {
    && SamePackage(r, r2) && OneCall(r, r2, role, status) && r2.budget.modelCalls == r.budget.modelCalls + 1
    && (if role == Verifier && status == Success
        then r.generation in r2.busy && r2.busy[r.generation] == Reviewed(|r.calls|) else r.generation !in r2.busy)
  }

  lemma ReservedCall(r: Run, role: Role)
    requires Idle(r) && CanReserve(r, r.generation, role)
    ensures Waiting(r, Reserve(r, r.generation, role), role)
    ensures Reserve(r, r.generation, role).calls[..|r.calls|] == r.calls
  {
  }

  // Closing a call changes no row but its own.
  ghost predicate OthersKept(r1: Run, r2: Run, i: nat) {
    |r2.calls| == |r1.calls| && forall k :: 0 <= k < |r1.calls| && k != i ==> r2.calls[k] == r1.calls[k]
  }

  lemma FinishedCall(r: Run, r1: Run, role: Role, contractOk: bool)
    requires r.status == Running && Waiting(r, r1, role)
    ensures var r2 := Finish(r1, r.generation, contractOk);
      && Closed(r, r2, role, if contractOk then Success else FailedCall) && OthersKept(r1, r2, |r.calls|)
      && (!contractOk ==> r2.calls[|r.calls|].code == InvalidResponse)
  {
  }

  lemma FailedProviderCall(r: Run, r1: Run, role: Role, code: Code)
    requires Waiting(r, r1, role)
    ensures var r2 := FailCall(r1, r.generation, code);
      Closed(r, r2, role, FailedCall) && OthersKept(r1, r2, |r.calls|) && r2.calls[|r.calls|].code == code
  {
  }

  lemma AbandonedCall(r: Run, r1: Run, role: Role)
    requires Waiting(r, r1, role)
    ensures Closed(r, Drop(r1, r.generation), role, InFlight) && Drop(r1, r.generation).calls == r1.calls
  {
  }

  // What a closed call leaves of the routing invariants.
  lemma ClosedKeepsRouting(r: Run, r2: Run, role: Role, status: CallStatus)
    requires Routed(r) && Closed(r, r2, role, status) && (role == Verifier ==> !Blocked(r))
    ensures Routed(r2)
  {
    BlockedDependsOnPackage(r, r2);
  }

  lemma BlockedDependsOnPackage(r: Run, r': Run)
    requires r'.package == r.package
    ensures Blocked(r') == Blocked(r)
  {
  }

  lemma ClosedTrailing(r: Run, r2: Run, role: Role, status: CallStatus, which: Role)
    requires Closed(r, r2, role, status) && r2.calls[..|r.calls|] == r.calls
    ensures TrailingFailures(r2.calls, which) ==
            if which == role && status == Success then 0
            else TrailingFailures(r.calls, which) + if which == role && status == FailedCall then 1 else 0
  {
    assert r2.calls == r.calls + [r2.calls[|r.calls|]];
    TrailingAfter(r.calls, r2.calls[|r.calls|], which);
  }

  lemma ClosedRetries(r: Run, r2: Run, role: Role, status: CallStatus)
    requires Closed(r, r2, role, status) && r2.calls[..|r.calls|] == r.calls && RetriesBounded(r)
    ensures status != FailedCall ==> RetriesBounded(r2)
    ensures status == FailedCall ==> OthersBounded(r2)
  {
    forall which ensures TrailingFailures(r2.calls, which) ==
      if which == role && status == Success then 0
      else TrailingFailures(r.calls, which) + if which == role && status == FailedCall then 1 else 0
    {
      ClosedTrailing(r, r2, role, status, which);
    }
  }

  // ---------- what superseded executors can still do ----------

  // A step of an executor whose generation is not g.
  predicate BySuperseded(e: Event, g: nat) {
    || ByOther(e, g)
    || match e
       case ERecord(h, _, _, _) => h != g
       case EReady(h) => h != g
       case EWaiting(h) => h != g
       case EFailed(h) => h != g
       case _ => false
  }

  // What they leave alone: everything but the rows of their own calls and the report list.
  ghost predicate Disturbed(r: Run, s: Run) {
    && SamePackage(r, s) && s.budget == r.budget && s.trail.inputAt == r.trail.inputAt && s.trail.readsSpent == r.trail.readsSpent
    && |s.calls| == |r.calls| && SameCalls(r, s)
    && (forall k :: 0 <= k < |r.calls| && r.calls[k].generation == r.generation ==> s.calls[k] == r.calls[k])
    && (r.generation in s.busy <==> r.generation in r.busy)
    && (r.generation in r.busy ==> s.busy[r.generation] == r.busy[r.generation])
  }

  lemma SupersededFinish(r: Run, h: nat, ok: bool)
    requires Inv(r) && h != r.generation
    ensures Disturbed(r, Finish(r, h, ok))
  {
    if IsCalling(r, h) { assert PhaseOk(r, h); }
  }

  lemma SupersededFailure(r: Run, h: nat, code: Code)
    requires Inv(r) && h != r.generation
    ensures Disturbed(r, FailCall(r, h, code))
  {
    if IsCalling(r, h) { assert PhaseOk(r, h); }
  }

  // All other steps of a superseded executor have no effect, save that it may report or give up.
  lemma SupersededElse(r: Run, e: Event)
    requires BySuperseded(e, r.generation) && !e.EFinish? && !e.EFailCall?
    ensures Disturbed(r, Apply(r, e))
  {
  }

  /** Whatever a superseded executor does, it reserves no call, writes no package and decides
      nothing: it can close its own calls, append a report, or stop. */
  lemma SupersededDisturbs(r: Run, e: Event)
    requires Inv(r) && BySuperseded(e, r.generation)
    ensures Inv(Apply(r, e)) && Disturbed(r, Apply(r, e))
  {
    StepKeepsInv(r, e);
    match e
    case EFinish(h, ok) => SupersededFinish(r, h, ok);
    case EFailCall(h, code) => SupersededFailure(r, h, code);
    case _ => SupersededElse(r, e);
  }

  lemma WaitingDisturbed(r: Run, r1: Run, s: Run, role: Role)
    requires Waiting(r, r1, role) && Disturbed(r1, s)
    ensures Waiting(r, s, role)
  {
  }

  // ---------- routing across takeovers ----------

  predicate LastIsVerifier(r: Run) { r.calls != [] && r.calls[|r.calls| - 1].role == Verifier }

  // What the loop of an owner sees to: it asks the verifier only about an unblocked package, and
  // it writes the package only after a call of another role.
  predicate Disciplined(r: Run, e: Event) {
    match e
    case EReserve(g, role) => role == Verifier && CanReserve(r, g, role) ==> !Blocked(r)
    case EApply(g, _, _) => MayWrite(r, g) ==> !LastIsVerifier(r)
    case ERelevance(g, _) => MayWrite(r, g) ==> !LastIsVerifier(r)
    case _ => true
  }

  predicate DisciplinedRun(r: Run, es: seq<Event>) {
    es != [] ==> DisciplinedRun(r, es[..|es| - 1]) && Disciplined(After(r, es[..|es| - 1]), es[|es| - 1])
  }

  // A step that leaves the call log's roles and, behind a verifier call, the blockers alone.
  ghost predicate KeepsRoute(r: Run, s: Run) {
    && |s.calls| == |r.calls| && SameCalls(r, s)
    && (LastIsVerifier(r) ==> SameParts(r, s))
  }

  // What the deterministic blockers read stays, or relevance becomes complete.
  predicate SameParts(r: Run, s: Run) {
    && s.package.hashes.brief == r.package.hashes.brief && Claims(s) == Claims(r)
    && (r.package.relevanceComplete ==> s.package.relevanceComplete)
  }

  lemma BlockersOfParts(r: Run, s: Run)
    requires SameParts(r, s)
    ensures !Blocked(r) ==> !Blocked(s)
  {
    PreVerifierExact(PolicyOf(r));
    PreVerifierExact(PolicyOf(s));
  }

  lemma RouteKept(r: Run, s: Run)
    requires Routed(r) && KeepsRoute(r, s)
    ensures Routed(s)
  {
    if LastIsVerifier(r) { BlockersOfParts(r, s); }
  }

  lemma ReserveRoutes(r: Run, g: nat, role: Role)
    requires Routed(r) && (role == Verifier && CanReserve(r, g, role) ==> !Blocked(r))
    ensures Routed(Reserve(r, g, role))
  {
    var s := Reserve(r, g, role);
    if s != r {
      assert s.calls[..|r.calls|] == r.calls;
      assert forall k :: 0 <= k < |r.calls| ==> s.calls[k] == r.calls[k];
      BlockedDependsOnPackage(r, s);
    }
  }

  lemma OtherStepsKeepRoute(r: Run, e: Event)
    requires !e.EReserve? && Disciplined(r, e)
    ensures KeepsRoute(r, Apply(r, e))
  {
  }

  /** Over every history of takeovers, users and the pool in which each owner keeps the loop's
      discipline, every verifier call was made on a package without deterministic blockers. */
  lemma {:induction false} RoutedReachable(r: Run, es: seq<Event>)
    requires Routed(r) && DisciplinedRun(r, es)
    ensures Routed(After(r, es))
  {
    if es != [] {
      var m, e := After(r, es[..|es| - 1]), es[|es| - 1];
      RoutedReachable(r, es[..|es| - 1]);
      if e.EReserve? { ReserveRoutes(m, e.g, e.role); } else {
        OtherStepsKeepRoute(m, e);
        RouteKept(m, Apply(m, e));
      }
    }
  }

  /** So whoever takes a run over starts in the middle of nothing and on a routed call log,
      whatever the retry counts are. */
  lemma SuccessorStartsRouted(r: Run, es: seq<Event>)
    requires Initial(r) && DisciplinedRun(r, es)
    ensures var s := After(r, es);
      && (s.status == Running ==> Idle(Recover(s)) && Routed(Recover(s)))
      && (s.status == WaitingHuman ==> Idle(ContinueWithInput(s)) && Routed(ContinueWithInput(s)))
  {
    var s := After(r, es);
    InvReachable(r, es);
    RoutedReachable(r, es);
    NextGenerationIdle(s);
    StepKeepsInv(s, ERecover);
    StepKeepsInv(s, EContinue);
    OtherStepsKeepRoute(s, ERecover);
    OtherStepsKeepRoute(s, EContinue);
    RouteKept(s, Recover(s));
    RouteKept(s, ContinueWithInput(s));
  }

  /** The protocol alone does not see to it: the owner's write of a brief with findings and then a
      verifier call put a blocked package before the verifier. */
  lemma UndisciplinedBlocked(r: Run, claims: seq<Check>, brief: Brief)
    requires CanReserve(r, r.generation, Verifier) && brief.findings != {}
    ensures var s := Reserve(ApplyPackage(r, r.generation, claims, brief), r.generation, Verifier);
      !Routed(s)
  {
    var m := ApplyPackage(r, r.generation, claims, brief);
    PreVerifierExact(PolicyOf(m));
    var s := Reserve(m, r.generation, Verifier);
    assert s.calls[|r.calls|].role == Verifier && s.calls[|r.calls|].blocked;
  }

  // ---------- retries across takeovers ----------

  predicate SucceededAfter(calls: seq<Call>, i: nat, role: Role) {
    exists k :: i < k < |calls| && calls[k].role == role && calls[k].status == Success
  }

  lemma {:induction false} TrailingWithFailure(calls: seq<Call>, i: nat, c: Call, role: Role)
    requires i < |calls| && calls[i].status == InFlight && c.role == calls[i].role && c.status == FailedCall
    ensures TrailingFailures(calls[i := c], role)
      == TrailingFailures(calls, role) + if role == c.role && !SucceededAfter(calls, i, role) then 1 else 0
  {
    var n := |calls| - 1;
    if i == n {
      assert calls[i := c][..n] == calls[..n];
    } else {
      assert calls[i := c][..n] == calls[..n][i := c];
      TrailingWithFailure(calls[..n], i, c, role);
      if calls[n].role == role && calls[n].status == Success {
        assert SucceededAfter(calls, i, role);
      } else {
        assert SucceededAfter(calls, i, role) <==> SucceededAfter(calls[..n], i, role) by {
          if k :| i < k < |calls| && calls[k].role == role && calls[k].status == Success { assert calls[..n][k] == calls[k]; }
          if k :| i < k < n && calls[..n][k].role == role && calls[..n][k].status == Success { assert calls[k] == calls[..n][k]; }
        }
      }
    }
  }

  /** Closing a failed call checks no token.  The bound of one trailing failure per role survives a
      late failure exactly if the role has no trailing failure yet or has succeeded since. */
  lemma LateFailureExactly(r: Run, g: nat, code: Code)
    requires RetriesBounded(r) && IsCalling(r, g) && r.calls[r.busy[g].call].status == InFlight
    ensures var i := r.busy[g].call;
      RetriesBounded(FailCall(r, g, code)) <==>
        TrailingFailures(r.calls, r.calls[i].role) == 0 || SucceededAfter(r.calls, i, r.calls[i].role)
  {
    var i, s := r.busy[g].call, FailCall(r, g, code);
    forall role ensures TrailingFailures(s.calls, role)
      == TrailingFailures(r.calls, role) + if role == r.calls[i].role && !SucceededAfter(r.calls, i, role) then 1 else 0
    {
      TrailingWithFailure(r.calls, i, s.calls[i], role);
    }
  }

  lemma ReserveAppends(r: Run, g: nat, role: Role)
    requires CanReserve(r, g, role)
    ensures var s := Reserve(r, g, role);
      && |s.calls| == |r.calls| + 1 && s.calls[..|r.calls|] == r.calls
      && s.calls[|r.calls|].role == role && s.calls[|r.calls|].status == InFlight
      && s.busy == r.busy[g := Calling(|r.calls|)] && s.status == r.status && s.generation == r.generation
      && s.budget.modelCalls == r.budget.modelCalls + 1 && s.budget.verifierCalls <= r.budget.verifierCalls + 1
      && s.budget.maxModelCalls == r.budget.maxModelCalls && s.budget.maxVerifierCalls == r.budget.maxVerifierCalls
  {}

  lemma FailCloses(r: Run, g: nat)
    requires IsCalling(r, g) && r.calls[r.busy[g].call].status == InFlight
    ensures var s, i := FailCall(r, g, Timeout), r.busy[g].call;
      && s.status == r.status && s.busy == r.busy - {g} && |s.calls| == |r.calls|
      && s.calls[i].role == r.calls[i].role && s.calls[i].status == FailedCall
      && forall k :: 0 <= k < |r.calls| && k != i ==> s.calls[k] == r.calls[k]
  {}

  // The calls of both executors are in flight, one after the other.
  ghost predicate BothCalling(r: Run, g: nat, h: nat, role: Role) {
    && g != h && IsCalling(r, g) && IsCalling(r, h) && |r.calls| >= 2 && r.status == Running
    && r.busy[g].call == |r.calls| - 2 && r.busy[h].call == |r.calls| - 1
    && r.calls[|r.calls| - 1].status == InFlight && r.calls[|r.calls| - 2].status == InFlight
    && r.calls[|r.calls| - 1].role == role && r.calls[|r.calls| - 2].role == role
  }

  lemma TwoFailures(r: Run, g: nat, h: nat, role: Role) returns (es: seq<Event>, s: Run)
    requires BothCalling(r, g, h, role)
    ensures s == After(r, es) && s.status == Running && TrailingFailures(s.calls, role) >= 2
  {
    es := [EFailCall(h, Timeout)] + [EFailCall(g, Timeout)];
    AfterTwo(r, EFailCall(h, Timeout), EFailCall(g, Timeout));
    FailCloses(r, h);
    var first := FailCall(r, h, Timeout);
    FailCloses(first, g);
    s := FailCall(first, g, Timeout);
    assert s.calls[..|s.calls| - 1][..|s.calls| - 2] == s.calls[..|s.calls| - 2];
    assert TrailingFailures(s.calls[..|s.calls| - 1], role) >= 1;
  }

  lemma CalledAndRecovered(r: Run, role: Role) returns (es: seq<Event>, s: Run)
    requires CanReserve(r, r.generation, role) && r.generation + 1 !in r.busy
    requires r.budget.modelCalls + 2 <= r.budget.maxModelCalls
    requires role == Verifier ==> r.budget.verifierCalls + 2 <= r.budget.maxVerifierCalls
    ensures s == After(r, es) && s.generation == r.generation + 1 && CanReserve(s, s.generation, role)
    ensures r.generation in s.busy && s.busy[r.generation] == Calling(|r.calls|) && |s.calls| == |r.calls| + 1
    ensures s.calls[|r.calls|].role == role && s.calls[|r.calls|].status == InFlight
  {
    var g := r.generation;
    es := [EReserve(g, role)] + [ERecover];
    AfterTwo(r, EReserve(g, role), ERecover);
    ReserveAppends(r, g, role);
    s := Recover(Reserve(r, g, role));
  }

  lemma CallsToo(r: Run, g: nat, role: Role) returns (s: Run)
    requires CanReserve(r, r.generation, role) && g != r.generation && IsCalling(r, g) && r.busy[g].call == |r.calls| - 1
    requires r.calls[|r.calls| - 1].role == role && r.calls[|r.calls| - 1].status == InFlight
    ensures s == After(r, [EReserve(r.generation, role)]) && BothCalling(s, g, r.generation, role)
  {
    AfterOne(r, EReserve(r.generation, role));
    ReserveAppends(r, r.generation, role);
    s := Reserve(r, r.generation, role);
    assert s.calls[|r.calls| - 1] == s.calls[..|r.calls|][|r.calls| - 1];
  }

  /** And it does not always survive: from every state with two calls to spend, a takeover while a
      call is in flight leads to a RUNNING run with two trailing failures of one role. */
  lemma LateFailureReached(r: Run, role: Role) returns (es: seq<Event>, s: Run)
    requires Inv(r) && CanReserve(r, r.generation, role)
    requires r.budget.modelCalls + 2 <= r.budget.maxModelCalls
    requires role == Verifier ==> r.budget.verifierCalls + 2 <= r.budget.maxVerifierCalls
    ensures s == After(r, es) && s.status == Running && TrailingFailures(s.calls, role) >= 2
  {
    NextGenerationIdle(r);
    var es1, s1 := CalledAndRecovered(r, role);
    var s2 := CallsToo(s1, r.generation, role);
    var es3, s3 := TwoFailures(s2, r.generation, s1.generation, role);
    var call := [EReserve(s1.generation, role)];
    AfterConcat(r, es1, call);
    AfterConcat(r, es1 + call, es3);
    es, s := es1 + call + es3, s3;
  }
}
