/** The investigation run as a protocol between executors, users and the worker pool.
    Each event is one database transaction.  An executor is identified by the generation
    whose token it holds and works sequentially; a superseded executor keeps running
    until a token check stops it, and two of its steps carry no token check. */
module RunProtocol {
  import opened Wrappers
  import opened InvestigationPolicy

  datatype Status = Running | WaitingHuman | Ready | Aborted | Failed
  datatype Role = Planner | Synthesizer | Verifier
  datatype CallStatus = InFlight | Success | FailedCall | Discarded

  datatype Code =
    | Timeout | ProviderUnavailable | RateLimit | InvalidResponse | ResponseMalformed | EmptyResponse
    | ProviderError | SchemaUnsupported | OutputTruncated | UnhandledProviderCode
    | StaleExecutor | Interrupted | NoCode

  // seen: the package hashes frozen in the call's context references.
  datatype Call = Call(
    role: Role, status: CallStatus, generation: nat, code: Code, contractError: bool,
    seen: Hashes, blocked: bool, createdAt: nat, finishedAt: nat)

  datatype Report = Report(
    call: nat, generation: nat, success: bool, critical: nat, referencesValid: bool,
    checked: set<string>, bound: Hashes, createdAt: nat)

  // What an executor is in the middle of.
  datatype Phase = Calling(call: nat) | Reviewed(call: nat)

  datatype Step = Step(key: string, success: bool, finishedAt: nat)

  // The decision package with the coverage flags that gate it.
  datatype Package = Package(
    hashes: Hashes, relevanceComplete: bool, searched: bool, processed: bool)

  datatype Budget = Budget(modelCalls: nat, verifierCalls: nat, maxModelCalls: nat, maxVerifierCalls: nat, maxReads: nat)

  // The event log the routing guards read: tool steps, the last human input, the clock; and how
  // many reads the verifier has spent.
  datatype Trail = Trail(steps: seq<Step>, inputAt: Option<nat>, clock: nat, readsSpent: nat)

  datatype Run = Run(
    status: Status, generation: nat, package: Package, calls: seq<Call>, reports: seq<Report>,
    budget: Budget, trail: Trail, busy: map<nat, Phase>, approvedBy: Option<nat>)

  function Current(r: Run): Hashes { r.package.hashes }

  function Claims(r: Run): seq<Check> { r.package.hashes.register.claims }

  function Now(r: Run): nat { r.trail.clock }

  predicate Active(r: Run) { r.status == Running || r.status == WaitingHuman }

  // assert_active and assert_executor, for an executor that is between its steps.
  predicate MayWrite(r: Run, g: nat) { Active(r) && r.generation == g && g !in r.busy }

  // The package rests on a proven, decision-critical source gap.
  predicate Gap(p: Package) { p.hashes.brief.missingEvidence && p.relevanceComplete && p.searched && p.processed }

  function LatestVerifier(r: Run): Option<VerifierState> {
    if r.reports == [] then None else Some(AsVerifierState(r.reports[|r.reports| - 1]))
  }

  function AsVerifierState(p: Report): VerifierState {
    VerifierState(p.success, p.critical, p.bound, p.referencesValid, p.checked)
  }

  function PolicyOf(r: Run): PolicyState {
    PolicyState(Current(r), r.package.relevanceComplete, LatestVerifier(r), Gap(r.package),
                false, r.status == Aborted, false, false, false, r.status == Failed, false)
  }

  function Tick(r: Run): Run { r.(trail := r.trail.(clock := r.trail.clock + 1)) }

  // ---------- provider calls ----------

  predicate CanReserve(r: Run, g: nat, role: Role) {
    && MayWrite(r, g) && r.status == Running
    && r.budget.modelCalls < r.budget.maxModelCalls
    && (role == Verifier ==> r.budget.verifierCalls < r.budget.maxVerifierCalls)
  }

  function Reserve(r: Run, g: nat, role: Role): Run {
    if !CanReserve(r, g, role) then r
    else
      var call := Call(role, InFlight, g, NoCode, false, Current(r), PreVerifierBlockers(PolicyOf(r)) != {}, Now(r), 0);
      Tick(r.(calls := r.calls + [call], busy := r.busy[g := Calling(|r.calls|)],
              budget := r.budget.(modelCalls := r.budget.modelCalls + 1,
                                  verifierCalls := r.budget.verifierCalls + if role == Verifier then 1 else 0)))
  }

  predicate IsCalling(r: Run, g: nat) {
    g in r.busy && r.busy[g].Calling? && r.busy[g].call < |r.calls|
  }

  // The provider answered; a superseded executor's answer is discarded.
  function Finish(r: Run, g: nat, contractOk: bool): Run {
    if !IsCalling(r, g) then r
    else
      var i := r.busy[g].call;
      var c := r.calls[i].(finishedAt := Now(r));
      var stale := r.generation != r.calls[i].generation || r.status != Running;
      if stale then Tick(r.(calls := r.calls[i := c.(status := Discarded, code := StaleExecutor)], busy := r.busy - {g}))
      else if !contractOk then
        Tick(r.(calls := r.calls[i := c.(status := FailedCall, code := InvalidResponse, contractError := true)], busy := r.busy - {g}))
      else
        Tick(r.(calls := r.calls[i := c.(status := Success)],
                busy := if c.role == Verifier then r.busy[g := Reviewed(i)] else r.busy - {g}))
  }

  // The provider failed; this transaction checks no token.
  function FailCall(r: Run, g: nat, code: Code): Run {
    if !IsCalling(r, g) then r
    else
      var i := r.busy[g].call;
      var c := r.calls[i];
      Tick(r.(calls := if c.status == InFlight then r.calls[i := c.(status := FailedCall, code := code, finishedAt := Now(r))]
                       else r.calls,
              busy := r.busy - {g}))
  }

  // ---------- the verifier report ----------

  predicate ReferencesHold(claims: seq<Check>) {
    forall c :: c in claims && (c.status.Supported? || c.status.Refuted?) && IsEvidenceClaim(c) ==> c.referencesValid
  }

  // The report binds the package stored now; this transaction checks no token either.
  function RecordReport(r: Run, g: nat, critical: nat, referencesClaimed: bool, checked: set<string>): Run {
    if !(g in r.busy && r.busy[g].Reviewed?) then r
    else
      var valid := referencesClaimed && ReferencesHold(Claims(r));
      var success := critical == 0 && valid && CriticalIds(Claims(r)) <= checked;
      var report := Report(r.busy[g].call, r.generation, success, critical, valid, checked, Current(r), Now(r));
      Tick(r.(reports := r.reports + [report], busy := r.busy - {g}))
  }

  // The verifier asks for more evidence instead of reporting, or its executor dies.
  function Drop(r: Run, g: nat): Run { r.(busy := r.busy - {g}) }

  // ---------- package and status ----------

  function WithHashes(r: Run, h: Hashes): Run { r.(package := r.package.(hashes := h)) }

  function WithPackage(h: Hashes, claims: seq<Check>, brief: Brief): Hashes {
    h.(register := h.register.(claims := claims), brief := brief)
  }

  function ApplyPackage(r: Run, g: nat, claims: seq<Check>, brief: Brief): Run {
    if !MayWrite(r, g) then r else Tick(WithHashes(r, WithPackage(Current(r), claims, brief)))
  }

  function SetRelevance(r: Run, g: nat, relevance: string): Run {
    if !MayWrite(r, g) then r
    else Tick(r.(package := r.package.(
      hashes := Current(r).(register := Current(r).register.(relevance := relevance)), relevanceComplete := true)))
  }

  function ToolStep(r: Run, g: nat, step: Step, searched: bool, processed: bool): Run {
    if !MayWrite(r, g) || r.status != Running then r
    else Tick(r.(trail := r.trail.(steps := r.trail.steps + [step.(finishedAt := Now(r))]),
                 package := r.package.(searched := searched, processed := processed)))
  }

  // A read the verifier asked for; it has a budget of its own.
  function VerifierRead(r: Run, g: nat, step: Step): Run {
    if r.trail.readsSpent >= r.budget.maxReads then r
    else
      var s := ToolStep(r, g, step, r.package.searched, r.package.processed);
      if s == r then r else s.(trail := s.trail.(readsSpent := r.trail.readsSpent + 1))
  }

  function SetReady(r: Run, g: nat): Run {
    if MayWrite(r, g) && Evaluate(PolicyOf(r)) == ReadyForDecision
    then Tick(r.(status := Ready, generation := r.generation + 1, approvedBy := Some(|r.reports| - 1)))
    else r
  }

  function SetWaiting(r: Run, g: nat): Run {
    if MayWrite(r, g) then Tick(r.(status := WaitingHuman)) else r
  }

  function SetFailed(r: Run, g: nat): Run {
    if MayWrite(r, g) then Tick(r.(status := Failed, generation := r.generation + 1)) else r
  }

  function ContinueWithInput(r: Run): Run {
    if r.status != WaitingHuman then r
    else Tick(WithHashes(
      r.(status := Running, generation := r.generation + 1, trail := r.trail.(inputAt := Some(Now(r)))),
      Current(r).(register := Current(r).register.(inputs := Current(r).register.inputs + 1))))
  }

  function Recover(r: Run): Run {
    if r.status == Running then Tick(r.(generation := r.generation + 1)) else r
  }

  function Abort(r: Run): Run {
    if Active(r) then Tick(r.(status := Aborted, generation := r.generation + 1)) else r
  }

  function DiscardInFlight(calls: seq<Call>, g: nat): seq<Call> {
    seq(|calls|, i requires 0 <= i < |calls| =>
      if calls[i].status == InFlight && calls[i].generation == g
      then calls[i].(status := Discarded, code := Interrupted) else calls[i])
  }

  // The worker pool ends a generation whose lease or process is gone.
  function Interrupt(r: Run, g: nat): Run {
    if r.status == Running && r.generation == g
    then Tick(r.(status := Failed, generation := g + 1, calls := DiscardInFlight(r.calls, g))) else r
  }

  // ---------- histories ----------

  datatype Event =
    | EReserve(g: nat, role: Role) | EFinish(g: nat, contractOk: bool) | EFailCall(g: nat, code: Code)
    | ERecord(g: nat, critical: nat, referencesClaimed: bool, checked: set<string>) | EDrop(g: nat)
    | EApply(g: nat, claims: seq<Check>, brief: Brief) | ERelevance(g: nat, relevance: string)
    | ETool(g: nat, step: Step, searched: bool, processed: bool)
    | EVerifierRead(g: nat, step: Step)
    | EReady(g: nat) | EWaiting(g: nat) | EFailed(g: nat)
    | EContinue | ERecover | EAbort | EInterrupt(g: nat)

  function Apply(r: Run, e: Event): Run {
    match e
    case EReserve(g, role) => Reserve(r, g, role)
    case EFinish(g, ok) => Finish(r, g, ok)
    case EFailCall(g, code) => FailCall(r, g, code)
    case ERecord(g, critical, claimed, checked) => RecordReport(r, g, critical, claimed, checked)
    case EDrop(g) => Drop(r, g)
    case EApply(g, claims, brief) => ApplyPackage(r, g, claims, brief)
    case ERelevance(g, relevance) => SetRelevance(r, g, relevance)
    case ETool(g, step, searched, processed) => ToolStep(r, g, step, searched, processed)
    case EVerifierRead(g, step) => VerifierRead(r, g, step)
    case EReady(g) => SetReady(r, g)
    case EWaiting(g) => SetWaiting(r, g)
    case EFailed(g) => SetFailed(r, g)
    case EContinue => ContinueWithInput(r)
    case ERecover => Recover(r)
    case EAbort => Abort(r)
    case EInterrupt(g) => Interrupt(r, g)
  }

  function After(r: Run, es: seq<Event>): Run {
    if es == [] then r else Apply(After(r, es[..|es| - 1]), es[|es| - 1])
  }

  predicate Initial(r: Run) {
    && r.status == Running && r.generation == 1 && r.calls == [] && r.reports == [] && r.busy == map[]
    && r.approvedBy == None && r.budget.modelCalls == 0 && r.budget.verifierCalls == 0
  }

  // ---------- the invariant ----------

  ghost predicate CallOk(r: Run, c: Call) { c.generation <= r.generation }

  // An executor that still owns the run works on the stored package.
  ghost predicate PhaseOk(r: Run, g: nat) {
    && g in r.busy && g <= r.generation && r.busy[g].call < |r.calls|
    && var c := r.calls[r.busy[g].call];
    && c.generation == g
    && (r.busy[g].Reviewed? ==> c.role == Verifier && c.status == Success)
    && (g == r.generation ==> c.seen == Current(r))
  }

  ghost predicate ReportOk(r: Run, p: Report) {
    && p.call < |r.calls| && r.calls[p.call].role == Verifier && p.generation <= r.generation
    && (p.success <==> p.critical == 0 && p.referencesValid && CriticalIds(p.bound.register.claims) <= p.checked)
    && (p.referencesValid ==> ReferencesHold(p.bound.register.claims))
    && (p.generation == r.calls[p.call].generation ==> p.bound == r.calls[p.call].seen)
  }

  // A READY run carries the report that approved exactly its package.
  ghost predicate ReadyOk(r: Run) {
    r.status == Ready ==>
      && r.approvedBy.Some? && r.approvedBy.value < |r.reports|
      && PackageAcceptable(Current(r), r.package.relevanceComplete) && !Gap(r.package)
      && Approves(AsVerifierState(r.reports[r.approvedBy.value]), Current(r))
  }

  ghost predicate CallsOk(r: Run) { forall k :: 0 <= k < |r.calls| ==> r.calls[k].generation <= r.generation }
  ghost predicate PhasesOk(r: Run) { forall g :: g in r.busy ==> PhaseOk(r, g) }
  ghost predicate ReportsOk(r: Run) { forall k :: 0 <= k < |r.reports| ==> ReportOk(r, r.reports[k]) }

  ghost predicate Inv(r: Run) {
    CallsOk(r) && PhasesOk(r) && ReportsOk(r) && ReadyOk(r) && r.budget.modelCalls <= r.budget.maxModelCalls
  }

  // A step that leaves package, calls, reports and phases alone and does not turn the run READY.
  ghost predicate StatusOnly(r: Run, r': Run) {
    && r'.package == r.package && r'.calls == r.calls && r'.reports == r.reports && r'.busy == r.busy
    && r'.budget == r.budget && r'.generation >= r.generation && r'.status != Ready
  }

  lemma StatusOnlyKeepsInv(r: Run, r': Run)
    requires Inv(r) && StatusOnly(r, r')
    ensures Inv(r')
  {
    forall g | g in r'.busy ensures PhaseOk(r', g) { assert PhaseOk(r, g); }
    forall k | 0 <= k < |r'.reports| ensures ReportOk(r', r'.reports[k]) { assert ReportOk(r, r.reports[k]); }
  }

  // A step that may rewrite the package: no current executor is in the middle of anything.
  ghost predicate PackageOnly(r: Run, r': Run) {
    && r'.calls == r.calls && r'.reports == r.reports && r'.busy == r.busy && r'.budget == r.budget
    && r'.generation >= r.generation && r'.status != Ready && r'.generation !in r'.busy
  }

  lemma PackageOnlyKeepsInv(r: Run, r': Run)
    requires Inv(r) && PackageOnly(r, r')
    ensures Inv(r')
  {
    forall g | g in r'.busy ensures PhaseOk(r', g) { assert PhaseOk(r, g); }
    forall k | 0 <= k < |r'.reports| ensures ReportOk(r', r'.reports[k]) { assert ReportOk(r, r.reports[k]); }
  }

  lemma ReserveKeepsInv(r: Run, g: nat, role: Role)
    requires Inv(r)
    ensures Inv(Reserve(r, g, role))
  {
    var r' := Reserve(r, g, role);
    forall h | h in r'.busy ensures PhaseOk(r', h) { if h in r.busy { assert PhaseOk(r, h); } }
    forall k | 0 <= k < |r'.reports| ensures ReportOk(r', r'.reports[k]) { assert ReportOk(r, r.reports[k]); }
  }

  // Closing one call: its row changes only in status, code and time.
  ghost predicate ClosesCalls(r: Run, r': Run) {
    && r'.package == r.package && r'.reports == r.reports && r'.budget == r.budget && r'.approvedBy == r.approvedBy
    && r'.status == r.status && r'.generation == r.generation && |r'.calls| == |r.calls|
    && (forall k :: 0 <= k < |r.calls| ==>
          && r'.calls[k].role == r.calls[k].role && r'.calls[k].generation == r.calls[k].generation
          && r'.calls[k].seen == r.calls[k].seen)
  }

  lemma ClosingKeepsInv(r: Run, r': Run)
    requires Inv(r) && ClosesCalls(r, r') && PhasesOk(r')
    ensures Inv(r')
  {
    forall k | 0 <= k < |r'.reports| ensures ReportOk(r', r'.reports[k]) { assert ReportOk(r, r.reports[k]); }
  }

  lemma FinishKeepsInv(r: Run, g: nat, contractOk: bool)
    requires Inv(r)
    ensures Inv(Finish(r, g, contractOk))
  {
    var r' := Finish(r, g, contractOk);
    if r' != r {
      assert PhaseOk(r, g);
      forall h | h in r'.busy ensures PhaseOk(r', h) { assert PhaseOk(r, h); }
      ClosingKeepsInv(r, r');
    }
  }

  lemma FailCallKeepsInv(r: Run, g: nat, code: Code)
    requires Inv(r)
    ensures Inv(FailCall(r, g, code))
  {
    var r' := FailCall(r, g, code);
    if r' != r {
      assert PhaseOk(r, g);
      forall h | h in r'.busy ensures PhaseOk(r', h) { assert PhaseOk(r, h); }
      ClosingKeepsInv(r, r');
    }
  }

  lemma DropKeepsInv(r: Run, g: nat)
    requires Inv(r)
    ensures Inv(Drop(r, g))
  {
    var r' := Drop(r, g);
    forall h | h in r'.busy ensures PhaseOk(r', h) { assert PhaseOk(r, h); }
    ClosingKeepsInv(r, r');
  }

  lemma RecordKeepsInv(r: Run, g: nat, critical: nat, claimed: bool, checked: set<string>)
    requires Inv(r)
    ensures Inv(RecordReport(r, g, critical, claimed, checked))
  {
    var r' := RecordReport(r, g, critical, claimed, checked);
    if r' != r {
      assert PhaseOk(r, g);
      forall h | h in r'.busy ensures PhaseOk(r', h) { assert PhaseOk(r, h); }
      forall k | 0 <= k < |r'.reports| ensures ReportOk(r', r'.reports[k]) {
        if k < |r.reports| { assert ReportOk(r, r.reports[k]); }
      }
    }
  }

  lemma SetReadyKeepsInv(r: Run, g: nat)
    requires Inv(r)
    ensures Inv(SetReady(r, g))
  {
    var r' := SetReady(r, g);
    if r' != r {
      ReadyExactly(PolicyOf(r));
      forall h | h in r'.busy ensures PhaseOk(r', h) { assert PhaseOk(r, h); }
      forall k | 0 <= k < |r'.reports| ensures ReportOk(r', r'.reports[k]) { assert ReportOk(r, r.reports[k]); }
    }
  }

  lemma InterruptKeepsInv(r: Run, g: nat)
    requires Inv(r)
    ensures Inv(Interrupt(r, g))
  {
    var r' := Interrupt(r, g);
    if r' != r {
      forall h | h in r'.busy ensures PhaseOk(r', h) { assert PhaseOk(r, h); }
      forall k | 0 <= k < |r'.reports| ensures ReportOk(r', r'.reports[k]) { assert ReportOk(r, r.reports[k]); }
    }
  }

  lemma NextGenerationIdle(r: Run)
    requires Inv(r)
    ensures r.generation + 1 !in r.busy
  {
    assert forall g :: g in r.busy ==> PhaseOk(r, g);
  }

  /** Every event of every participant keeps the invariant. */
  lemma StepKeepsInv(r: Run, e: Event)
    requires Inv(r)
    ensures Inv(Apply(r, e))
  {
    NextGenerationIdle(r);
    match e
    case EReserve(g, role) => ReserveKeepsInv(r, g, role);
    case EFinish(g, ok) => FinishKeepsInv(r, g, ok);
    case EFailCall(g, code) => FailCallKeepsInv(r, g, code);
    case ERecord(g, critical, claimed, checked) => RecordKeepsInv(r, g, critical, claimed, checked);
    case EDrop(g) => DropKeepsInv(r, g);
    case EReady(g) => SetReadyKeepsInv(r, g);
    case EInterrupt(g) => InterruptKeepsInv(r, g);
    case EApply(g, claims, brief) => if MayWrite(r, g) { PackageOnlyKeepsInv(r, Apply(r, e)); }
    case ERelevance(g, relevance) => if MayWrite(r, g) { PackageOnlyKeepsInv(r, Apply(r, e)); }
    case ETool(g, step, searched, processed) => if MayWrite(r, g) && r.status == Running { PackageOnlyKeepsInv(r, Apply(r, e)); }
    case EVerifierRead(g, step) => if Apply(r, e) != r { PackageOnlyKeepsInv(r, Apply(r, e)); }
    case EContinue => if r.status == WaitingHuman { PackageOnlyKeepsInv(r, Apply(r, e)); }
    case EWaiting(g) => if MayWrite(r, g) { StatusOnlyKeepsInv(r, Apply(r, e)); }
    case EFailed(g) => if MayWrite(r, g) { StatusOnlyKeepsInv(r, Apply(r, e)); }
    case ERecover => if r.status == Running { StatusOnlyKeepsInv(r, Apply(r, e)); }
    case EAbort => if Active(r) { StatusOnlyKeepsInv(r, Apply(r, e)); }
  }

  lemma {:induction false} InvReachable(r: Run, es: seq<Event>)
    requires Inv(r)
    ensures Inv(After(r, es))
  {
    if es != [] {
      InvReachable(r, es[..|es| - 1]);
      StepKeepsInv(After(r, es[..|es| - 1]), es[|es| - 1]);
    }
  }

  // ---------- READY ----------

  predicate PolicySaysReady(r: Run) { Evaluate(PolicyOf(r)) == ReadyForDecision }

  // The latest report that succeeded, as the stored rows have it.
  function LatestSuccess(reports: seq<Report>): (k: Option<nat>)
    ensures k.Some? ==> k.value < |reports| && reports[k.value].success
    ensures k.Some? ==> forall j :: k.value < j < |reports| ==> !reports[j].success
    ensures k.None? ==> forall j :: 0 <= j < |reports| ==> !reports[j].success
  {
    if reports == [] then None
    else if reports[|reports| - 1].success then Some(|reports| - 1)
    else LatestSuccess(reports[..|reports| - 1])
  }

  // From the approving report on, every report binds the package of the READY run.
  ghost predicate SinceOk(r: Run) {
    r.status == Ready && r.approvedBy.Some? ==>
      forall k :: r.approvedBy.value <= k < |r.reports| ==> r.reports[k].bound == Current(r)
  }

  lemma StepKeepsSince(r: Run, e: Event)
    requires SinceOk(r)
    ensures SinceOk(Apply(r, e))
  {
    var s := Apply(r, e);
    if s.status == Ready {
      if r.status == Ready { ReadyStep(r, e); } else { BecomesReady(r, e); }
    }
  }

  lemma BecomesReady(r: Run, e: Event)
    requires r.status != Ready && Apply(r, e).status == Ready
    ensures e.EReady?
    ensures var s := Apply(r, e);
      && s.package == r.package && s.reports == r.reports && r.reports != [] && s.approvedBy == Some(|r.reports| - 1)
      && r.reports[|r.reports| - 1].bound == Current(r)
  {
    OnlySetReady(r, e);
    ReadyExactly(PolicyOf(r));
  }

  lemma OnlySetReady(r: Run, e: Event)
    requires r.status != Ready && Apply(r, e).status == Ready
    ensures e.EReady? && MayWrite(r, e.g) && PolicySaysReady(r)
  {}

  // A step of a READY run at most appends one report, on the package it keeps.
  lemma ReadyStep(r: Run, e: Event)
    requires r.status == Ready
    ensures var s := Apply(r, e);
      && s.status == Ready && s.package == r.package && s.approvedBy == r.approvedBy && s.generation == r.generation
      && (s.reports == r.reports
          || (|s.reports| == |r.reports| + 1 && s.reports[..|r.reports|] == r.reports && s.reports[|r.reports|].bound == Current(r)))
  {}

  lemma {:induction false} SinceReachable(r: Run, es: seq<Event>)
    requires Inv(r) && r.status != Ready
    ensures Inv(After(r, es)) && SinceOk(After(r, es))
  {
    if es != [] {
      SinceReachable(r, es[..|es| - 1]);
      StepKeepsInv(After(r, es[..|es| - 1]), es[|es| - 1]);
      StepKeepsSince(After(r, es[..|es| - 1]), es[|es| - 1]);
    }
  }

  // A report that vouches for the stored package.  If its executor still owned the run when it
  // was recorded, its verifier call saw exactly this package.
  ghost predicate Vouches(r: Run, p: Report) {
    && p.success && p.critical == 0 && p.referencesValid && p.bound == Current(r)
    && CriticalIds(Claims(r)) <= p.checked
    && p.call < |r.calls| && r.calls[p.call].role == Verifier
    && (p.generation == r.calls[p.call].generation ==> r.calls[p.call].seen == Current(r))
  }

  /** READY soundness over every history: the package of a READY run is acceptable, rests on no
      proven evidence gap, and its latest successful verifier report vouches for it - and so
      did the one that was stored when the run became READY. */
  lemma ReadySound(r: Run, es: seq<Event>)
    requires Initial(r) && After(r, es).status == Ready
    ensures var s := After(r, es);
      && PackageAcceptable(Current(s), s.package.relevanceComplete) && !Gap(s.package) && ReferencesHold(Claims(s))
      && s.approvedBy.Some? && s.approvedBy.value < |s.reports| && Vouches(s, s.reports[s.approvedBy.value])
      && LatestSuccess(s.reports).Some? && LatestSuccess(s.reports).value >= s.approvedBy.value
      && Vouches(s, s.reports[LatestSuccess(s.reports).value])
  {
    SinceReachable(r, es);
    var s := After(r, es);
    assert ReportOk(s, s.reports[s.approvedBy.value]);
    assert LatestSuccess(s.reports).Some?;
    assert ReportOk(s, s.reports[LatestSuccess(s.reports).value]);
  }

  lemma {:induction false} ReadyIsFinal(r: Run, es: seq<Event>)
    requires r.status == Ready
    ensures var s := After(r, es);
      && s.status == Ready && s.package == r.package && s.approvedBy == r.approvedBy
      && s.generation == r.generation && r.reports <= s.reports
  {
    if es != [] { ReadyIsFinal(r, es[..|es| - 1]); }
  }

  predicate NoReport(es: seq<Event>) { forall k :: 0 <= k < |es| ==> !es[k].ERecord? }

  lemma StepWithoutReport(r: Run, e: Event)
    requires !e.ERecord?
    ensures Apply(r, e).reports == r.reports
    ensures r.status == Ready ==> Apply(r, e).status == Ready && Apply(r, e).approvedBy == r.approvedBy
    ensures r.status != Ready && Apply(r, e).status == Ready ==>
              Apply(r, e).approvedBy == Some(|r.reports| - 1) && r.reports != []
  {
    if r.status == Ready { ReadyStep(r, e); } else if Apply(r, e).status == Ready { BecomesReady(r, e); }
  }

  lemma {:induction false} WithoutReport(r: Run, es: seq<Event>)
    requires r.status != Ready && NoReport(es)
    ensures After(r, es).reports == r.reports
    ensures After(r, es).status == Ready ==> After(r, es).approvedBy == Some(|r.reports| - 1) && r.reports != []
  {
    if es != [] {
      WithoutReport(r, es[..|es| - 1]);
      StepWithoutReport(After(r, es[..|es| - 1]), es[|es| - 1]);
    }
  }

  /** Once the package differs from what the latest report binds, READY is out of reach until
      a fresh report is recorded or the reviewed package is restored exactly. */
  lemma ReadyNeedsReviewedPackage(r: Run, es: seq<Event>)
    requires Inv(r) && r.status != Ready && NoReport(es) && After(r, es).status == Ready
    ensures r.reports != [] && Current(After(r, es)) == r.reports[|r.reports| - 1].bound
  {
    WithoutReport(r, es);
    InvReachable(r, es);
  }

  // ---------- where the guarantee ends ----------

  // Steps of executors other than g that leave status and generation alone.
  predicate ByOther(e: Event, g: nat) {
    match e
    case EReserve(h, _) => h != g
    case EFinish(h, _) => h != g
    case EFailCall(h, _) => h != g
    case EDrop(h) => h != g
    case EApply(h, _, _) => h != g
    case ERelevance(h, _) => h != g
    case ETool(h, _, _, _) => h != g
    case EVerifierRead(h, _) => h != g
    case _ => false
  }

  predicate ByOthers(es: seq<Event>, g: nat) { forall k :: 0 <= k < |es| ==> ByOther(es[k], g) }

  // The report g would record binds the package its call saw.
  predicate BindsSeen(r: Run, g: nat, seen: Hashes) {
    var s := RecordReport(r, g, 0, true, {});
    |s.reports| > 0 && s.reports[|s.reports| - 1].bound == seen
  }

  // Whatever the other executors do first, g's report binds what g's call saw.
  ghost predicate BindsWhatWasSeen(r: Run, g: nat)
    requires PhaseOk(r, g) && r.busy[g].Reviewed?
  {
    forall es :: ByOthers(es, g) ==> BindsSeen(After(r, es), g, r.calls[r.busy[g].call].seen)
  }

  // What g is in the middle of, and on which package.
  ghost predicate SameReview(r: Run, s: Run, g: nat) {
    && s.status == r.status && s.generation == r.generation && g in r.busy && g in s.busy && s.busy[g] == r.busy[g]
    && r.busy[g].call < |r.calls| <= |s.calls| && s.calls[r.busy[g].call].seen == r.calls[r.busy[g].call].seen
  }

  lemma OtherStep(r: Run, e: Event, g: nat)
    requires r.status == Running && g in r.busy && r.busy[g].call < |r.calls| && ByOther(e, g)
    ensures SameReview(r, Apply(r, e), g)
  {}

  lemma {:induction false} OthersLeaveOwner(r: Run, es: seq<Event>, g: nat)
    requires r.status == Running && g in r.busy && r.busy[g].call < |r.calls| && ByOthers(es, g)
    ensures SameReview(r, After(r, es), g)
  {
    if es != [] {
      OthersLeaveOwner(r, es[..|es| - 1], g);
      OtherStep(After(r, es[..|es| - 1]), es[|es| - 1], g);
    }
  }

  lemma AfterStep(r: Run, es: seq<Event>, e: Event)
    ensures After(r, es + [e]) == Apply(After(r, es), e)
  {
    assert (es + [e])[..|es|] == es;
  }

  lemma AfterOne(r: Run, e: Event)
    ensures After(r, [e]) == Apply(r, e)
  {
    AfterStep(r, [], e);
    assert [] + [e] == [e];
  }

  lemma AfterTwo(r: Run, e: Event, f: Event)
    ensures After(r, [e] + [f]) == Apply(Apply(r, e), f)
  {
    AfterStep(r, [e], f);
    AfterOne(r, e);
  }

  lemma {:induction false} AfterConcat(r: Run, es: seq<Event>, fs: seq<Event>)
    ensures After(r, es + fs) == After(After(r, es), fs)
    decreases |fs|
  {
    if fs == [] {
      assert es + fs == es;
    } else {
      var rest := fs[..|fs| - 1];
      AfterConcat(r, es, rest);
      assert (es + fs)[..|es + fs| - 1] == es + rest;
    }
  }

  // The owner h closes what it is doing and then writes the package.
  function CloseAndWrite(h: nat, claims: seq<Check>, brief: Brief): seq<Event> {
    [EFailCall(h, Timeout)] + [EDrop(h)] + [EApply(h, claims, brief)]
  }

  lemma ClosesOwnStep(r: Run, h: nat, g: nat)
    requires g in r.busy && h != g
    ensures var s := Drop(FailCall(r, h, Timeout), h);
      && h !in s.busy && g in s.busy && s.busy[g] == r.busy[g]
      && s.package == r.package && s.status == r.status && s.generation == r.generation
  {}

  lemma OwnerRewrites(r: Run, g: nat, claims: seq<Check>, brief: Brief)
    requires r.status == Running && g in r.busy && g != r.generation
    ensures var s := After(r, CloseAndWrite(r.generation, claims, brief));
      Current(s) == WithPackage(Current(r), claims, brief) && g in s.busy && s.busy[g] == r.busy[g]
  {
    var h := r.generation;
    var a, b, c := EFailCall(h, Timeout), EDrop(h), EApply(h, claims, brief);
    AfterStep(r, [a] + [b], c);
    AfterStep(r, [a], b);
    AfterOne(r, a);
    ClosesOwnStep(r, h, g);
  }

  lemma OwnerBinds(r: Run, es: seq<Event>, g: nat)
    requires Inv(r) && r.status == Running && g == r.generation && g in r.busy && r.busy[g].Reviewed? && ByOthers(es, g)
    ensures PhaseOk(r, g) && BindsSeen(After(r, es), g, r.calls[r.busy[g].call].seen)
  {
    assert PhaseOk(r, g);
    OthersLeaveOwner(r, es, g);
    InvReachable(r, es);
    assert PhaseOk(After(r, es), g);
  }

  lemma SuccessorMisleads(r: Run, g: nat, seen: Hashes) returns (es: seq<Event>)
    requires r.status == Running && g in r.busy && r.busy[g].Reviewed? && g != r.generation
    ensures ByOthers(es, g) && !BindsSeen(After(r, es), g, seen)
  {
    var brief := seen.brief.(text := seen.brief.text + "x");
    assert |brief.text| != |seen.brief.text|;
    es := CloseAndWrite(r.generation, Claims(r), brief);
    OwnerRewrites(r, g, Claims(r), brief);
  }

  /** The report transaction checks no token.  Its binding is exactly as good as the ownership
      of its executor: guaranteed against everything the others do while the executor's
      generation is current, and broken by a package write of the successor once it is not. */
  lemma BindingNeedsOwnership(r: Run, g: nat)
    requires Inv(r) && r.status == Running && g in r.busy && r.busy[g].Reviewed?
    ensures PhaseOk(r, g)
    ensures BindsWhatWasSeen(r, g) <==> g == r.generation
  {
    assert PhaseOk(r, g);
    if g == r.generation {
      forall es | ByOthers(es, g) ensures BindsSeen(After(r, es), g, r.calls[r.busy[g].call].seen) { OwnerBinds(r, es, g); }
    } else {
      var es := SuccessorMisleads(r, g, r.calls[r.busy[g].call].seen);
    }
  }

  // A superseded executor holds a successful verifier answer it has not reported yet.
  predicate HasStraggler(r: Run) { exists g :: g in r.busy && r.busy[g].Reviewed? }

  lemma NoStragglerNoReport(r: Run, e: Event)
    requires r.status == Ready && !HasStraggler(r)
    ensures Apply(r, e).reports == r.reports
    ensures !HasStraggler(Apply(r, e))
  {
    var s := Apply(r, e);
    forall g | g in s.busy ensures !s.busy[g].Reviewed? { assert g in r.busy && s.busy[g] == r.busy[g]; }
  }

  lemma {:induction false} ReadyStands(r: Run, es: seq<Event>)
    requires r.status == Ready && !HasStraggler(r)
    ensures var s := After(r, es); s.status == Ready && s.package == r.package && s.reports == r.reports && !HasStraggler(s)
  {
    if es != [] {
      ReadyStands(r, es[..|es| - 1]);
      ReadyStep(After(r, es[..|es| - 1]), es[|es| - 1]);
      NoStragglerNoReport(After(r, es[..|es| - 1]), es[|es| - 1]);
    }
  }

  lemma SamePolicy(r: Run, s: Run)
    requires s.status == r.status && s.package == r.package && s.reports == r.reports
    ensures PolicyOf(s) == PolicyOf(r)
  {}

  /** Nor does READY protect the latest report.  The policy goes on saying ready in every further
      history exactly if no superseded executor holds a verifier answer it has not reported; one
      that does can still append a failing report. */
  lemma ReadyStandsExactly(r: Run)
    requires Inv(r) && r.status == Ready && PolicySaysReady(r)
    ensures (forall es :: PolicySaysReady(After(r, es))) <==> !HasStraggler(r)
  {
    if !HasStraggler(r) {
      forall es ensures PolicySaysReady(After(r, es)) {
        ReadyStands(r, es);
        SamePolicy(r, After(r, es));
      }
    } else {
      var es := StragglerContradictsReady(r);
    }
  }

  lemma StragglerContradictsReady(r: Run) returns (es: seq<Event>)
    requires r.status == Ready && HasStraggler(r)
    ensures var s := After(r, es); s.status == Ready && s.package == r.package && !PolicySaysReady(s)
  {
    var g :| g in r.busy && r.busy[g].Reviewed?;
    es := [ERecord(g, 1, true, {})];
    AfterOne(r, ERecord(g, 1, true, {}));
    ReadyExactly(PolicyOf(RecordReport(r, g, 1, true, {})));
  }

  // The verifier call of the current executor succeeds; then the run is recovered by another.
  function Superseded(r: Run): Run {
    Recover(Finish(Reserve(r, r.generation, Verifier), r.generation, true))
  }

  lemma SupersededMidVerification(r: Run)
    requires Inv(r) && CanReserve(r, r.generation, Verifier)
    ensures var s, g := Superseded(r), r.generation;
      && Inv(s) && s.status == Running && s.generation == g + 1 && g + 1 !in s.busy && s.package == r.package
      && PhaseOk(s, g) && s.busy[g].Reviewed? && s.calls[s.busy[g].call].seen == Current(r)
  {
    var r1 := Reserve(r, r.generation, Verifier);
    var r2 := Finish(r1, r.generation, true);
    ReserveKeepsInv(r, r.generation, Verifier);
    FinishKeepsInv(r1, r.generation, true);
    NextGenerationIdle(r2);
    StepKeepsInv(r2, ERecover);
  }

  // ---------- a READY run with a straggler ----------

  lemma CleanReportApproves(r: Run, g: nat)
    requires g in r.busy && r.busy[g].Reviewed? && r.status == Running && r.generation == g
    requires PackageAcceptable(Current(r), r.package.relevanceComplete) && !Gap(r.package)
    ensures var s := SetReady(RecordReport(r, g, 0, true, CriticalIds(Claims(r))), g);
      && s.status == Ready && PolicySaysReady(s) && s.busy == r.busy - {g}
  {
    assert ReferencesHold(Claims(r));
    var r3 := RecordReport(r, g, 0, true, CriticalIds(Claims(r)));
    ReadyExactly(PolicyOf(r3));
    ReadyExactly(PolicyOf(SetReady(r3, g)));
  }

  lemma ReviewedAfter(r: Run, g: nat)
    requires CanReserve(r, g, Verifier) && g == r.generation
    ensures var s := Finish(Reserve(r, g, Verifier), g, true);
      && g in s.busy && s.busy[g].Reviewed? && s.package == r.package && s.status == Running && s.generation == g
      && forall h :: h != g ==> (h in s.busy <==> h in r.busy) && (h in r.busy ==> s.busy[h] == r.busy[h])
  {}

  lemma CallIsHistory(r: Run, g: nat)
    ensures After(r, [EReserve(g, Verifier)] + [EFinish(g, true)]) == Finish(Reserve(r, g, Verifier), g, true)
  {
    AfterTwo(r, EReserve(g, Verifier), EFinish(g, true));
  }

  // The verifier answers the owner; then the run is recovered by another.
  lemma OwnerSuperseded(r: Run) returns (es: seq<Event>, s: Run)
    requires Inv(r) && CanReserve(r, r.generation, Verifier)
    ensures s == After(r, es) && Inv(s) && s.status == Running && s.package == r.package && s.generation == r.generation + 1
    ensures s.generation !in s.busy && r.generation in s.busy && s.busy[r.generation].Reviewed?
    ensures s.budget == r.budget.(modelCalls := r.budget.modelCalls + 1, verifierCalls := r.budget.verifierCalls + 1)
  {
    var g := r.generation;
    var call := [EReserve(g, Verifier)] + [EFinish(g, true)];
    es := call + [ERecover];
    s := After(r, es);
    CallIsHistory(r, g);
    AfterStep(r, call, ERecover);
    SupersededMidVerification(r);
  }

  lemma ReportThenReady(r: Run, g: nat, checked: set<string>)
    ensures After(r, [ERecord(g, 0, true, checked)] + [EReady(g)]) == SetReady(RecordReport(r, g, 0, true, checked), g)
  {
    AfterTwo(r, ERecord(g, 0, true, checked), EReady(g));
  }

  lemma ReviewedReachesReady(r: Run, g: nat) returns (es: seq<Event>, s: Run)
    requires g in r.busy && r.busy[g].Reviewed? && r.status == Running && r.generation == g
    requires PackageAcceptable(Current(r), r.package.relevanceComplete) && !Gap(r.package)
    ensures s == After(r, es) && s.status == Ready && PolicySaysReady(s) && s.busy == r.busy - {g}
  {
    es := [ERecord(g, 0, true, CriticalIds(Claims(r)))] + [EReady(g)];
    s := After(r, es);
    ReportThenReady(r, g, CriticalIds(Claims(r)));
    CleanReportApproves(r, g);
  }

  // The owner has the package verified and goes READY; whatever others hold stays.
  lemma OwnerReachesReady(r: Run) returns (es: seq<Event>, s: Run)
    requires Inv(r) && CanReserve(r, r.generation, Verifier)
    requires PackageAcceptable(Current(r), r.package.relevanceComplete) && !Gap(r.package)
    ensures s == After(r, es) && Inv(s) && s.status == Ready && PolicySaysReady(s)
    ensures forall h :: h in r.busy && h != r.generation ==> h in s.busy && s.busy[h] == r.busy[h]
  {
    var g := r.generation;
    var call := [EReserve(g, Verifier)] + [EFinish(g, true)];
    CallIsHistory(r, g);
    ReviewedAfter(r, g);
    var rest;
    rest, s := ReviewedReachesReady(After(r, call), g);
    AfterConcat(r, call, rest);
    es := call + rest;
    InvReachable(r, es);
  }

  /** Such runs occur: from every state that may start a verifier call on an acceptable package
      and has a second one left, a takeover between answer and report leads to READY with a
      straggler, which can then contradict it. */
  lemma StragglerReached(r: Run) returns (es: seq<Event>, s: Run, fs: seq<Event>)
    requires Inv(r) && CanReserve(r, r.generation, Verifier)
    requires r.budget.modelCalls + 2 <= r.budget.maxModelCalls && r.budget.verifierCalls + 2 <= r.budget.maxVerifierCalls
    requires PackageAcceptable(Current(r), r.package.relevanceComplete) && !Gap(r.package)
    ensures s == After(r, es) && s.status == Ready && PolicySaysReady(s) && HasStraggler(s)
    ensures !PolicySaysReady(After(s, fs))
  {
    var es1, s1 := OwnerSuperseded(r);
    var es2, s2 := OwnerReachesReady(s1);
    AfterConcat(r, es1, es2);
    es, s := es1 + es2, s2;
    assert r.generation in s.busy && s.busy[r.generation].Reviewed?;
    ReadyStandsExactly(s);
    fs :| !PolicySaysReady(After(s, fs));
  }

  // A first synthesis by the first executor.
  lemma FirstPackageStored(r: Run, claims: seq<Check>, brief: Brief) returns (es: seq<Event>, s: Run)
    requires Initial(r)
    ensures s == After(r, es) && Inv(s) && s.status == Running && s.generation == 1 && s.busy == map[] && s.budget == r.budget
    ensures Claims(s) == claims && Current(s).brief == brief && s.package.relevanceComplete
  {
    es := [ERelevance(1, brief.text)] + [EApply(1, claims, brief)];
    s := After(r, es);
    AfterTwo(r, ERelevance(1, brief.text), EApply(1, claims, brief));
    InvReachable(r, es);
  }

  /** A history from the very start: every fresh run with two model and two verifier calls to
      spend can become READY on one open, validly referenced claim and then be contradicted. */
  lemma StragglerHistory(r: Run, c: Check, text: string) returns (es: seq<Event>, fs: seq<Event>)
    requires Initial(r) && 2 <= r.budget.maxModelCalls && 2 <= r.budget.maxVerifierCalls
    requires c == Check("c1", "process", "fact", true, OpenClaim, false, false, true, true, false)
    ensures After(r, es).status == Ready && PolicySaysReady(After(r, es))
    ensures !PolicySaysReady(After(After(r, es), fs))
  {
    var es1, s1 := FirstPackageStored(r, [c], Brief(text, {}, false));
    assert c.area[0] == 'p' && IsEvidenceClaim(c) && c in Claims(s1);
    var es2, s2;
    es2, s2, fs := StragglerReached(s1);
    AfterConcat(r, es1, es2);
    es := es1 + es2;
  }

  // ---------- a READY run whose verifier saw another package ----------

  // The successor rewrites the package, the superseded executor reports, the successor goes READY.
  function Takeover(r: Run, claims: seq<Check>, brief: Brief): Run {
    var rewritten := ApplyPackage(Superseded(r), r.generation + 1, claims, brief);
    SetReady(RecordReport(rewritten, r.generation, 0, true, CriticalIds(claims)), r.generation + 1)
  }

  predicate ApprovedUnseen(r: Run) {
    && r.status == Ready && r.approvedBy.Some? && r.approvedBy.value < |r.reports|
    && r.reports[r.approvedBy.value].call < |r.calls|
    && r.calls[r.reports[r.approvedBy.value].call].seen != Current(r)
  }

  /** From every state in which a verifier call may start, one takeover between its answer and
      its report suffices to make any acceptable package READY although the verifier call of
      the approving report saw another. */
  lemma TakeoverApprovesUnseenPackage(r: Run, claims: seq<Check>, brief: Brief)
    requires Inv(r) && CanReserve(r, r.generation, Verifier) && r.package.relevanceComplete
    requires WithPackage(Current(r), claims, brief) != Current(r) && !brief.missingEvidence
    requires PackageAcceptable(WithPackage(Current(r), claims, brief), true)
    ensures ApprovedUnseen(Takeover(r, claims, brief))
  {
    SupersededMidVerification(r);
    var g, s1 := r.generation, Superseded(r);
    var s2 := ApplyPackage(s1, g + 1, claims, brief);
    assert Current(s2) == WithPackage(Current(r), claims, brief);
    assert ReferencesHold(claims);
    var s3 := RecordReport(s2, g, 0, true, CriticalIds(claims));
    ReadyExactly(PolicyOf(s3));
  }
}
