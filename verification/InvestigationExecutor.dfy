/** One executor advancing its run.  The object's fields change step by step as in the loop;
    each method states how the routing invariants and the call budget evolve. */
module InvestigationExecutor {
  import opened Wrappers
  import opened InvestigationPolicy
  import opened RunProtocol
  import opened InvestigationLoop

  // What holds between any two steps of an executor that is in the middle of nothing.
  ghost predicate Steady(r: Run) { Idle(r) && Routed(r) }

  // The same run later on: limits are fixed, calls are only added.
  ghost predicate Later(r: Run, r': Run) {
    && Steady(r') && SameCalls(r, r') && r'.budget.maxModelCalls == r.budget.maxModelCalls
    && r'.budget.modelCalls >= r.budget.modelCalls
  }

  ghost predicate Healthy(r: Run) { Steady(r) && r.status == Running }

  // The latest call failed with this code.
  ghost predicate JustFailed(r: Run, code: Code) {
    && Healthy(r) && r.calls != []
    && r.calls[|r.calls| - 1].status == FailedCall && r.calls[|r.calls| - 1].code == code
  }

  // A model role has just answered, and it was not the verifier.
  ghost predicate Acting(r: Run) { Healthy(r) && r.calls != [] && !LastIsVerifier(r) }

  // A run whose roles had at most one trailing failure each still does, unless a superseded
  // executor closed a call of its own meanwhile.
  ghost predicate RetriesKept(r: Run, r': Run, late: bool) {
    RetriesBounded(r) && !late && r'.status == Running ==> RetriesBounded(r')
  }

  lemma FirstCallStays(r: Run, m: Run, r': Run, role: Role)
    requires SameCalls(r, m) && SameCalls(m, r') && FirstCall(r, m, role) && FirstCall(m, r', role)
    ensures FirstCall(r, r', role) && SameCalls(r, r')
  {
    if |m.calls| > |r.calls| { assert r'.calls[|r.calls|].role == m.calls[|r.calls|].role; }
  }

  lemma FirstCallKept(r: Run, m: Run, r': Run, role: Role)
    requires SameCalls(r, m) && SameCalls(m, r') && FirstCall(r, m, role) && |r'.calls| == |m.calls|
    ensures FirstCall(r, r', role) && SameCalls(r, r')
  {
    if |m.calls| > |r.calls| { assert r'.calls[|r.calls|].role == m.calls[|r.calls|].role; }
  }

  lemma FirstCallKeptOn(r: Run, m: Run, r': Run, role: Role)
    requires SameCalls(r, m) && SameCalls(m, r') && FirstCall(r, m, role) && |m.calls| > |r.calls|
    ensures FirstCall(r, r', role) && SameCalls(r, r')
  {
    assert r'.calls[|r.calls|].role == m.calls[|r.calls|].role;
  }

  lemma StatusStepIsSteady(r: Run, r': Run)
    requires Steady(r) && StatusOnly(r, r') && (r'.generation == r.generation || r'.generation == r.generation + 1)
    ensures Later(r, r')
  {
    NextGenerationIdle(r);
    StatusOnlyKeepsInv(r, r');
    BlockedDependsOnPackage(r, r');
  }

  lemma ReadyStepIsSteady(r: Run)
    requires Steady(r)
    ensures Later(r, SetReady(r, r.generation)) && SetReady(r, r.generation).calls == r.calls
  {
    NextGenerationIdle(r);
    SetReadyKeepsInv(r, r.generation);
    BlockedDependsOnPackage(r, SetReady(r, r.generation));
  }

  // A rewrite of the package is safe for routing unless the latest call was a verifier call.
  lemma PackageStepIsSteady(r: Run, r': Run)
    requires Steady(r) && PackageOnly(r, r') && (!LastIsVerifier(r) || r'.package == r.package)
    ensures Later(r, r')
  {
    PackageOnlyKeepsInv(r, r');
    if r'.package == r.package { BlockedDependsOnPackage(r, r'); }
  }

  // Nothing happened to the owner's work: calls may have been closed and reports added by others.
  ghost predicate SameWork(r: Run, s: Run) {
    && s.package == r.package && s.status == r.status && s.generation == r.generation && s.budget == r.budget
    && s.trail.steps == r.trail.steps && s.trail.readsSpent == r.trail.readsSpent
    && |s.calls| == |r.calls| && SameCalls(r, s)
  }

  lemma SameWorkThen(r: Run, m: Run, s: Run)
    requires Steady(r) && SameWork(r, m) && Later(m, s)
    ensures Later(r, s)
  {
  }

  // Retries depend on the call log alone.
  lemma SameLogKeepsRetries(r: Run, s: Run, late: bool)
    requires !late ==> s.calls == r.calls
    ensures RetriesKept(r, s, late)
  {
  }

  lemma ReadIsSteady(r: Run, step: Step)
    requires Healthy(r) && r.trail.readsSpent < r.budget.maxReads
    ensures var s := VerifierRead(r, r.generation, step);
      && Later(r, s) && s.status == Running && s.budget == r.budget && s.calls == r.calls && s.package == r.package
      && (step.success ==> exists t :: t in s.trail.steps && t.success && t.key == step.key)
  {
    var s := VerifierRead(r, r.generation, step);
    PackageStepIsSteady(r, s);
    assert s.trail.steps[|s.trail.steps| - 1].key == step.key && s.trail.steps[|s.trail.steps| - 1] in s.trail.steps;
  }

  lemma ReportIsSteady(r: Run, critical: nat, claimed: bool, checked: set<string>)
    requires Inv(r) && Routed(r) && r.generation in r.busy && r.busy[r.generation].Reviewed?
    ensures var s := RecordReport(r, r.generation, critical, claimed, checked);
      Steady(s) && s.status == r.status && s.budget == r.budget && s.calls == r.calls && s.package == r.package
  {
    RecordKeepsInv(r, r.generation, critical, claimed, checked);
    BlockedDependsOnPackage(r, RecordReport(r, r.generation, critical, claimed, checked));
  }

  lemma DropIsSteady(r: Run)
    requires Inv(r) && Routed(r)
    ensures var s := Drop(r, r.generation);
      && Steady(s) && s.status == r.status && s.budget == r.budget && s.calls == r.calls && s.package == r.package
  {
    DropKeepsInv(r, r.generation);
    BlockedDependsOnPackage(r, Drop(r, r.generation));
  }

  lemma ToolIsSteady(r: Run, step: Step, searched: bool, processed: bool)
    requires Acting(r)
    ensures var s := ToolStep(r, r.generation, step, searched, processed);
      && Later(r, s) && s.status == Running && s.budget == r.budget && s.calls == r.calls && Current(s) == Current(r)
      && r.trail.steps <= s.trail.steps
  {
    PackageStepIsSteady(r, ToolStep(r, r.generation, step, searched, processed));
  }

  lemma PrefixKept(calls: seq<Call>, r1: Run, r2: Run)
    requires |r1.calls| == |calls| + 1 && r1.calls[..|calls|] == calls
    requires OthersKept(r1, r2, |calls|)
    ensures r2.calls[..|calls|] == calls
  {
    forall k | 0 <= k < |calls| ensures r2.calls[k] == calls[k] { assert r1.calls[..|calls|][k] == calls[k]; }
  }

  lemma DisturbedIsRouted(r: Run, s: Run)
    requires Routed(r) && Disturbed(r, s)
    ensures Routed(s) && (Blocked(s) <==> Blocked(r))
  {
    BlockedDependsOnPackage(r, s);
  }

  datatype ActionResult = Acted(action: Action) | ActionRefused | ActionFailed(code: Code) | ActionRaised

  datatype ReportResult = Reported | ReportRefused | ReportFailed(code: Code) | ReportRaised

  datatype ReviewStep = ReadOn | Concluded(result: ReportResult)

  datatype ReadResult = Served | ReadBudgetSpent | ReadRaised

  class Executor {
    var run: Run
    // Stored with the run, so a successor inherits whatever its predecessor left.
    var fingerprint: Option<Fingerprint>
    var repeats: nat
    // Whether a superseded executor has closed a call since.
    ghost var late: bool

    /** What superseded executors do while this one waits: any number of steps of any of them. */
    method Interference()
      requires Inv(run)
      modifies this`run, this`late
      ensures Inv(run) && Disturbed(old(run), run)
      ensures late <==> old(late) || run.calls != old(run).calls
    {
      ghost var before := run;
      var steps: int := *;
      for i := 0 to if steps < 0 then 0 else steps
        invariant Inv(run) && Disturbed(before, run) && late == old(late)
      {
        var e: Event := *;
        if BySuperseded(e, run.generation) {
          SupersededDisturbs(run, e);
          run := Apply(run, e);
        }
      }
      late := late || run.calls != before.calls;
    }

    // The same while the owner is in the middle of nothing.
    method Pause()
      requires Steady(run)
      modifies this`run, this`late
      ensures old(late) ==> late
      ensures Steady(run) && SameWork(old(run), run) && (!late ==> run.calls == old(run).calls)
    {
      ghost var before := run;
      Interference();
      DisturbedIsRouted(before, run);
    }

    /** One structured provider call: reserve, ask, close.  Exactly one call is appended when
        the provider was asked, and none when the budget refused. */
    method CallProvider(role: Role) returns (result: CallResult)
      requires Healthy(run) && (role == Verifier ==> !Blocked(run))
      modifies this`run, this`late
      ensures old(late) ==> late
      ensures result.Answered? ==> Inv(run) && Routed(run) && Closed(old(run), run, role, Success)
      ensures result.ProviderFailed? ==> Closed(old(run), run, role, FailedCall) && JustFailed(run, result.code)
      ensures result.ProviderFailed? && RetriesBounded(old(run)) && !late ==> OthersBounded(run)
      ensures !result.ProviderFailed? ==> RetriesKept(old(run), run, late)
      ensures result.RefusedForBudget? ==> run == old(run)
      ensures result.CallRaised? ==> Later(old(run), run)
      ensures FirstCall(old(run), run, role)
    {
      var capacityRefusal, contractChanged: bool := *, *;
      if contractChanged { return CallRaised; }
      if capacityRefusal || !CanReserve(run, run.generation, role) { return RefusedForBudget; }
      assert Disciplined(run, EReserve(run.generation, role));
      ghost var before := run;
      AskProvider(role);
      result := CloseCall(before, role);
    }

    // The call is reserved; while the provider works, superseded executors go on.
    method AskProvider(role: Role)
      requires Steady(run) && CanReserve(run, run.generation, role)
      modifies this`run, this`late
      ensures old(late) ==> late
      ensures Inv(run) && Waiting(old(run), run, role)
      ensures !late ==> run.calls[..|old(run).calls|] == old(run).calls
    {
      ghost var before := run;
      ReservedCall(run, role);
      ReserveKeepsInv(run, run.generation, role);
      run := Reserve(run, run.generation, role);
      ghost var reserved := run;
      Interference();
      WaitingDisturbed(before, reserved, run, role);
    }

    // The provider has answered or failed, or the settlement of the campaign reservation raised,
    // which leaves the call row in flight.
    method CloseCall(ghost before: Run, role: Role) returns (result: CallResult)
      requires Healthy(before) && (role == Verifier ==> !Blocked(before)) && Inv(run) && Waiting(before, run, role)
      modifies this`run
      ensures Inv(run) && Routed(run)
      ensures result.Answered? ==> Closed(before, run, role, Success)
      ensures result.ProviderFailed? ==> Closed(before, run, role, FailedCall) && run.calls[|before.calls|].code == result.code
      ensures result.CallRaised? ==> Closed(before, run, role, InFlight)
      ensures !result.RefusedForBudget?
      ensures old(run).calls[..|before.calls|] == before.calls && RetriesBounded(before) ==>
        if result.ProviderFailed? then OthersBounded(run) else RetriesBounded(run)
    {
      ghost var asked := run;
      var answered, settled, contractOk: bool, code: Code := *, *, *, *;
      ghost var status := FailedCall;
      if !answered {
        FailedProviderCall(before, asked, role, code);
        FailCallKeepsInv(asked, before.generation, code);
        run := FailCall(run, run.generation, code);
        result := ProviderFailed(code);
      } else if !settled {
        AbandonedCall(before, asked, role);
        DropKeepsInv(asked, before.generation);
        status := InFlight;
        run := Drop(run, run.generation);
        result := CallRaised;
      } else {
        FinishedCall(before, asked, role, contractOk);
        FinishKeepsInv(asked, before.generation, contractOk);
        status := if contractOk then Success else FailedCall;
        run := Finish(run, run.generation, contractOk);
        result := if contractOk then Answered else ProviderFailed(InvalidResponse);
      }
      ClosedKeepsRouting(before, run, role, status);
      if asked.calls[..|before.calls|] == before.calls && RetriesBounded(before) {
        PrefixKept(before.calls, asked, run);
        ClosedRetries(before, run, role, status);
      }
    }

    method Fail()
      requires Steady(run) && Active(run)
      modifies this`run
      ensures Later(old(run), run) && run.status == Failed && run.budget == old(run).budget && run.calls == old(run).calls
      ensures run.package == old(run).package
    {
      StatusStepIsSteady(run, SetFailed(run, run.generation));
      run := SetFailed(run, run.generation);
    }

    method WaitForHuman()
      requires Steady(run) && Active(run)
      modifies this`run
      ensures Later(old(run), run) && run.status == WaitingHuman && run.budget == old(run).budget && run.calls == old(run).calls
      ensures run.package == old(run).package
    {
      StatusStepIsSteady(run, SetWaiting(run, run.generation));
      run := SetWaiting(run, run.generation);
    }

    /** The first failure of a role is retried, a second one in a row ends the run. */
    method HandleProviderFailure(code: Code) returns (result: Advanced)
      requires JustFailed(run, code)
      modifies this`run
      ensures Later(old(run), run) && run.budget == old(run).budget
      ensures result == Returned(run.status) && (run.status == Failed || Healthy(run))
      ensures OthersBounded(old(run)) && run.status == Running ==> RetriesBounded(run)
      ensures run.status == Failed <==>
        !Transient(code) || TrailingFailures(old(run).calls, old(run).calls[|old(run).calls| - 1].role) > 1
    {
      var call := run.calls[|run.calls| - 1];
      var failures := TrailingFailures(run.calls, call.role);
      var structured := call.code == InvalidResponse && call.contractError;
      if (structured && failures <= 1) || (!structured && Transient(code) && failures <= 1) {
        assert OthersBounded(run) ==> forall role :: TrailingFailures(run.calls, role) <= 1;
        return Returned(run.status);
      }
      Fail();
      return Returned(Failed);
    }

    /** A read the verifier asked for.  A repeated read is served from its stored step; otherwise it
        spends the read budget, and a spent budget is reported as such.  Invalid parameters fail
        the run; a failing reader, spent retries and a changed process leave the iteration. */
    method ReadForVerifier(key: string) returns (result: ReadResult)
      requires Healthy(run)
      modifies this`run, this`late
      ensures old(late) ==> late
      ensures Later(old(run), run) && run.budget == old(run).budget && RetriesKept(old(run), run, late)
      ensures |run.calls| == |old(run).calls| && run.package == old(run).package && (!late ==> run.calls == old(run).calls)
      ensures result.Served? ==> Healthy(run) && exists step :: step in run.trail.steps && step.success && step.key == key
      ensures result.ReadBudgetSpent? ==> run == old(run) && run.trail.readsSpent >= run.budget.maxReads
      ensures result.ReadRaised? ==> run.status == Failed || Healthy(run)
    {
      var invalid, changed, retriesSpent, failed: bool := *, *, *, *;
      if invalid {
        Fail();
        return ReadRaised;
      }
      if changed { return ReadRaised; }
      if exists step :: step in run.trail.steps && step.success && step.key == key { return Served; }
      if run.trail.readsSpent >= run.budget.maxReads { return ReadBudgetSpent; }
      if retriesSpent { return ReadRaised; }
      ghost var before := run;
      Pause();
      ghost var now := run;
      var step := Step(key, !failed, 0);
      ReadIsSteady(run, step);
      run := VerifierRead(run, run.generation, step);
      SameWorkThen(before, now, run);
      SameLogKeepsRetries(before, run, late);
      return if failed then ReadRaised else Served;
    }

    method ReadAll(unread: seq<string>) returns (result: ReadResult)
      requires Healthy(run)
      modifies this`run, this`late
      ensures old(late) ==> late
      ensures Later(old(run), run) && run.budget == old(run).budget && run.package == old(run).package
      ensures RetriesKept(old(run), run, late) && (!result.ReadRaised? ==> Healthy(run))
    {
      for i := 0 to |unread|
        invariant Healthy(run) && Later(old(run), run) && run.budget == old(run).budget && run.package == old(run).package
        invariant RetriesKept(old(run), run, late) && (old(late) ==> late)
      {
        result := ReadForVerifier(unread[i]);
        if !result.Served? { return; }
      }
      return Served;
    }

    method Report()
      requires Inv(run) && Routed(run) && run.status == Running
      requires run.generation in run.busy && run.busy[run.generation].Reviewed?
      modifies this`run, this`late
      ensures old(late) ==> late
      ensures Healthy(run) && Later(old(run), run) && run.budget == old(run).budget && |run.calls| == |old(run).calls|
      ensures RetriesKept(old(run), run, late)
    {
      ghost var before := run;
      Interference();
      DisturbedIsRouted(before, run);
      var critical: nat, claimed: bool, checked: set<string> := *, *, *;
      ReportIsSteady(run, critical, claimed, checked);
      run := RecordReport(run, run.generation, critical, claimed, checked);
      SameLogKeepsRetries(before, run, late);
    }

    /** The verifier may keep asking for unread evidence; every round is one model call, so the
        loop ends with the call budget at the latest. */
    method RequestVerifierReport() returns (result: ReportResult)
      requires Healthy(run) && !Blocked(run)
      modifies this`run, this`late
      ensures old(late) ==> late
      ensures Later(old(run), run)
      ensures result.Reported? ==> Healthy(run) && run.budget.modelCalls > old(run).budget.modelCalls
      ensures result.ReportFailed? ==> JustFailed(run, result.code) && run.budget.modelCalls > old(run).budget.modelCalls
      ensures result.ReportFailed? && RetriesBounded(old(run)) && !late ==> OthersBounded(run)
      ensures !result.ReportFailed? ==> RetriesKept(old(run), run, late)
      ensures result.ReportRefused? ==> Healthy(run)
      ensures FirstCall(old(run), run, Verifier)
      ensures |run.calls| == |old(run).calls| ==> result.ReportRefused? || result.ReportRaised?
    {
      var seen: set<string> := {};
      while true
        invariant Healthy(run) && !Blocked(run) && Later(old(run), run) && FirstCall(old(run), run, Verifier)
        invariant RetriesKept(old(run), run, late) && (old(late) ==> late)
        decreases RemainingCalls(run)
      {
        ghost var before := run;
        var call := CallProvider(Verifier);
        FirstCallStays(old(run), before, run, Verifier);
        match call
        case RefusedForBudget => return ReportRefused;
        case ProviderFailed(code) => return ReportFailed(code);
        case CallRaised => return ReportRaised;
        case Answered =>
        BlockedDependsOnPackage(before, run);
        ghost var answered := run;
        var step;
        step, seen := HandleAnswer(seen);
        FirstCallKeptOn(old(run), answered, run, Verifier);
        if step.Concluded? { return step.result; }
        BlockedDependsOnPackage(before, run);
      }
    }

    // The verifier's answer is recorded as its report if it asks for nothing unread; otherwise
    // what it asks for is read.
    method HandleAnswer(seen: set<string>) returns (step: ReviewStep, seen': set<string>)
      requires Inv(run) && Routed(run) && run.status == Running
      requires run.generation in run.busy && run.busy[run.generation].Reviewed?
      modifies this`run, this`late
      ensures old(late) ==> late
      ensures Later(old(run), run) && run.budget == old(run).budget && RetriesKept(old(run), run, late)
      ensures step.ReadOn? ==> Healthy(run) && run.package == old(run).package
      ensures step.Concluded? ==> !step.result.ReportFailed? && (step.result.ReportRaised? || Healthy(run))
    {
      var requests: seq<string> := *;
      var unread: seq<string> := [];
      seen' := seen;
      for i := 0 to |requests| {
        if requests[i] !in seen' { seen', unread := seen' + {requests[i]}, unread + [requests[i]]; }
      }
      if unread == [] {
        Report();
        return Concluded(Reported), seen';
      }
      DropIsSteady(run);
      run := Drop(run, run.generation);
      var read := ReadAll(unread);
      match read
      case ReadBudgetSpent => return Concluded(ReportRefused), seen';
      case ReadRaised => return Concluded(ReportRaised), seen';
      case Served => return ReadOn, seen';
    }

    /** The policy is evaluated again under the lock; a report that a superseded executor appended
        meanwhile can block READY, which leaves the iteration. */
    method GoReady() returns (result: Advanced)
      requires Steady(run) && Active(run)
      modifies this`run, this`late
      ensures old(late) ==> late
      ensures Later(old(run), run) && |run.calls| == |old(run).calls| && run.package == old(run).package
      ensures result == Returned(Ready) || result == Raised
      ensures result.Returned? ==> run.status == Ready
      ensures result.Raised? ==> !PolicySaysReady(old(run)) || run.reports != old(run).reports
      ensures RetriesKept(old(run), run, late)
    {
      ghost var before := run;
      Interference();
      DisturbedIsRouted(before, run);
      if Evaluate(PolicyOf(run)) != ReadyForDecision {
        if run.reports == before.reports { SamePolicy(before, run); }
        return Raised;
      }
      ReadyStepIsSteady(run);
      run := SetReady(run, run.generation);
      return Returned(Ready);
    }

    /** Verification of a complete package: READY if the policy now passes, otherwise the run
        stays in the loop with at least one more model call spent. */
    method AdvanceVerification() returns (result: Advanced)
      requires Healthy(run) && !Blocked(run)
      modifies this`run, this`late
      ensures old(late) ==> late
      ensures Later(old(run), run) && (result.Returned? ==> RetriesKept(old(run), run, late))
      ensures result.Returned? ==> result.status == run.status
      ensures result == Returned(Running) ==> run.budget.modelCalls > old(run).budget.modelCalls
      ensures Obeys(Ask(Verifier), old(run), run, result)
    {
      ghost var before := run;
      var report := RequestVerifierReport();
      match report
      case ReportRefused =>
        WaitForHuman();
        return Returned(WaitingHuman);
      case ReportFailed(code) =>
        if !Handled(code) { return Raised; }
        result := HandleProviderFailure(code);
        return;
      case ReportRaised => return Raised;
      case Reported =>
        if Evaluate(PolicyOf(run)) == ReadyForDecision {
          ghost var reported := run;
          result := GoReady();
          FirstCallKept(before, reported, run, Verifier);
          return;
        }
        return Returned(Running);
    }

    method RequestSynthesisPackage() returns (result: ActionResult)
      requires Healthy(run)
      modifies this`run, this`late
      ensures old(late) ==> late
      ensures Later(old(run), run)
      ensures result.Acted? ==> Acting(run) && run.budget.modelCalls > old(run).budget.modelCalls && !result.action.Tool?
      ensures result.ActionFailed? ==> JustFailed(run, result.code) && run.budget.modelCalls > old(run).budget.modelCalls
      ensures result.ActionRefused? ==> Healthy(run)
      ensures FirstCall(old(run), run, Synthesizer) && (|run.calls| == |old(run).calls| ==> result.ActionRefused? || result.ActionRaised?)
      ensures result.ActionFailed? && RetriesBounded(old(run)) && !late ==> OthersBounded(run)
      ensures !result.ActionFailed? ==> RetriesKept(old(run), run, late)
    {
      var call := CallProvider(Synthesizer);
      match call
      case RefusedForBudget => return ActionRefused;
      case ProviderFailed(code) => return ActionFailed(code);
      case CallRaised => return ActionRaised;
      case Answered =>
      var investigate, clarify: bool := *, *;
      if investigate { return Acted(Investigate); }
      if clarify { return Acted(Clarify); }
      var claims: seq<Check>, brief: Brief, relevance: Option<string> := *, *, *;
      return Acted(Synthesize(claims, brief, relevance));
    }

    /** The planner either acts itself or hands over to the synthesizer in the same iteration. */
    method RequestPlannerAction() returns (result: ActionResult)
      requires Healthy(run)
      modifies this`run, this`late
      ensures old(late) ==> late
      ensures Later(old(run), run)
      ensures result.Acted? ==> Acting(run) && run.budget.modelCalls > old(run).budget.modelCalls
      ensures result.ActionFailed? ==> JustFailed(run, result.code) && run.budget.modelCalls > old(run).budget.modelCalls
      ensures result.ActionRefused? ==> Healthy(run)
      ensures FirstCall(old(run), run, Planner) && (|run.calls| == |old(run).calls| ==> result.ActionRefused? || result.ActionRaised?)
      ensures result.ActionFailed? && RetriesBounded(old(run)) && !late ==> OthersBounded(run)
      ensures !result.ActionFailed? ==> RetriesKept(old(run), run, late)
    {
      ghost var before := run;
      var call := CallProvider(Planner);
      match call
      case RefusedForBudget => return ActionRefused;
      case ProviderFailed(code) => return ActionFailed(code);
      case CallRaised => return ActionRaised;
      case Answered =>
      var synthesize, clarify: bool, tool: string := *, *, *;
      if synthesize {
        ghost var planned := run;
        result := RequestSynthesisPackage();
        FirstCallKeptOn(before, planned, run, Planner);
        return;
      }
      if clarify { return Acted(Clarify); }
      return Acted(Tool(tool));
    }

    /** Stores the synthesized package; either write may be rejected by its own validation. */
    method StorePackage(claims: seq<Check>, brief: Brief, relevance: Option<string>) returns (stored: bool)
      requires Acting(run)
      modifies this`run
      ensures Later(old(run), run) && run.budget == old(run).budget && run.calls == old(run).calls
      ensures stored ==> Acting(run) && Current(run).brief == brief && Claims(run) == claims
      ensures stored && relevance.Some? ==> Current(run).register.relevance == relevance.value && run.package.relevanceComplete
    {
      var claimsRejected: bool := *;
      if claimsRejected { return false; }
      assert Disciplined(run, EApply(run.generation, claims, brief));
      PackageStepIsSteady(run, ApplyPackage(run, run.generation, claims, brief));
      run := ApplyPackage(run, run.generation, claims, brief);
      stored := true;
      if relevance.Some? { stored := StoreRelevance(relevance.value); }
    }

    method StoreRelevance(relevance: string) returns (stored: bool)
      requires Acting(run)
      modifies this`run
      ensures Later(old(run), run) && run.budget == old(run).budget && Acting(run) && run.calls == old(run).calls
      ensures Current(run).brief == Current(old(run)).brief && Claims(run) == Claims(old(run))
      ensures stored ==> Current(run).register.relevance == relevance && run.package.relevanceComplete
    {
      var rejected: bool := *;
      if rejected { return false; }
      assert Disciplined(run, ERelevance(run.generation, relevance));
      PackageStepIsSteady(run, SetRelevance(run, run.generation, relevance));
      run := SetRelevance(run, run.generation, relevance);
      return true;
    }

    /** Counts how often the same action was proposed in the same state, without a pause. */
    method RecordActionStateRepeat(action: Option<string>) returns (count: nat)
      modifies this`fingerprint, this`repeats
      ensures count == repeats
      ensures action.None? ==> fingerprint.None? && repeats == 0
      ensures action.Some? ==> fingerprint == Some(FingerprintOf(run, action.value))
      ensures action.Some? ==> repeats == if old(fingerprint) == fingerprint then old(repeats) + 1 else 1
    {
      if action.None? {
        fingerprint, repeats := None, 0;
      } else if fingerprint == Some(FingerprintOf(run, action.value)) {
        repeats := repeats + 1;
      } else {
        fingerprint, repeats := Some(FingerprintOf(run, action.value)), 1;
      }
      return repeats;
    }

    method ExecuteTool(name: string) returns (done: bool)
      requires Acting(run)
      modifies this`run, this`late
      ensures old(late) ==> late
      ensures Later(old(run), run) && run.budget == old(run).budget && RetriesKept(old(run), run, late)
      ensures done ==> Healthy(run)
      ensures done ==> Current(run) == Current(old(run)) && |run.calls| == |old(run).calls| && old(run).trail.steps <= run.trail.steps
      ensures !late ==> run.calls == old(run).calls
    {
      var key: string, repeated, refused, contractBroken, failed, allRead: bool := *, *, *, *, *, *;
      if contractBroken {
        Fail();
        return false;
      }
      if refused { return false; }
      if !repeated {
        ghost var before := run;
        Pause();
        ghost var now := run;
        var searched := run.package.searched || (name == "search_sources" && !failed);
        ToolIsSteady(run, Step(key, !failed, 0), searched, allRead);
        run := ToolStep(run, run.generation, Step(key, !failed, 0), searched, allRead);
        SameWorkThen(before, now, run);
        SameLogKeepsRetries(before, run, late);
      }
      return !failed;
    }

    // What an iteration keeps of the retry and repeat discipline.
    ghost predicate DisciplineKept(r: Run, wasRepeats: nat)
      reads this
    {
      Boundary(r, wasRepeats) && r.status == Running && !late ==> Boundary(run, repeats)
    }

    method AdvanceAction(action: Action) returns (result: Advanced)
      requires Acting(run)
      modifies this
      ensures old(late) ==> late
      ensures Later(old(run), run)
      ensures result.Returned? ==> result.status == run.status && DisciplineKept(old(run), old(repeats))
    {
      if action.Synthesize? {
        var stored := StorePackage(action.claims, action.brief, action.relevance);
        if !stored { return Raised; }
        if Gap(run.package) {
          WaitForHuman();
          return Returned(WaitingHuman);
        }
      }
      if action.Investigate? { return Returned(run.status); }

      var guarded := if action.Tool? then Some("tool:" + action.name) else if action.Synthesize? then Some("synthesize") else None;
      var count := RecordActionStateRepeat(guarded);
      if count > MAX_IDENTICAL_ACTION_STATE_REPEATS {
        Fail();
        return Returned(Failed);
      }
      match action
      case Tool(name) =>
        var done := ExecuteTool(name);
        if !done { return Raised; }
        return Returned(run.status);
      case Synthesize(_, _, _) =>
        if Blocked(run) { return Returned(run.status); }
        result := AdvanceVerification();
        return;
      case Clarify =>
        WaitForHuman();
        return Returned(WaitingHuman);
    }

    /** One iteration, from any state an executor can find its run in, while superseded executors
        go on.  If it leaves the run RUNNING it has spent at least one model call; if every role had
        at most one trailing failure it still has, unless a superseded executor's call came in. */
    method AdvanceInvestigation() returns (result: Advanced)
      requires Steady(run)
      modifies this
      ensures old(late) ==> late
      ensures Later(old(run), run)
      ensures result.Returned? ==> result.status == run.status && DisciplineKept(old(run), old(repeats))
      ensures result == Returned(Running) ==> run.budget.modelCalls > old(run).budget.modelCalls
      ensures old(run).status == Running ==> Obeys(Routing(old(run)), old(run), run, result)
    {
      if !Active(run) { return Raised; }
      if run.status == WaitingHuman { return Returned(WaitingHuman); }
      if Gap(run.package) {
        WaitForHuman();
        return Returned(WaitingHuman);
      }
      if Evaluate(PolicyOf(run)) == ReadyForDecision {
        result := GoReady();
        return;
      }
      var otherBudgetSpent: bool := *;
      if otherBudgetSpent || run.budget.modelCalls >= run.budget.maxModelCalls {
        WaitForHuman();
        return Returned(WaitingHuman);
      }
      if RetryDue(run, Verifier) || (VerificationDue(run) && !VerifierRepairDue(run)) {
        result := AdvanceVerification();
        return;
      }
      if PreVerifierRepairDue(run)
         && CountSyntheses(run.calls, Some(GroundTruthAt(run))) >= MAX_SYNTHESIS_PASSES_WITHOUT_GROUND_TRUTH {
        Fail();
        return Returned(Failed);
      }
      result := AdvanceModel(VerifierRepairDue(run) || RetryDue(run, Synthesizer) || PreVerifierRepairDue(run));
    }

    // One answer of the synthesizer or the planner, carried out.
    method AdvanceModel(synthesis: bool) returns (result: Advanced)
      requires Healthy(run)
      modifies this
      ensures old(late) ==> late
      ensures Later(old(run), run)
      ensures result.Returned? ==> result.status == run.status && DisciplineKept(old(run), old(repeats))
      ensures result == Returned(Running) ==> run.budget.modelCalls > old(run).budget.modelCalls
      ensures Obeys(Ask(if synthesis then Synthesizer else Planner), old(run), run, result)
    {
      var answer: ActionResult;
      ghost var before := run;
      if synthesis { answer := RequestSynthesisPackage(); } else { answer := RequestPlannerAction(); }
      match answer
      case ActionRefused =>
        WaitForHuman();
        return Returned(WaitingHuman);
      case ActionFailed(code) =>
        if !Handled(code) { return Raised; }
        result := HandleProviderFailure(code);
        return;
      case ActionRaised => return Raised;
      case Acted(action) =>
        var contractBroken: bool := *;
        if contractBroken {
          Fail();
          return Raised;
        }
        ghost var asked := run;
        result := AdvanceAction(action);
        FirstCallKeptOn(before, asked, run, if synthesis then Synthesizer else Planner);
        return;
    }

    // Others go on between two iterations as well.
    method NextIteration() returns (result: Advanced)
      requires Steady(run)
      modifies this
      ensures old(late) ==> late
      ensures Later(old(run), run)
      ensures result.Returned? ==> result.status == run.status && DisciplineKept(old(run), old(repeats))
      ensures result == Returned(Running) ==> run.budget.modelCalls > old(run).budget.modelCalls
    {
      ghost var before := run;
      Pause();
      SameLogKeepsRetries(before, run, late);
      ghost var now := run;
      result := AdvanceInvestigation();
      SameWorkThen(before, now, run);
    }

    /** The worker loop, from any state an executor can find its run in, while superseded executors
        go on.  It leaves the run in a state other than RUNNING, and it does so without the iteration
        guard whenever the guard exceeds the model calls that remain; with the largest authorised
        budget of 40 calls the default guard of 64 is never reached. */
    method RunUntilBoundary(maxIterations: int) returns (result: Advanced, guardReached: bool)
      requires Steady(run)
      modifies this
      ensures old(late) ==> late
      ensures Later(old(run), run)
      ensures result.Returned? ==> result.status == run.status && run.status != Running
      ensures maxIterations == 64 && old(run).budget.maxModelCalls <= 40 ==> !guardReached
      ensures guardReached ==> 1 <= maxIterations <= 128 && maxIterations <= RemainingCalls(old(run)) && run.status == Failed
    {
      guardReached := false;
      if maxIterations < 1 || maxIterations > 128 { return Raised, false; }
      for i := 0 to maxIterations
        invariant Steady(run) && Later(old(run), run) && (i > 0 || old(run).status == Running ==> run.status == Running)
        invariant run.budget.modelCalls >= old(run).budget.modelCalls + i
        invariant old(late) ==> late
        invariant !late && old(run).status == Running && Boundary(old(run), old(repeats)) ==> Boundary(run, repeats)
      {
        result := NextIteration();
        if result.Raised? || result.status != Running { return; }
      }
      guardReached := true;
      Fail();
      result := Returned(Failed);
    }
  }
}
