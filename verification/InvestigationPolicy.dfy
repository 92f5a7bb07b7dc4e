/** The stop policy: which deterministic package findings and which verification findings
    block a decision package.  Hashes are modelled by the content they stand for. */
module InvestigationPolicy {
  import opened Wrappers

  datatype ClaimStatus = OpenClaim | Supported | Refuted | Conflicting

  // A claim of the register, reduced to what the policy reads.
  datatype Check = Check(
    id: string, area: string, kind: string, critical: bool, status: ClaimStatus,
    evidence: bool, counterevidence: bool, referencesValid: bool, guardValid: bool, premise: bool)

  datatype Register = Register(claims: seq<Check>, relevance: string, inputs: nat)

  // A brief with the integrity findings its content deterministically has, and whether it
  // rests on a source column that is completely missing.
  datatype Brief = Brief(text: string, findings: set<string>, missingEvidence: bool)

  datatype Hashes = Hashes(contract: string, manifest: string, register: Register, brief: Brief)

  datatype VerifierState = VerifierState(
    success: bool, critical: nat, bound: Hashes, referencesValid: bool, checked: set<string>)

  datatype PolicyState = PolicyState(
    current: Hashes, relevanceComplete: bool, verifier: Option<VerifierState>, externalGap: bool,
    questionNarrowed: bool, aborted: bool, permissionBlock: bool, valueTradeoff: bool,
    budgetExhausted: bool, technicalFailure: bool, retryAvailable: bool)

  datatype Blocker =
    | BriefFinding(finding: string) | ClaimRegisterMissing
    | SupportedWithoutEvidence(id: string) | RefutedWithoutEvidence(id: string)
    | InvalidReference(id: string) | InvalidClaimRevision(id: string) | RefutedPremiseUsed(id: string)
    | DecisionQuestionChanged | SourceRelevanceIncomplete
    | VerifierMissing | VerifierCritical | VerifierSourceReferenceInvalid | VerifierStale | VerifierScopeIncomplete
    | ExternalCriticalGap | RunAborted

  datatype Reason =
    MissingEvidence | PermissionOrScope | ValueTradeoff | BudgetExhausted | TechnicalFailure

  datatype Decision =
    | ReadyForDecision
    | HumanClarification(reason: Reason, blockers: set<Blocker>)
    | ContinueRun(blockers: set<Blocker>)

  predicate IsEvidenceClaim(c: Check) {
    !((c.area == "solution_options" && c.kind == "option")
      || (c.area == "recommendation_validation" && c.kind == "validation"))
  }

  function CheckBlockers(c: Check): set<Blocker> {
    (if c.status.Supported? && !c.evidence then {SupportedWithoutEvidence(c.id)} else {})
    + (if c.status.Refuted? && !c.counterevidence && !c.evidence then {RefutedWithoutEvidence(c.id)} else {})
    + (if !c.referencesValid then {InvalidReference(c.id)} else {})
    + (if !c.guardValid then {InvalidClaimRevision(c.id)} else {})
    + (if c.status.Refuted? && c.premise then {RefutedPremiseUsed(c.id)} else {})
  }

  function AllCheckBlockers(checks: seq<Check>): set<Blocker> {
    if checks == [] then {}
    else AllCheckBlockers(checks[..|checks| - 1])
         + (if IsEvidenceClaim(checks[|checks| - 1]) then CheckBlockers(checks[|checks| - 1]) else {})
  }

  function PreVerifierBlockers(s: PolicyState): set<Blocker> {
    (set f | f in s.current.brief.findings :: BriefFinding(f))
    + (if forall c :: c in s.current.register.claims ==> !IsEvidenceClaim(c) then {ClaimRegisterMissing} else {})
    + AllCheckBlockers(s.current.register.claims)
    + (if s.questionNarrowed then {DecisionQuestionChanged} else {})
    + (if !s.relevanceComplete then {SourceRelevanceIncomplete} else {})
  }

  function CriticalIds(claims: seq<Check>): set<string> {
    set c | c in claims && c.critical && IsEvidenceClaim(c) :: c.id
  }

  function VerifierBlockers(s: PolicyState): set<Blocker> {
    if s.verifier.None? then {VerifierMissing}
    else
      var v := s.verifier.value;
      (if !v.success || v.critical > 0 then {VerifierCritical} else {})
      + (if !v.referencesValid then {VerifierSourceReferenceInvalid} else {})
      + (if v.bound != s.current then {VerifierStale} else {})
      + (if !(CriticalIds(s.current.register.claims) <= v.checked) then {VerifierScopeIncomplete} else {})
  }

  function Evaluate(s: PolicyState): Decision {
    var blockers := PreVerifierBlockers(s) + VerifierBlockers(s);
    if s.externalGap then HumanClarification(MissingEvidence, blockers + {ExternalCriticalGap})
    else if blockers == {} then ReadyForDecision
    else if s.aborted then HumanClarification(TechnicalFailure, blockers + {RunAborted})
    else if s.permissionBlock then HumanClarification(PermissionOrScope, blockers)
    else if s.valueTradeoff then HumanClarification(ValueTradeoff, blockers)
    else if s.budgetExhausted then HumanClarification(BudgetExhausted, blockers)
    else if s.technicalFailure && !s.retryAvailable then HumanClarification(TechnicalFailure, blockers)
    else ContinueRun(blockers)
  }

  // A claim the deterministic package contract accepts.
  predicate ClaimAcceptable(c: Check) {
    && (c.status.Supported? ==> c.evidence)
    && (c.status.Refuted? ==> (c.counterevidence || c.evidence) && !c.premise)
    && c.referencesValid && c.guardValid
  }

  predicate PackageAcceptable(current: Hashes, relevanceComplete: bool) {
    && current.brief.findings == {}
    && (exists c :: c in current.register.claims && IsEvidenceClaim(c))
    && (forall c :: c in current.register.claims && IsEvidenceClaim(c) ==> ClaimAcceptable(c))
    && relevanceComplete
  }

  // A verifier result that approves exactly this package.
  predicate Approves(v: VerifierState, current: Hashes) {
    && v.success && v.critical == 0 && v.referencesValid
    && v.bound == current
    && CriticalIds(current.register.claims) <= v.checked
  }

  lemma {:induction false} NoCheckBlockers(checks: seq<Check>)
    ensures AllCheckBlockers(checks) == {} <==>
            forall c :: c in checks && IsEvidenceClaim(c) ==> ClaimAcceptable(c)
  {
    if checks != [] {
      var last := checks[|checks| - 1];
      NoCheckBlockers(checks[..|checks| - 1]);
      assert checks == checks[..|checks| - 1] + [last];
      CheckBlockersExact(last);
      assert AllCheckBlockers(checks) == {} <==>
        AllCheckBlockers(checks[..|checks| - 1]) == {} && (IsEvidenceClaim(last) ==> CheckBlockers(last) == {});
    }
  }

  lemma CheckBlockersExact(c: Check)
    ensures CheckBlockers(c) == {} <==> ClaimAcceptable(c)
  {
    if !ClaimAcceptable(c) {
      if c.status.Supported? && !c.evidence { assert SupportedWithoutEvidence(c.id) in CheckBlockers(c); }
      if c.status.Refuted? && !c.counterevidence && !c.evidence { assert RefutedWithoutEvidence(c.id) in CheckBlockers(c); }
      if !c.referencesValid { assert InvalidReference(c.id) in CheckBlockers(c); }
      if !c.guardValid { assert InvalidClaimRevision(c.id) in CheckBlockers(c); }
      if c.status.Refuted? && c.premise { assert RefutedPremiseUsed(c.id) in CheckBlockers(c); }
    }
  }

  lemma PreVerifierExact(s: PolicyState)
    ensures PreVerifierBlockers(s) == {} <==>
            PackageAcceptable(s.current, s.relevanceComplete) && !s.questionNarrowed
  {
    NoCheckBlockers(s.current.register.claims);
    var b := PreVerifierBlockers(s);
    if f :| f in s.current.brief.findings { assert BriefFinding(f) in b; }
    if forall c :: c in s.current.register.claims ==> !IsEvidenceClaim(c) { assert ClaimRegisterMissing in b; }
    if s.questionNarrowed { assert DecisionQuestionChanged in b; }
    if !s.relevanceComplete { assert SourceRelevanceIncomplete in b; }
    if x :| x in AllCheckBlockers(s.current.register.claims) { assert x in b; }
  }

  lemma VerifierExact(s: PolicyState)
    ensures VerifierBlockers(s) == {} <==> s.verifier.Some? && Approves(s.verifier.value, s.current)
  {
    var b := VerifierBlockers(s);
    if s.verifier.None? { assert VerifierMissing in b; }
    else {
      var v := s.verifier.value;
      if !v.success || v.critical > 0 { assert VerifierCritical in b; }
      if !v.referencesValid { assert VerifierSourceReferenceInvalid in b; }
      if v.bound != s.current { assert VerifierStale in b; }
      if !(CriticalIds(s.current.register.claims) <= v.checked) { assert VerifierScopeIncomplete in b; }
    }
  }

  /** READY means: no proven evidence gap, an acceptable package whose question was not
      narrowed, and a verifier result that approves exactly this package; nothing else,
      in particular neither an executed data check nor an unspent budget. */
  lemma ReadyExactly(s: PolicyState)
    ensures Evaluate(s) == ReadyForDecision <==>
            && !s.externalGap && !s.questionNarrowed
            && PackageAcceptable(s.current, s.relevanceComplete)
            && s.verifier.Some? && Approves(s.verifier.value, s.current)
  {
    PreVerifierExact(s);
    VerifierExact(s);
    if x :| x in PreVerifierBlockers(s) { assert x in PreVerifierBlockers(s) + VerifierBlockers(s); }
    if x :| x in VerifierBlockers(s) { assert x in PreVerifierBlockers(s) + VerifierBlockers(s); }
  }

  method CollectCheckBlockers(c: Check) returns (blockers: set<Blocker>)
    ensures blockers == CheckBlockers(c)
  {
    blockers := {};
    if c.status.Supported? && !c.evidence { blockers := blockers + {SupportedWithoutEvidence(c.id)}; }
    if c.status.Refuted? && !(c.counterevidence || c.evidence) { blockers := blockers + {RefutedWithoutEvidence(c.id)}; }
    if !c.referencesValid { blockers := blockers + {InvalidReference(c.id)}; }
    if !c.guardValid { blockers := blockers + {InvalidClaimRevision(c.id)}; }
    if c.status.Refuted? && c.premise { blockers := blockers + {RefutedPremiseUsed(c.id)}; }
  }

  /** The blocker list as the policy accumulates it, check by check. */
  method CollectPreVerifierBlockers(s: PolicyState) returns (blockers: set<Blocker>)
    ensures blockers == PreVerifierBlockers(s)
  {
    blockers := set f | f in s.current.brief.findings :: BriefFinding(f);
    var claims := s.current.register.claims;
    if forall c :: c in claims ==> !IsEvidenceClaim(c) { blockers := blockers + {ClaimRegisterMissing}; }
    ghost var start := blockers;
    for i := 0 to |claims|
      invariant blockers == start + AllCheckBlockers(claims[..i])
    {
      assert claims[..i + 1][..i] == claims[..i];
      if IsEvidenceClaim(claims[i]) {
        var found := CollectCheckBlockers(claims[i]);
        blockers := blockers + found;
      }
    }
    assert claims[..|claims|] == claims;
    if s.questionNarrowed { blockers := blockers + {DecisionQuestionChanged}; }
    if !s.relevanceComplete { blockers := blockers + {SourceRelevanceIncomplete}; }
  }
}
