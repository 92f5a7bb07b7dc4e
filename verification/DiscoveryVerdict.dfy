/** The verifier's verdict on a discovery draft: when it is acceptable, and what the server
    overrules in it. */
module DiscoveryVerdict {
  import opened Wrappers
  import opened Json
  import opened CanonicalText
  import opened DiscoveryContract

  const VERDICT_FIELDS: set<string> := {"schema_version", "status", "checks", "critical_findings", "repair_instructions", "human_question"}
  const CHECKS: set<string> := {"source_grounding", "scope_quality", "stage_sequence", "focus_fit", "hypothesis_separation", "unknowns_visible", "contradictions_preserved"}
  const CHECK_LIST: seq<string> := ["source_grounding", "scope_quality", "stage_sequence", "focus_fit", "hypothesis_separation", "unknowns_visible", "contradictions_preserved"]

  const APPROVED := Str("approved")
  const REPAIR := Str("repair")
  const WAITING_HUMAN := Str("waiting_human")

  function Status(v: Value): Value { Get(v, "status") }

  predicate ChecksAreFlags(checks: Value) {
    Exact(checks, CHECKS) && forall name :: name in CHECKS ==> Get(checks, name).Bool?
  }

  predicate AllTrue(checks: Value) { forall name :: name in CHECKS ==> Get(checks, name) == Bool(true) }

  predicate StatusBacked(v: Value, show: Value -> string) {
    && (Status(v) == APPROVED || Status(v) == REPAIR || Status(v) == WAITING_HUMAN)
    && (Status(v) == APPROVED ==> Get(v, "critical_findings") == Arr([]) && AllTrue(Get(v, "checks")))
    && (Status(v) == REPAIR ==> Strip(Shown(Get(v, "repair_instructions"), show)) != "")
    && (Status(v) == WAITING_HUMAN ==> Strip(Shown(Get(v, "human_question"), show)) != "")
  }

  datatype Demand = ExactFields | Version | Flags | FindingList | Backing

  predicate Meets(demand: Demand, v: Value, version: string, show: Value -> string) {
    match demand
    case ExactFields => Exact(v, VERDICT_FIELDS)
    case Version => Get(v, "schema_version") == Str(version)
    case Flags => ChecksAreFlags(Get(v, "checks"))
    case FindingList => Get(v, "critical_findings").Arr?
    case Backing => StatusBacked(v, show)
  }

  ghost predicate VerdictAcceptable(v: Value, version: string, show: Value -> string) {
    forall demand :: Meets(demand, v, version, show)
  }

  method ValidateChecks(checks: Value, before: seq<string>) returns (errors: seq<string>)
    ensures errors == [] <==> before == [] && ChecksAreFlags(checks)
  {
    errors := Complain(before, Exact(checks, CHECKS), "verifier.checks");
    errors := ValidateNames(CHECK_LIST, name => Get(checks, name).Bool?, "verifier.checks", errors);
    CheckListExact();
  }

  lemma CheckListExact()
    ensures forall name :: name in CHECKS <==> name in CHECK_LIST
  {}

  // The values of the checks object, whatever it holds.
  predicate AllValuesTrue(checks: Value) { checks.Obj? ==> forall name :: name in checks.fields ==> checks.fields[name] == Bool(true) }

  // As the validator reads it: no finding of any kind, and no value but true among the checks.
  predicate StatusMet(v: Value, show: Value -> string) {
    && (Status(v) == APPROVED || Status(v) == REPAIR || Status(v) == WAITING_HUMAN)
    && (Status(v) == APPROVED ==> Falsy(Get(v, "critical_findings")) && AllValuesTrue(Get(v, "checks")))
    && (Status(v) == REPAIR ==> Strip(Shown(Get(v, "repair_instructions"), show)) != "")
    && (Status(v) == WAITING_HUMAN ==> Strip(Shown(Get(v, "human_question"), show)) != "")
  }

  method ValidateStatus(v: Value, show: Value -> string, before: seq<string>) returns (errors: seq<string>)
    ensures errors == [] <==> before == [] && StatusMet(v, show)
  {
    var status := Status(v);
    errors := Complain(before, status == APPROVED || status == REPAIR || status == WAITING_HUMAN, "verifier.status");
    if status == APPROVED {
      errors := Complain(errors, Falsy(Get(v, "critical_findings")), "verifier");
      errors := Complain(errors, AllValuesTrue(Get(v, "checks")), "verifier");
    }
    errors := Complain(errors, status == REPAIR ==> Strip(Shown(Get(v, "repair_instructions"), show)) != "", "verifier.repair_instructions");
    errors := Complain(errors, status == WAITING_HUMAN ==> Strip(Shown(Get(v, "human_question"), show)) != "", "verifier.human_question");
  }

  /** Complaints are empty exactly for acceptable verdicts: all seven checks are flags, an
      approval has every flag set and no finding, a repair says what to do, a question is asked. */
  method ValidateVerifierPayload(v: Value, version: string, show: Value -> string) returns (errors: seq<string>)
    ensures errors == [] <==> VerdictAcceptable(v, version, show)
  {
    var checks := Get(v, "checks");
    errors := Complain([], Exact(v, VERDICT_FIELDS), "verifier");
    errors := Complain(errors, Get(v, "schema_version") == Str(version), "verifier.schema_version");
    errors := ValidateChecks(checks, errors);
    errors := Complain(errors, Get(v, "critical_findings").Arr?, "verifier.critical_findings");
    errors := ValidateStatus(v, show, errors);
    if VerdictAcceptable(v, version, show) {
      assert Meets(ExactFields, v, version, show) && Meets(Version, v, version, show) && Meets(Flags, v, version, show);
      assert Meets(FindingList, v, version, show) && Meets(Backing, v, version, show);
    }
    if ChecksAreFlags(checks) { assert AllValuesTrue(checks) <==> AllTrue(checks) by { ExactValues(checks); } }
  }

  lemma ExactValues(checks: Value)
    requires Exact(checks, CHECKS)
    ensures AllValuesTrue(checks) <==> AllTrue(checks)
  {
    assert forall name :: name in checks.fields <==> name in CHECKS;
    assert forall name :: name in CHECKS ==> Get(checks, name) == checks.fields[name];
  }

  // ---------- what the server adds ----------

  function Message(code: string, text: string): Value { Obj(map["code" := Str(code), "message" := Str(text)]) }

  function Messages(code: string, texts: seq<string>): seq<Value> {
    if texts == [] then [] else [Message(code, texts[0])] + Messages(code, texts[1..])
  }

  function JoinLines(first: string, rest: seq<string>): string { Join([first] + rest) }

  function Listed(v: Value): seq<Value> { if v.Arr? then v.items else [] }

  // The verdict turned into a request for repair by findings of the server.  Instructions that
  // are no text cannot be joined, which breaks the whole analysis off.
  function Overruled(v: Value, code: string, findings: seq<string>): (r: Option<Value>)
    requires v.Obj?
    ensures r.Some? <==> Get(v, "repair_instructions").Str?
    ensures r.Some? ==> r.value.Obj? && Status(r.value) == REPAIR
    ensures r.Some? ==> Get(r.value, "critical_findings") == Arr(Listed(Get(v, "critical_findings")) + Messages(code, findings))
  {
    var instructions := Get(v, "repair_instructions");
    if !instructions.Str? then None
    else Some(Obj(v.fields["status" := REPAIR]["human_question" := Str("")]
      ["critical_findings" := Arr(Listed(Get(v, "critical_findings")) + Messages(code, findings))]
      ["repair_instructions" := Str(JoinLines(instructions.s, findings))]))
  }

  function EnforceMethodology(v: Value, findings: seq<string>): (r: Option<Value>)
    requires v.Obj?
    ensures findings == [] ==> r == Some(v)
    ensures findings != [] && r.Some? ==> r.value.Obj? && Status(r.value) == REPAIR
    ensures findings != [] && r.Some? ==>
      Get(r.value, "critical_findings") == Arr(Listed(Get(v, "critical_findings")) + Messages("methodical_contract", findings))
  {
    if findings == [] then Some(v)
    else match Overruled(v, "methodical_contract", findings)
      case None => None
      case Some(o) =>
        var checks := if Get(v, "checks").Obj? then Get(v, "checks").fields else map[];
        var r := Obj(o.fields["checks" := Obj(checks["source_grounding" := Bool(false)])]);
        assert Status(r) == Status(o) && Get(r, "critical_findings") == Get(o, "critical_findings");
        Some(r)
  }

  // ---------- the boundary of human decisions ----------

  // Wordings are abbreviated; that neither is blank is what matters.
  const DEFAULT_QUESTION := "Frage"
  const SCOPE_QUESTION := "Bereich?"

  predicate Blocking(item: Value) { item.Obj? && Get(item, "blocking") == Bool(true) }

  function QuestionText(item: Value, show: Value -> string): string {
    var q := Get(item, "question");
    Strip(if Falsy(q) then DEFAULT_QUESTION else Shown(q, show))
  }

  function Questions(items: seq<Value>, show: Value -> string): seq<string> {
    if items == [] then []
    else (if Blocking(items[0]) then [QuestionText(items[0], show)] else []) + Questions(items[1..], show)
  }

  function BlockingQuestions(draft: Value, show: Value -> string): seq<string> {
    Questions(Listed(Get(draft, "clarifications")), show)
  }

  predicate ScopeIncomplete(scope: Value, show: Value -> string) {
    exists k :: 0 <= k < |REQUIRED_SCOPE_FIELDS| && Strip(Shown(Get(scope, REQUIRED_SCOPE_FIELDS[k]), show)) == ""
  }

  // A strategic draft with a gap in its scope; the question about it comes before all others.
  predicate ScopeFirst(draft: Value, show: Value -> string) {
    Get(draft, "schema_version") == Str(V3) && ScopeIncomplete(Get(draft, "scope_basis"), show)
  }

  function OpenQuestions(draft: Value, show: Value -> string): seq<string> {
    (if ScopeFirst(draft, show) then [SCOPE_QUESTION] else [])
    + BlockingQuestions(draft, show)
  }

  function EnforceReadiness(draft: Value, v: Value, show: Value -> string): (r: Value)
    requires v.Obj?
    ensures r.Obj?
    ensures Status(r) == if Status(v) == APPROVED && OpenQuestions(draft, show) != [] then WAITING_HUMAN else Status(v)
  {
    var questions := OpenQuestions(draft, show);
    if questions == [] || Status(v) != APPROVED then v
    else Obj(v.fields["status" := WAITING_HUMAN]["human_question" := Str(questions[0])]
      ["critical_findings" := Arr(Messages("decision_blocking_clarification", questions))])
  }

  lemma ReadinessVerdict(draft: Value, v: Value, show: Value -> string)
    requires v.Obj?
    ensures Status(EnforceReadiness(draft, v, show)) == APPROVED <==> Status(v) == APPROVED && OpenQuestions(draft, show) == []
  {
    assert WAITING_HUMAN.s[0] != APPROVED.s[0];
  }

  lemma {:induction false} QuestionsExactly(items: seq<Value>, show: Value -> string)
    ensures Questions(items, show) == [] <==> forall k :: 0 <= k < |items| ==> !Blocking(items[k])
  {
    if items != [] {
      QuestionsExactly(items[1..], show);
      assert forall k :: 0 < k < |items| ==> items[k] == items[1..][k - 1];
      if forall k :: 0 <= k < |items| ==> !Blocking(items[k]) {
        forall k | 0 <= k < |items[1..]| ensures !Blocking(items[1..][k]) { assert items[1..][k] == items[k + 1]; }
      }
    }
  }

  /** An approval survives the readiness boundary exactly when no clarification blocks and, for
      a strategic draft, no required field of its scope is blank. */
  lemma ApprovalSurvivesExactly(draft: Value, v: Value, show: Value -> string)
    requires v.Obj? && Status(v) == APPROVED && Get(draft, "clarifications").Arr?
    ensures Status(EnforceReadiness(draft, v, show)) == APPROVED <==>
      && (forall k :: 0 <= k < |Get(draft, "clarifications").items| ==> !Blocking(Get(draft, "clarifications").items[k]))
      && !ScopeFirst(draft, show)
  {
    QuestionsExactly(Get(draft, "clarifications").items, show);
  }

  predicate FirstBlocking(items: seq<Value>, k: nat) {
    k < |items| && Blocking(items[k]) && forall j :: 0 <= j < k ==> !Blocking(items[j])
  }

  lemma {:induction false} FirstQuestion(items: seq<Value>, show: Value -> string) returns (k: nat)
    requires Questions(items, show) != []
    ensures FirstBlocking(items, k) && Questions(items, show)[0] == QuestionText(items[k], show)
  {
    if Blocking(items[0]) {
      k := 0;
    } else {
      var i := FirstQuestion(items[1..], show);
      k := i + 1;
      forall j | 0 <= j < k ensures !Blocking(items[j]) { if j > 0 { assert items[j] == items[1..][j - 1]; } }
    }
  }

  predicate BlankText(item: Value, show: Value -> string) {
    !Falsy(Get(item, "question")) && Strip(Shown(Get(item, "question"), show)) == ""
  }

  lemma BlankTextExactly(item: Value, show: Value -> string)
    ensures QuestionText(item, show) == "" <==> BlankText(item, show)
  {
    StripKeeps(DEFAULT_QUESTION);
  }

  lemma QuestionPut(draft: Value, v: Value, show: Value -> string)
    requires v.Obj? && Status(v) == APPROVED && OpenQuestions(draft, show) != []
    ensures Get(EnforceReadiness(draft, v, show), "human_question") == Str(OpenQuestions(draft, show)[0])
  {}

  /** The question put to the human can be empty: a blocking clarification whose question is only
      whitespace hides behind no default.  For any draft this happens exactly if the question of
      the scope does not come first and the first blocking clarification has such a text. */
  lemma BlankQuestionExactly(draft: Value, v: Value, show: Value -> string)
    requires v.Obj? && Status(v) == APPROVED && OpenQuestions(draft, show) != []
    ensures Get(EnforceReadiness(draft, v, show), "human_question") == Str("") <==>
      !ScopeFirst(draft, show) && exists k: nat ::
        FirstBlocking(Listed(Get(draft, "clarifications")), k) && BlankText(Listed(Get(draft, "clarifications"))[k], show)
  {
    var items := Listed(Get(draft, "clarifications"));
    QuestionPut(draft, v, show);
    if !ScopeFirst(draft, show) {
      var k := FirstQuestion(items, show);
      BlankTextExactly(items[k], show);
      forall i: nat | FirstBlocking(items, i) ensures i == k { OneFirstBlocking(items, i, k); }
    }
  }

  lemma OneFirstBlocking(items: seq<Value>, i: nat, k: nat)
    requires FirstBlocking(items, i) && FirstBlocking(items, k)
    ensures i == k
  {}
}
