/** What a discovery draft and a verifier's verdict must look like before anything is built on
    them, and the decisions the server adds to a verdict. */
module DiscoveryContract {
  import opened Wrappers
  import opened Json
  import opened CanonicalText

  const V1 := "ap1-discovery-v1"
  const V2 := "ap1-discovery-v2"
  const V3 := "ap1-discovery-v3"
  const MAX_DISCOVERY_STAGES := 12

  const ROOT_FIELDS: set<string> := {"schema_version", "value_stream", "stages", "focus", "process_analysis", "facts", "hypotheses", "unknowns", "clarifications", "contradictions"}
  const VALUE_STREAM_FIELDS: set<string> := {"name", "description", "trigger", "outcome", "scope_in", "scope_out", "strategic_objective", "stakeholders", "constraints", "evidence_refs"}
  const FOCUS_FIELDS: set<string> := {"recommended_stage_key", "business_domain", "capability", "strategic_impact", "economic_potential", "pain_intensity", "data_accessibility", "change_effort", "rationale", "tradeoffs", "uncertainties", "evidence_refs"}
  const PROCESS_FIELDS: set<string> := {"name", "scope_start", "scope_end", "trigger", "outcome", "current_flow", "roles", "systems", "data_objects", "business_rules", "handoffs", "bottlenecks", "observations", "cause_hypotheses", "constraints", "exceptions", "baseline_metrics", "evidence_refs"}
  const STAGE_FIELDS: set<string> := {"key", "sequence", "name", "description", "roles", "systems", "documents", "pain_points", "baseline_metrics", "impact", "pain_intensity", "improvement_potential", "data_accessibility", "change_effort", "time_to_value", "evidence_basis", "evidence_refs"}
  const SCOPE_FIELDS: set<string> := {"scope_start", "scope_end", "scope_out", "reason", "validation_step"}
  const CLARIFICATION_FIELDS: set<string> := {"question", "impact", "kind", "blocking"}

  const VALUE_STREAM_TEXTS: seq<string> := ["name", "trigger", "outcome", "scope_in"]
  const FOCUS_TEXTS: seq<string> := ["capability", "rationale"]
  const PROCESS_TEXTS: seq<string> := ["name", "scope_start", "scope_end", "trigger", "outcome", "current_flow"]
  const STAGE_CRITERIA: seq<string> := ["impact", "pain_intensity", "improvement_potential", "data_accessibility", "change_effort"]
  const FOCUS_CRITERIA: seq<string> := ["strategic_impact", "economic_potential", "pain_intensity", "data_accessibility", "change_effort"]
  const REQUIRED_SCOPE_FIELDS: seq<string> := ["scope_start", "scope_end", "reason", "validation_step"]

  const LEVELS: set<string> := {"low", "medium", "high"}
  const TIMES: set<string> := {"unknown", "short", "medium", "long"}
  const BASES: set<string> := {"hypothesis", "indicative", "measured"}
  const DOMAINS: set<string> := {"procurement", "sales", "marketing", "production", "logistics", "finance", "human_resources", "customer_service", "it", "legal_compliance", "research_development", "corporate_services", "other"}
  const KINDS: set<string> := {"scope_decision", "evidence_collection"}

  // The contract of one analysis: its schema version, the sources it may cite, the checks on
  // language and numbers, and how values that are no text are shown.
  datatype Contract = Contract(
    version: string, allowedRefs: set<string>, methodical: Value -> seq<string>, modality: Value -> seq<string>,
    numbers: Value -> seq<string>, show: Value -> string)
  {
    predicate Strategic() { version == V3 }
  }

  // ---------- reading values ----------

  function Get(v: Value, name: string): Value {
    if v.Obj? && name in v.fields then v.fields[name] else Null
  }

  predicate Falsy(v: Value) {
    match v
    case Null => true
    case Bool(b) => !b
    case Num(n) => n == 0
    case Str(s) => s == ""
    case Arr(xs) => xs == []
    case Obj(m) => |m| == 0
  }

  function Shown(v: Value, show: Value -> string): string {
    if Falsy(v) then "" else if v.Str? then v.s else show(v)
  }

  predicate Exact(v: Value, fields: set<string>) { v.Obj? && v.fields.Keys == fields }

  predicate Among(v: Value, words: set<string>) { v.Str? && v.s in words }

  predicate NonBlank(v: Value) { v.Str? && Strip(v.s) != "" }

  predicate RefsMet(v: Value, allowed: set<string>) {
    v.Arr? && forall x :: x in v.items ==> Among(x, allowed)
  }

  // Equality of a number with a value; a true flag counts as one.
  predicate Equals(v: Value, n: nat) { v == Num(n) || (n == 1 && v == Bool(true)) }

  // ---------- what the contract demands ----------

  predicate TextMet(v: Value, name: string, strategic: bool) {
    v.Str? && (Strip(v.s) != "" || (strategic && (name == "scope_start" || name == "scope_end")))
  }

  predicate TextsMet(v: Value, names: seq<string>, strategic: bool) {
    forall k :: 0 <= k < |names| ==> TextMet(Get(v, names[k]), names[k], strategic)
  }

  predicate HeadMet(d: Value, c: Contract) {
    var vs, focus, process := Get(d, "value_stream"), Get(d, "focus"), Get(d, "process_analysis");
    && VersionMet(d, c)
    && PartsMet(d, vs, focus, process, c.Strategic())
    && TextsMet(vs, VALUE_STREAM_TEXTS, false) && TextsMet(focus, FOCUS_TEXTS, false) && TextsMet(process, PROCESS_TEXTS, c.Strategic())
    && BottlenecksMet(Get(process, "bottlenecks"), c)
    && CitesMet(vs, c) && CitesMet(focus, c) && CitesMet(process, c)
  }

  predicate VersionMet(d: Value, c: Contract) {
    (c.version == V1 || c.version == V2 || c.version == V3) && Get(d, "schema_version") == Str(c.version)
  }

  predicate PartsMet(d: Value, vs: Value, focus: Value, process: Value, strategic: bool) {
    && Exact(d, ROOT_FIELDS + if strategic then {"scope_basis"} else {})
    && Exact(vs, VALUE_STREAM_FIELDS) && Exact(focus, FOCUS_FIELDS) && Exact(process, PROCESS_FIELDS)
  }

  predicate BottlenecksMet(v: Value, c: Contract) { v.Str? && (c.version == V1 ==> NonBlank(v)) }

  predicate CitesMet(v: Value, c: Contract) { RefsMet(Get(v, "evidence_refs"), c.allowedRefs) }

  predicate RatingsMet(v: Value, criteria: seq<string>, strategic: bool) {
    forall k :: 0 <= k < |criteria| ==> Among(Get(v, criteria[k]), if strategic then {""} else LEVELS)
  }

  predicate StageMet(stage: Value, index: nat, c: Contract) {
    && Exact(stage, STAGE_FIELDS)
    && StageKey(stage, c) != "" && Strip(Shown(Get(stage, "name"), c.show)) != ""
    && Equals(Get(stage, "sequence"), index + 1)
    && RatingsMet(stage, STAGE_CRITERIA, c.Strategic())
    && Among(Get(stage, "time_to_value"), TIMES) && (c.Strategic() ==> Get(stage, "time_to_value") == Str("unknown"))
    && Among(Get(stage, "evidence_basis"), BASES)
    && CitesMet(stage, c)
  }

  function StageKey(stage: Value, c: Contract): string { Strip(Shown(Get(stage, "key"), c.show)) }

  function Stages(d: Value): seq<Value> {
    if Get(d, "stages").Arr? then Get(d, "stages").items else []
  }

  predicate KeysDiffer(stages: seq<Value>, c: Contract) {
    forall i, j :: 0 <= i < j < |stages| ==> StageKey(stages[i], c) != StageKey(stages[j], c)
  }

  predicate FocusKnown(stages: seq<Value>, key: Value, c: Contract) {
    key.Str? && exists i :: 0 <= i < |stages| && StageKey(stages[i], c) == key.s
  }

  predicate AllStagesMet(stages: seq<Value>, c: Contract) {
    forall i :: 0 <= i < |stages| ==> StageMet(stages[i], i, c)
  }

  predicate FocusMet(focus: Value, c: Contract) {
    Among(Get(focus, "business_domain"), DOMAINS) && RatingsMet(focus, FOCUS_CRITERIA, c.Strategic())
  }

  predicate StagesMet(d: Value, c: Contract) {
    && 0 < |Stages(d)| <= MAX_DISCOVERY_STAGES
    && AllStagesMet(Stages(d), c)
    && KeysDiffer(Stages(d), c)
    && FocusKnown(Stages(d), Get(Get(d, "focus"), "recommended_stage_key"), c)
    && FocusMet(Get(d, "focus"), c)
  }

  predicate StatementMet(item: Value, contradiction: bool, c: Contract) {
    && item.Obj? && RefsMet(Get(item, "evidence_refs"), c.allowedRefs)
    && (contradiction ==> TwoSources(Get(item, "evidence_refs")))
  }

  predicate TwoSources(refs: Value) { refs.Arr? && exists i, j :: 0 <= i < j < |refs.items| && refs.items[i] != refs.items[j] }

  predicate StatementsMet(v: Value, contradiction: bool, c: Contract) {
    v.Arr? && forall i :: 0 <= i < |v.items| ==> StatementMet(v.items[i], contradiction, c)
  }

  predicate ClarificationMet(item: Value) {
    && Exact(item, CLARIFICATION_FIELDS) && Get(item, "blocking").Bool?
    && Among(Get(item, "kind"), KINDS)
    && (Get(item, "kind") == Str("evidence_collection") ==> Get(item, "blocking") == Bool(false))
  }

  predicate ListsMet(d: Value, c: Contract) {
    && StatementsMet(Get(d, "facts"), false, c) && StatementsMet(Get(d, "hypotheses"), false, c)
    && StatementsMet(Get(d, "contradictions"), true, c)
    && Get(d, "unknowns").Arr? && Get(d, "clarifications").Arr?
    && (c.Strategic() ==>
          && Exact(Get(d, "scope_basis"), SCOPE_FIELDS)
          && forall i :: 0 <= i < |Get(d, "clarifications").items| ==> ClarificationMet(Get(d, "clarifications").items[i]))
  }

  datatype Part = Head | Phases | Lists | Methodical | Numbers | Modality

  predicate PartMet(part: Part, d: Value, c: Contract) {
    match part
    case Head => HeadMet(d, c)
    case Phases => StagesMet(d, c)
    case Lists => ListsMet(d, c)
    case Methodical => c.methodical(d) == []
    case Numbers => c.numbers(d) == []
    case Modality => c.modality(d) == []
  }

  ghost predicate ContractMet(d: Value, c: Contract) { forall part :: PartMet(part, d, c) }

  // ---------- the validator, collecting complaints ----------

  function Complain(errors: seq<string>, ok: bool, message: string): (r: seq<string>)
    ensures r == [] <==> errors == [] && ok
  {
    if ok then errors else errors + [message]
  }

  // One complaint per name that fails.
  method ValidateNames(names: seq<string>, ok: string -> bool, path: string, before: seq<string>) returns (errors: seq<string>)
    ensures errors == [] <==> before == [] && forall k :: 0 <= k < |names| ==> ok(names[k])
  {
    errors := before;
    for i := 0 to |names|
      invariant errors == [] <==> before == [] && forall k :: 0 <= k < i ==> ok(names[k])
    {
      errors := Complain(errors, ok(names[i]), path + "." + names[i]);
    }
  }

  method ValidateTexts(v: Value, names: seq<string>, strategic: bool, path: string, before: seq<string>) returns (errors: seq<string>)
    ensures errors == [] <==> before == [] && TextsMet(v, names, strategic)
  {
    errors := ValidateNames(names, name => TextMet(Get(v, name), name, strategic), path, before);
  }

  method ValidateRatings(v: Value, names: seq<string>, strategic: bool, path: string, before: seq<string>) returns (errors: seq<string>)
    ensures errors == [] <==> before == [] && RatingsMet(v, names, strategic)
  {
    errors := ValidateNames(names, name => Among(Get(v, name), if strategic then {""} else LEVELS), path, before);
  }

  method ValidateRefs(v: Value, allowed: set<string>, path: string, before: seq<string>) returns (errors: seq<string>)
    ensures errors == [] <==> before == [] && RefsMet(v, allowed)
  {
    errors := Complain(before, v.Arr?, path);
    if v.Arr? {
      for k := 0 to |v.items|
        invariant errors == [] <==> before == [] && forall x :: x in v.items[..k] ==> Among(x, allowed)
      {
        errors := Complain(errors, Among(v.items[k], allowed), path);
        assert v.items[..k + 1] == v.items[..k] + [v.items[k]];
      }
      assert v.items[..|v.items|] == v.items;
    }
  }

  method ValidateParts(d: Value, vs: Value, focus: Value, process: Value, strategic: bool, before: seq<string>) returns (errors: seq<string>)
    ensures errors == [] <==> before == [] && PartsMet(d, vs, focus, process, strategic)
  {
    errors := Complain(before, Exact(d, ROOT_FIELDS + if strategic then {"scope_basis"} else {}), "root");
    errors := Complain(errors, Exact(vs, VALUE_STREAM_FIELDS), "value_stream");
    errors := Complain(errors, Exact(focus, FOCUS_FIELDS), "focus");
    errors := Complain(errors, Exact(process, PROCESS_FIELDS), "process_analysis");
  }

  method ValidateHead(d: Value, c: Contract, before: seq<string>) returns (errors: seq<string>)
    ensures errors == [] <==> before == [] && HeadMet(d, c)
  {
    var vs, focus, process := Get(d, "value_stream"), Get(d, "focus"), Get(d, "process_analysis");
    errors := ValidateParts(d, vs, focus, process, c.Strategic(), before);
    errors := Complain(errors, VersionMet(d, c), "schema_version");
    errors := ValidateTexts(vs, VALUE_STREAM_TEXTS, false, "value_stream", errors);
    errors := ValidateTexts(focus, FOCUS_TEXTS, false, "focus", errors);
    errors := ValidateTexts(process, PROCESS_TEXTS, c.Strategic(), "process_analysis", errors);
    errors := Complain(errors, BottlenecksMet(Get(process, "bottlenecks"), c), "process_analysis.bottlenecks");
    errors := ValidateRefs(Get(vs, "evidence_refs"), c.allowedRefs, "value_stream", errors);
    errors := ValidateRefs(Get(focus, "evidence_refs"), c.allowedRefs, "focus", errors);
    errors := ValidateRefs(Get(process, "evidence_refs"), c.allowedRefs, "process_analysis", errors);
  }

  method ValidateStage(stage: Value, index: nat, c: Contract, before: seq<string>) returns (errors: seq<string>)
    ensures errors == [] <==> before == [] && StageMet(stage, index, c)
  {
    var path := "stages[" + Decimal(index) + "]";
    errors := Complain(before, Exact(stage, STAGE_FIELDS), path);
    errors := Complain(errors, StageKey(stage, c) != "", path + ".key");
    errors := Complain(errors, Strip(Shown(Get(stage, "name"), c.show)) != "", path + ".name");
    errors := Complain(errors, Equals(Get(stage, "sequence"), index + 1), path + ".sequence");
    errors := ValidateRatings(stage, STAGE_CRITERIA, c.Strategic(), path, errors);
    errors := Complain(errors, Among(Get(stage, "time_to_value"), TIMES), path + ".time_to_value");
    errors := Complain(errors, c.Strategic() ==> Get(stage, "time_to_value") == Str("unknown"), path + ".time_to_value");
    errors := Complain(errors, Among(Get(stage, "evidence_basis"), BASES), path + ".evidence_basis");
    errors := ValidateRefs(Get(stage, "evidence_refs"), c.allowedRefs, path, errors);
  }

  // As many different keys as stages means that no two agree.
  lemma {:induction false} DistinctCount(keys: seq<string>)
    ensures |set k | k in keys| <= |keys|
    ensures |set k | k in keys| == |keys| <==> forall i, j :: 0 <= i < j < |keys| ==> keys[i] != keys[j]
  {
    if keys != [] {
      var rest, last := keys[..|keys| - 1], keys[|keys| - 1];
      DistinctCount(rest);
      assert keys == rest + [last];
      assert (set k | k in keys) == (set k | k in rest) + {last};
      if last in rest {
        var i :| 0 <= i < |rest| && rest[i] == last;
        assert keys[i] == keys[|keys| - 1];
      } else if forall i, j :: 0 <= i < j < |rest| ==> rest[i] != rest[j] {
        forall i, j | 0 <= i < j < |keys| ensures keys[i] != keys[j] { assert keys[i] == rest[i] && rest[i] in rest; }
      } else {
        var i, j :| 0 <= i < j < |rest| && rest[i] == rest[j];
        assert keys[i] == keys[j];
      }
    }
  }

  method ValidateEachStage(stages: seq<Value>, c: Contract, before: seq<string>) returns (errors: seq<string>, keys: seq<string>)
    ensures errors == [] <==> before == [] && AllStagesMet(stages, c)
    ensures |keys| == |stages| && forall k :: 0 <= k < |stages| ==> keys[k] == StageKey(stages[k], c)
  {
    errors, keys := before, [];
    for index := 0 to |stages|
      invariant |keys| == index && forall k :: 0 <= k < index ==> keys[k] == StageKey(stages[k], c)
      invariant errors == [] <==> before == [] && forall k :: 0 <= k < index ==> StageMet(stages[k], k, c)
    {
      errors := ValidateStage(stages[index], index, c, errors);
      keys := keys + [StageKey(stages[index], c)];
    }
  }

  method ValidateStages(d: Value, c: Contract, before: seq<string>) returns (errors: seq<string>)
    ensures errors == [] <==> before == [] && StagesMet(d, c)
  {
    var stages, focus := Stages(d), Get(d, "focus");
    var named := Get(focus, "recommended_stage_key");
    var keys;
    errors := Complain(before, stages != [], "stages");
    errors := Complain(errors, |stages| <= MAX_DISCOVERY_STAGES, "stages");
    errors, keys := ValidateEachStage(stages, c, errors);
    DistinctCount(keys);
    assert |keys| == |set k | k in keys| <==> KeysDiffer(stages, c);
    errors := Complain(errors, |keys| == |set k | k in keys|, "stages");
    assert named.Str? && named.s in keys <==> FocusKnown(stages, named, c);
    errors := Complain(errors, named.Str? && named.s in keys, "focus.recommended_stage_key");
    errors := Complain(errors, Among(Get(focus, "business_domain"), DOMAINS), "focus.business_domain");
    errors := ValidateRatings(focus, FOCUS_CRITERIA, c.Strategic(), "focus", errors);
  }

  method ValidateStatements(v: Value, contradiction: bool, c: Contract, path: string, before: seq<string>) returns (errors: seq<string>)
    ensures errors == [] <==> before == [] && StatementsMet(v, contradiction, c)
  {
    errors := Complain(before, v.Arr?, path);
    if v.Arr? {
      for i := 0 to |v.items|
        invariant errors == [] <==> before == [] && forall k :: 0 <= k < i ==> StatementMet(v.items[k], contradiction, c)
      {
        var item, at := v.items[i], path + "[" + Decimal(i) + "]";
        errors := Complain(errors, item.Obj?, at);
        if item.Obj? {
          var refs := Get(item, "evidence_refs");
          errors := ValidateRefs(refs, c.allowedRefs, at, errors);
          if refs.Arr? { CountOfSources(refs.items); }
          errors := Complain(errors, contradiction && refs.Arr? ==> |set x | x in refs.items| >= 2, at);
        }
      }
    }
  }

  lemma CountOfSources(items: seq<Value>)
    ensures |set x | x in items| >= 2 <==> TwoSources(Arr(items))
  {
    var all := set x | x in items;
    if TwoSources(Arr(items)) {
      var i, j :| 0 <= i < j < |items| && items[i] != items[j];
      assert {items[i], items[j]} <= all && |{items[i], items[j]}| == 2;
      SubsetSize({items[i], items[j]}, all);
    } else if items != [] {
      assert forall j :: 0 < j < |items| ==> items[0] == items[j];
      assert all == {items[0]};
    }
  }

  method ValidateLists(d: Value, c: Contract, before: seq<string>) returns (errors: seq<string>)
    ensures errors == [] <==> before == [] && ListsMet(d, c)
  {
    var asked := Get(d, "clarifications");
    errors := ValidateStatements(Get(d, "facts"), false, c, "facts", before);
    errors := ValidateStatements(Get(d, "hypotheses"), false, c, "hypotheses", errors);
    errors := ValidateStatements(Get(d, "contradictions"), true, c, "contradictions", errors);
    errors := Complain(errors, Get(d, "unknowns").Arr?, "unknowns");
    errors := Complain(errors, asked.Arr?, "clarifications");
    if c.Strategic() {
      errors := Complain(errors, Exact(Get(d, "scope_basis"), SCOPE_FIELDS), "scope_basis");
      if asked.Arr? {
        ghost var so := errors;
        for i := 0 to |asked.items|
          invariant errors == [] <==> so == [] && forall k :: 0 <= k < i ==> ClarificationMet(asked.items[k])
        {
          var item := asked.items[i];
          errors := Complain(errors, item.Obj? ==> Exact(item, CLARIFICATION_FIELDS), "clarification");
          errors := Complain(errors, item.Obj? ==> Get(item, "blocking").Bool?, "clarification.blocking");
          if !item.Obj? || !Among(Get(item, "kind"), KINDS) {
            errors := Complain(errors, false, "clarifications.kind");
          } else {
            errors := Complain(errors, Get(item, "kind") == Str("evidence_collection") ==> Get(item, "blocking") == Bool(false), "clarifications");
          }
        }
      }
    }
  }

  /** The complaints are empty exactly for the drafts that meet the contract. */
  method ValidateDiscoveryPayload(d: Value, c: Contract) returns (errors: seq<string>)
    ensures errors == [] <==> ContractMet(d, c)
  {
    errors := ValidateHead(d, c, []);
    errors := ValidateStages(d, c, errors);
    errors := errors + c.methodical(d);
    errors := ValidateLists(d, c, errors);
    errors := errors + c.numbers(d) + c.modality(d);
    if ContractMet(d, c) {
      assert PartMet(Head, d, c) && PartMet(Phases, d, c) && PartMet(Lists, d, c);
      assert PartMet(Methodical, d, c) && PartMet(Numbers, d, c) && PartMet(Modality, d, c);
    }
  }

  /** The recommended focus of an accepted draft designates exactly one stage, at the position
      its sequence number gives.  It repeats that stage's key letter by letter exactly when the
      key is a text without outer whitespace: keys are compared stripped, but kept as written. */
  lemma FocusNamesOneStage(d: Value, c: Contract) returns (i: nat)
    requires ContractMet(d, c)
    ensures i < |Stages(d)| && Equals(Get(Stages(d)[i], "sequence"), i + 1)
    ensures forall k :: 0 <= k < |Stages(d)| ==>
      (Str(StageKey(Stages(d)[k], c)) == Get(Get(d, "focus"), "recommended_stage_key") <==> k == i)
    ensures Get(Stages(d)[i], "key") == Get(Get(d, "focus"), "recommended_stage_key")
      <==> Get(Stages(d)[i], "key").Str? && Strip(Get(Stages(d)[i], "key").s) == Get(Stages(d)[i], "key").s
  {
    var stages, key := Stages(d), Get(Get(d, "focus"), "recommended_stage_key");
    assert PartMet(Phases, d, c);
    assert FocusKnown(stages, key, c) && KeysDiffer(stages, c) && AllStagesMet(stages, c);
    i := Named(stages, key, c);
  }

  lemma Named(stages: seq<Value>, key: Value, c: Contract) returns (i: nat)
    requires FocusKnown(stages, key, c) && KeysDiffer(stages, c) && AllStagesMet(stages, c)
    ensures i < |stages| && Equals(Get(stages[i], "sequence"), i + 1)
    ensures forall k :: 0 <= k < |stages| ==> (Str(StageKey(stages[k], c)) == key <==> k == i)
    ensures Get(stages[i], "key") == key <==> Get(stages[i], "key").Str? && Strip(Get(stages[i], "key").s) == Get(stages[i], "key").s
  {
    i :| 0 <= i < |stages| && StageKey(stages[i], c) == key.s;
    assert StageMet(stages[i], i, c);
    forall k | 0 <= k < |stages| ensures Str(StageKey(stages[k], c)) == key <==> k == i {
      if k < i { assert StageKey(stages[k], c) != StageKey(stages[i], c); }
      if k > i { assert StageKey(stages[i], c) != StageKey(stages[k], c); }
    }
  }
}
