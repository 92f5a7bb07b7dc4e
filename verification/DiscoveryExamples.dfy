/** Concrete drafts that the contract accepts and that show where its guarantees end. */
module DiscoveryExamples {
  import opened Wrappers
  import opened Json
  import opened FieldPaths
  import opened FieldRepair
  import opened CanonicalText
  import opened DiscoveryContract
  import opened DiscoveryVerdict

  // A contract of the first version that cites nothing and finds nothing to object to.
  function Lenient(): Contract {
    Contract(V1, {}, (v: Value) => [], (v: Value) => [], (v: Value) => [], (v: Value) => "")
  }

  function Filled(fields: set<string>, special: map<string, Value>): Value {
    Obj(map name | name in fields :: if name in special then special[name] else if name == "evidence_refs" then Arr([]) else Str("low"))
  }

  function ValueStream(): Value { Filled(VALUE_STREAM_FIELDS, map[]) }
  function Process(roles: Value): Value { Filled(PROCESS_FIELDS, map["roles" := roles]) }

  function Focus(key: string): Value {
    Filled(FOCUS_FIELDS, map["recommended_stage_key" := Str(key), "business_domain" := Str("it")])
  }

  function Stage(key: string): Value {
    Filled(STAGE_FIELDS, map["key" := Str(key), "sequence" := Num(1), "time_to_value" := Str("short"), "evidence_basis" := Str("measured")])
  }

  function Draft(stageKey: string, focusKey: string, roles: Value, facts: seq<Value>, clarifications: seq<Value>): Value {
    Obj(map name | name in ROOT_FIELDS ::
      if name == "schema_version" then Str(V1)
      else if name == "value_stream" then ValueStream()
      else if name == "focus" then Focus(focusKey)
      else if name == "process_analysis" then Process(roles)
      else if name == "stages" then Arr([Stage(stageKey)])
      else if name == "facts" then Arr(facts)
      else if name == "clarifications" then Arr(clarifications)
      else Arr([]))
  }

  lemma FilledAt(fields: set<string>, special: map<string, Value>, name: string)
    requires name in fields
    ensures Exact(Filled(fields, special), fields)
    ensures Get(Filled(fields, special), name)
      == if name in special then special[name] else if name == "evidence_refs" then Arr([]) else Str("low")
  {}

  lemma LowIsNotBlank()
    ensures NonBlank(Str("low")) && "low" in LEVELS
  {
    StripKeeps("low");
  }

  lemma FilledTexts(fields: set<string>, special: map<string, Value>, names: seq<string>)
    requires forall k :: 0 <= k < |names| ==> names[k] in fields && names[k] !in special && names[k] != "evidence_refs"
    ensures TextsMet(Filled(fields, special), names, false) && RatingsMet(Filled(fields, special), names, false)
  {
    LowIsNotBlank();
    forall k | 0 <= k < |names| ensures Get(Filled(fields, special), names[k]) == Str("low") { FilledAt(fields, special, names[k]); }
  }

  lemma ValueStreamFine()
    ensures Exact(ValueStream(), VALUE_STREAM_FIELDS) && TextsMet(ValueStream(), VALUE_STREAM_TEXTS, false) && CitesMet(ValueStream(), Lenient())
  {
    FilledTexts(VALUE_STREAM_FIELDS, map[], VALUE_STREAM_TEXTS);
    FilledAt(VALUE_STREAM_FIELDS, map[], "evidence_refs");
  }

  lemma ProcessFine(roles: Value)
    ensures Exact(Process(roles), PROCESS_FIELDS) && TextsMet(Process(roles), PROCESS_TEXTS, false) && CitesMet(Process(roles), Lenient())
    ensures BottlenecksMet(Get(Process(roles), "bottlenecks"), Lenient()) && Get(Process(roles), "roles") == roles
  {
    var special := map["roles" := roles];
    FilledTexts(PROCESS_FIELDS, special, PROCESS_TEXTS);
    FilledAt(PROCESS_FIELDS, special, "evidence_refs");
    FilledAt(PROCESS_FIELDS, special, "bottlenecks");
    FilledAt(PROCESS_FIELDS, special, "roles");
    LowIsNotBlank();
  }

  lemma FocusFine(key: string)
    ensures Exact(Focus(key), FOCUS_FIELDS) && TextsMet(Focus(key), FOCUS_TEXTS, false) && CitesMet(Focus(key), Lenient())
    ensures FocusMet(Focus(key), Lenient()) && Get(Focus(key), "recommended_stage_key") == Str(key)
  {
    var special := map["recommended_stage_key" := Str(key), "business_domain" := Str("it")];
    FilledTexts(FOCUS_FIELDS, special, FOCUS_TEXTS);
    FilledTexts(FOCUS_FIELDS, special, FOCUS_CRITERIA);
    FilledAt(FOCUS_FIELDS, special, "evidence_refs");
    FilledAt(FOCUS_FIELDS, special, "business_domain");
    FilledAt(FOCUS_FIELDS, special, "recommended_stage_key");
  }

  lemma StageFine(key: string)
    requires Strip(key) != ""
    ensures StageMet(Stage(key), 0, Lenient()) && StageKey(Stage(key), Lenient()) == Strip(key) && Get(Stage(key), "key") == Str(key)
  {
    var special := map["key" := Str(key), "sequence" := Num(1), "time_to_value" := Str("short"), "evidence_basis" := Str("measured")];
    FilledTexts(STAGE_FIELDS, special, STAGE_CRITERIA);
    FilledAt(STAGE_FIELDS, special, "evidence_refs");
    FilledAt(STAGE_FIELDS, special, "key");
    FilledAt(STAGE_FIELDS, special, "name");
    FilledAt(STAGE_FIELDS, special, "sequence");
    FilledAt(STAGE_FIELDS, special, "time_to_value");
    FilledAt(STAGE_FIELDS, special, "evidence_basis");
    LowIsNotBlank();
  }

  lemma DraftFields(stageKey: string, focusKey: string, roles: Value, facts: seq<Value>, clarifications: seq<Value>)
    ensures var d := Draft(stageKey, focusKey, roles, facts, clarifications);
      && Exact(d, ROOT_FIELDS) && Get(d, "schema_version") == Str(V1)
      && Get(d, "value_stream") == ValueStream() && Get(d, "focus") == Focus(focusKey) && Get(d, "process_analysis") == Process(roles)
      && Get(d, "stages") == Arr([Stage(stageKey)]) && Get(d, "facts") == Arr(facts) && Get(d, "clarifications") == Arr(clarifications)
      && Get(d, "hypotheses") == Get(d, "contradictions") == Get(d, "unknowns") == Arr([])
  {}

  /** The draft is accepted whatever blanks surround its stage key, whatever its roles are, whatever
      else its facts hold beside their sources, and whatever it asks. */
  lemma DraftAccepted(stageKey: string, focusKey: string, roles: Value, facts: seq<Value>, clarifications: seq<Value>)
    requires Strip(stageKey) == focusKey != "" && StatementsMet(Arr(facts), false, Lenient())
    ensures ContractMet(Draft(stageKey, focusKey, roles, facts, clarifications), Lenient())
  {
    var d, c := Draft(stageKey, focusKey, roles, facts, clarifications), Lenient();
    DraftFields(stageKey, focusKey, roles, facts, clarifications);
    ValueStreamFine();
    ProcessFine(roles);
    FocusFine(focusKey);
    StageFine(stageKey);
    forall part ensures PartMet(part, d, c) {
      if part == Phases { assert StageKey(Stages(d)[0], c) == focusKey; }
    }
  }

  lemma PaddedKey()
    ensures Strip(" a") == "a"
  {
    assert " a"[..1] == " " && " a"[1..] == "a";
    assert Space(' ') && !Space('a');
    assert TrimRight(" a", Space) == " a" && TrimLeft("a", Space) == "a";
  }

  /** An accepted draft whose focus repeats no stage key letter by letter. */
  lemma FocusRepeatsNoKey()
    ensures var d := Draft(" a", "a", Str(""), [], []);
      && ContractMet(d, Lenient())
      && forall k :: 0 <= k < |Stages(d)| ==> Get(Stages(d)[k], "key") != Get(Get(d, "focus"), "recommended_stage_key")
  {
    PaddedKey();
    DraftFields(" a", "a", Str(""), [], []);
    DraftAccepted(" a", "a", Str(""), [], []);
    StageFine(" a");
    FocusFine("a");
    assert " a" != "a";
  }

  function Asking(question: string, blocking: bool): Value {
    Obj(map["question" := Str(question), "blocking" := Bool(blocking)])
  }

  /** An accepted draft on which an approval ends as an empty question to the human, behind a
      clarification that does not block. */
  lemma EmptyQuestionAsked(v: Value)
    requires v.Obj? && Status(v) == APPROVED
    ensures var d := Draft("a", "a", Str(""), [], [Asking("b", false), Asking(" ", true)]);
      && ContractMet(d, Lenient())
      && Status(EnforceReadiness(d, v, Lenient().show)) == WAITING_HUMAN
      && Get(EnforceReadiness(d, v, Lenient().show), "human_question") == Str("")
  {
    var items, show := [Asking("b", false), Asking(" ", true)], Lenient().show;
    var d := Draft("a", "a", Str(""), [], items);
    assert !Space('a');
    StripKeeps("a");
    DraftFields("a", "a", Str(""), [], items);
    DraftAccepted("a", "a", Str(""), [], items);
    BlankBlocks(items, show);
    QuestionsExactly(items, show);
    BlankQuestionExactly(d, v, show);
  }

  lemma BlankBlocks(items: seq<Value>, show: Value -> string)
    requires items == [Asking("b", false), Asking(" ", true)]
    ensures FirstBlocking(items, 1) && BlankText(items[1], show) && V1 != V3
  {
    assert Space(' ');
    assert TrimRight(" ", Space) == TrimRight("", Space) == "" by { assert " "[..0] == ""; }
    assert V1[|V1| - 1] != V3[|V3| - 1];
  }

  const ROLES: seq<Segment> := [Key("process_analysis"), Key("roles")]

  lemma RolesAt(roles: Value, facts: seq<Value>)
    ensures At(Draft("a", "a", roles, facts, []), ROLES) == Some(roles)
    ensures At(Draft("a", "a", roles, facts, []), [Key("facts")]) == Some(Arr(facts))
  {
    var d := Draft("a", "a", roles, facts, []);
    DraftFields("a", "a", roles, facts, []);
    ProcessFine(roles);
    assert ROLES[1..] == [Key("roles")] && [Key("roles")][1..] == [] && [Key("facts")][1..] == [];
    assert At(d, ROLES) == At(Process(roles), [Key("roles")]);
    assert At(Process(roles), [Key("roles")]) == At(Get(Process(roles), "roles"), []);
  }

  lemma PlainDraftAccepted(roles: Value, facts: seq<Value>)
    requires StatementsMet(Arr(facts), false, Lenient())
    ensures ContractMet(Draft("a", "a", roles, facts, []), Lenient())
  {
    assert !Space('a');
    StripKeeps("a");
    DraftAccepted("a", "a", roles, facts, []);
  }

  lemma ListReadAt(base: Value, offer: Value, prefix: seq<Segment>, word: string, text: string, parse: string -> Option<int>)
    requires IntParser(parse) && Unskipped(prefix) && text != ""
    requires At(base, prefix) == Some(Arr([Str(word)])) && At(offer, prefix) == Some(Str(text))
    ensures var path := prefix + [Index(0)];
      IsAssertion(base, path) && At(offer, path).None? && NewText(base, offer, TokensOf(path), parse) == Some(Str([text[0]]))
  {
    AtConcat(base, prefix, [Index(0)]);
    assert [Index(0)][1..] == [];
    assert At(Arr([Str(word)]), [Index(0)]) == At(Str(word), []);
    TextReadAsList(base, offer, prefix, parse);
  }

  lemma DraftWithRoles(roles: Value) returns (d: Value)
    ensures ContractMet(d, Lenient()) && At(d, ROLES) == Some(roles)
  {
    d := Draft("a", "a", roles, [], []);
    PlainDraftAccepted(roles, []);
    RolesAt(roles, []);
  }

  lemma RolesPlain()
    ensures Unskipped(ROLES)
  {}

  /** An accepted draft and an accepted proposal for it, whose roles, a text in place of a list,
      the repair reads character by character. */
  lemma RolesReadFromText(parse: string -> Option<int>) returns (base: Value, offer: Value)
    requires IntParser(parse)
    ensures ContractMet(base, Lenient()) && ContractMet(offer, Lenient())
    ensures At(base, ROLES) == Some(Arr([Str("clerk")])) && At(offer, ROLES) == Some(Str("buyer"))
    ensures var path := ROLES + [Index(0)];
      IsAssertion(base, path) && At(offer, path).None? && NewText(base, offer, TokensOf(path), parse) == Some(Str("b"))
  {
    base := DraftWithRoles(Arr([Str("clerk")]));
    offer := DraftWithRoles(Str("buyer"));
    RolesPlain();
    assert ["buyer"[0]] == "b";
    ListReadAt(base, offer, ROLES, "clerk", "buyer", parse);
  }

  const FACT: seq<Segment> := [Key("facts")] + [Index(0)]

  function Fact(inner: map<string, Value>, text: string): Value {
    Obj(map["evidence_refs" := Arr([]), "a" := Obj(inner), "a.b" := Str(text)])
  }

  lemma FactAt(roles: Value, fact: Value)
    ensures At(Draft("a", "a", roles, [fact], []), FACT) == Some(fact)
  {
    RolesAt(roles, [fact]);
    AtConcat(Draft("a", "a", roles, [fact], []), [Key("facts")], [Index(0)]);
    assert [Index(0)][1..] == [];
  }

  lemma FactKeys(inner: map<string, Value>, text: string)
    ensures At(Fact(inner, text), [Key("a")]) == Some(Obj(inner)) && At(Fact(inner, text), [Key("a.b")]) == Some(Str(text))
    ensures At(Fact(inner, text), [Key("a"), Key("b")]) == At(Obj(inner), [Key("b")])
    ensures StatementsMet(Arr([Fact(inner, text)]), false, Lenient())
  {
    assert [Key("a")][1..] == [] && [Key("a.b")][1..] == [] && [Key("a"), Key("b")][1..] == [Key("b")];
    assert Get(Fact(inner, text), "evidence_refs") == Arr([]);
  }

  // A draft whose one fact has the dotted key, and a proposal with a text in the other place.
  lemma FactGoesAstray(base: Value, offer: Value, was: Value, next: Value, prefix: seq<Segment>, text: string, parse: string -> Option<int>)
    returns (r: Value)
    requires IntParser(parse) && CleanPath(prefix) && Unskipped(prefix)
    requires At(base, prefix) == Some(was) && At(offer, prefix) == Some(next) && was.Obj? && next.Obj?
    requires "a" in was.fields && was.fields["a"] == Obj(map[]) && "a.b" in was.fields && was.fields["a.b"].Str?
    requires next.fields == was.fields["a" := Obj(map["b" := Str(text)])]
    ensures var named, other := prefix + [Key("a.b")], prefix + [Key("a"), Key("b")];
      && IsAssertion(base, named) && PatchOne(base, offer, Print(named), parse) == Some(r)
      && At(r, named) == At(base, named) && At(base, other).None? && At(r, other) == Some(Str(text))
  {
    var one, two := [Key("a.b")], [Key("a"), Key("b")];
    assert [Key("a")][1..] == [] && one[1..] == [] && two[1..] == [Key("b")] && [Key("b")][1..] == [];
    AtConcat(base, prefix, [Key("a")]);
    AtConcat(base, prefix, one);
    AtConcat(base, prefix, two);
    AtConcat(offer, prefix, two);
    assert At(next, two) == At(Obj(map["b" := Str(text)]), [Key("b")]) == At(Str(text), []);
    assert At(was, two) == At(Obj(map[]), [Key("b")]);
    assert "a" + "." + "b" == "a.b";
    DottedKeyGoesAstray(base, offer, prefix, "a", "b", parse);
    assert map[]["b" := Str(text)] == map["b" := Str(text)];
    r := SetText(base, prefix, next);
    SetTextThere(base, prefix, next, one);
    SetTextThere(base, prefix, next, two);
    assert At(next, one) == At(next.fields["a.b"], []) == At(was, one);
  }

  lemma DraftWithFact(fact: Value) returns (d: Value)
    requires StatementsMet(Arr([fact]), false, Lenient())
    ensures ContractMet(d, Lenient()) && At(d, FACT) == Some(fact)
  {
    d := Draft("a", "a", Str(""), [fact], []);
    PlainDraftAccepted(Str(""), [fact]);
    FactAt(Str(""), fact);
  }

  /** An accepted draft with a dotted key inside a fact, an accepted proposal, and a repair that
      leaves the named field alone and writes one the draft does not have. */
  lemma DottedFactGoesAstray(parse: string -> Option<int>) returns (base: Value, offer: Value, r: Value)
    requires IntParser(parse)
    ensures ContractMet(base, Lenient()) && ContractMet(offer, Lenient())
    ensures var named, other := FACT + [Key("a.b")], FACT + [Key("a"), Key("b")];
      && IsAssertion(base, named) && PatchOne(base, offer, Print(named), parse) == Some(r)
      && At(r, named) == At(base, named) && At(base, other).None? && At(r, other) == Some(Str("new"))
  {
    var was, next := Fact(map[], "old"), Fact(map["b" := Str("new")], "old");
    FactKeys(map[], "old");
    FactKeys(map["b" := Str("new")], "old");
    base := DraftWithFact(was);
    offer := DraftWithFact(next);
    assert next.fields == was.fields["a" := Obj(map["b" := Str("new")])];
    FactPathPlain();
    r := FactGoesAstray(base, offer, was, next, FACT, "new", parse);
  }

  lemma FactPathPlain()
    ensures CleanPath(FACT) && Unskipped(FACT)
  {}
}
