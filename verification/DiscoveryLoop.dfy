/** The bounded generate, check, review and repair loop of autonomous business discovery. */
module DiscoveryLoop {
  import opened Wrappers
  import opened Json
  import opened FieldPaths
  import opened FieldRepair
  import opened DiscoveryContract
  import opened DiscoveryVerdict

  const MAX_DISCOVERY_REPAIRS := 3

  // ---------- provider calls ----------

  // What one attempt meets: a used-up quota before anything is sent, a transport failure, or an
  // answer that was cut off, is no JSON, or holds a value.
  datatype Attempt = QuotaExceeded(code: string) | Unavailable(code: string) | Truncated | Garbage | Body(payload: Value)

  function Settled(a: Attempt): Result<Attempt, string> {
    match a
    case QuotaExceeded(code) => Err(code)
    case Unavailable(code) => Err(code)
    case _ => Ok(a)
  }

  /** One structured call is one attempt, and a second one exactly after a first timeout; what
      the last attempt met is the result. */
  method ProviderCall(wire: nat -> Attempt, at: nat) returns (reply: Result<Attempt, string>, next: nat)
    ensures next == if wire(at) == Unavailable("timeout") then at + 2 else at + 1
    ensures reply == Settled(wire(next - 1))
  {
    next := at;
    for attempt := 0 to 2
      invariant next == at + attempt
      invariant attempt == 1 ==> wire(at) == Unavailable("timeout")
      invariant attempt < 2
    {
      next := next + 1;
      match wire(at + attempt)
      case QuotaExceeded(code) => return Err(code), next;
      case Unavailable(code) =>
        if code == "timeout" && attempt == 0 { continue; }
        return Err(code), next;
      case _ => return Ok(wire(at + attempt)), next;
    }
    assert false;
  }

  function Decode(a: Attempt, code: string): (r: Result<Value, string>)
    ensures r.Ok? ==> r.value.Obj?
  {
    match a
    case Truncated => Err("output_truncated")
    case Body(v) => if v.Obj? then Ok(v) else Err(code)
    case _ => Err(code)
  }

  // ---------- one round ----------

  datatype Setting = Setting(contract: Contract, scope: Value, verdictVersion: string, wire: nat -> Attempt, parse: string -> Option<int>, word: char -> bool)

  // A round as the review history keeps it, with the repair it led to.
  datatype Round = Round(draft: Value, errors: seq<string>, review: Option<Value>, verifier: Value, targets: seq<string>, proposal: Option<Value>)

  function ScopeBasis(scope: Value, show: Value -> string): Value {
    Obj(map name | name in SCOPE_FIELDS :: Str(Shown(Get(scope, name), show)))
  }

  function GetText(v: Value, name: string): Value {
    if v.Obj? && name in v.fields then v.fields[name] else Str("")
  }

  // For a strategic draft the human's scope is copied and its limits are kept.
  predicate ScopeKept(d: Value, st: Setting) {
    st.contract.Strategic() ==>
      && Get(d, "scope_basis") == ScopeBasis(st.scope, st.contract.show)
      && Get(Get(d, "process_analysis"), "scope_start") == GetText(st.scope, "scope_start")
      && Get(Get(d, "process_analysis"), "scope_end") == GetText(st.scope, "scope_end")
  }

  ghost predicate DraftAccepted(d: Value, st: Setting) { ContractMet(d, st.contract) && ScopeKept(d, st) }

  predicate WorthReview(d: Value, errors: seq<string>, c: Contract) {
    errors == [] || c.methodical(d) != [] || c.modality(d) != []
  }

  // The value came as the body of some answer.
  ghost predicate Heard(v: Value, st: Setting) { exists n: nat :: st.wire(n) == Body(v) }

  function FindingsOf(v: Value): seq<Value> { Listed(Get(v, "critical_findings")) }

  // The verifier's findings, then the server's on language, then those on the contract.
  function AllFindings(d: Value, errors: seq<string>, review: Option<Value>, st: Setting): seq<Value> {
    (if review.None? then [] else FindingsOf(review.value) + Messages("methodical_contract", st.contract.methodical(d)))
    + Messages("discovery_contract", errors)
  }

  // What a round may claim: its errors are exactly what the contract holds against the draft, a
  // review was heard and acceptable where one was due, no finding is lost, and a verdict other
  // than repair is the verifier's own on a draft the server accepts.
  datatype Claim = Checked | Due | Acceptable | Complete | Conclusive

  ghost predicate Holds(claim: Claim, r: Round, st: Setting) {
    match claim
    case Checked => r.errors == [] <==> DraftAccepted(r.draft, st)
    case Due => r.review.Some? <==> WorthReview(r.draft, r.errors, st.contract)
    case Acceptable => r.review.Some? ==> Heard(r.review.value, st) && VerdictAcceptable(r.review.value, st.verdictVersion, st.contract.show)
    case Complete => FindingsOf(r.verifier) == AllFindings(r.draft, r.errors, r.review, st)
    case Conclusive => Status(r.verifier) != REPAIR ==> r.errors == [] && r.review == Some(r.verifier)
  }

  ghost predicate RoundSound(r: Round, st: Setting) {
    r.draft.Obj? && r.verifier.Obj? && forall claim :: Holds(claim, r, st)
  }

  // The repair a round leads to is no part of its claims.
  lemma ClaimsStay(r: Round, targets: seq<string>, proposal: Option<Value>, st: Setting)
    requires RoundSound(r, st)
    ensures RoundSound(r.(targets := targets, proposal := proposal), st)
  {
    forall claim ensures Holds(claim, r.(targets := targets, proposal := proposal), st) { assert Holds(claim, r, st); }
  }

  ghost function Named(d: Value, verifier: Value, st: Setting): set<string> {
    Chosen(Walk(d, ""), Findings(FindingsOf(verifier), st.contract.show), st.word)
  }

  // The next draft is the new proposal, or the old draft with only the named fields replaced.
  ghost predicate Follows(r: Round, next: Value, st: Setting) {
    && Status(r.verifier) == REPAIR && r.proposal.Some? && Heard(r.proposal.value, st)
    && Fields(r.targets) == Named(r.draft, r.verifier, st)
    && Repaired(r.draft, r.proposal.value, r.targets, next, st)
  }

  ghost predicate Repaired(d: Value, proposal: Value, targets: seq<string>, next: Value, st: Setting) {
    if targets == [] then next == proposal
    else
      && PatchAll(d, proposal, targets, st.parse) == Some(next)
      && (CleanTargets(d, targets) ==> IsRepair(d, proposal, Fields(targets), next, st.parse))
  }

  function Reviews(history: seq<Round>): nat {
    if history == [] then 0 else Reviews(history[..|history| - 1]) + if history[|history| - 1].review.Some? then 1 else 0
  }

  // A history in which every entry is fine and each later subject comes from the entry before.
  ghost predicate Linked<T(!new), D(!new)>(xs: seq<T>, ok: T -> bool, subject: T -> D, first: D -> bool, link: (T, D) -> bool) {
    && (forall k :: 0 <= k < |xs| ==> ok(xs[k]))
    && (xs != [] ==> first(subject(xs[0])))
    && (forall k :: 0 <= k < |xs| - 1 ==> link(xs[k], subject(xs[k + 1])))
  }

  // Where the subject of the next entry comes from.
  ghost predicate Leads<T(!new), D(!new)>(xs: seq<T>, next: D, first: D -> bool, link: (T, D) -> bool) {
    if xs == [] then first(next) else link(xs[|xs| - 1], next)
  }

  lemma LinkedGrows<T(!new), D(!new)>(xs: seq<T>, x: T, ok: T -> bool, subject: T -> D, first: D -> bool, link: (T, D) -> bool)
    requires Linked(xs, ok, subject, first, link) && ok(x) && Leads(xs, subject(x), first, link)
    ensures Linked(xs + [x], ok, subject, first, link)
    ensures forall next :: link(x, next) ==> Leads(xs + [x], next, first, link)
  {
    var longer := xs + [x];
    forall k | 0 <= k < |longer| - 1 ensures link(longer[k], subject(longer[k + 1])) { assert longer[k] == xs[k]; }
  }

  ghost function SoundIn(st: Setting): Round -> bool { (r: Round) => RoundSound(r, st) }
  ghost function FollowsIn(st: Setting): (Round, Value) -> bool { (r: Round, next: Value) => Follows(r, next, st) }
  ghost function HeardIn(st: Setting): Value -> bool { (v: Value) => Heard(v, st) }
  ghost function Draft(): Round -> Value { (r: Round) => r.draft }

  // Every round is sound; the first draft came from the provider, each other from the round before.
  ghost predicate RoundsLinked(history: seq<Round>, st: Setting) {
    Linked(history, SoundIn(st), Draft(), HeardIn(st), FollowsIn(st))
  }

  ghost predicate LeadsTo(history: seq<Round>, next: Value, st: Setting) {
    Leads(history, next, HeardIn(st), FollowsIn(st))
  }

  lemma ReviewsGrow(history: seq<Round>, r: Round)
    ensures Reviews(history + [r]) == Reviews(history) + if r.review.Some? then 1 else 0
  {
    assert (history + [r])[..|history|] == history;
  }

  // ---------- the steps of a round ----------

  method ContractErrors(d: Value, st: Setting) returns (errors: seq<string>)
    ensures errors == [] <==> DraftAccepted(d, st)
  {
    errors := ValidateDiscoveryPayload(d, st.contract);
    errors := Complain(errors, ScopeKept(d, st), "scope_basis");
  }

  method RequestVerdict(st: Setting, at: nat) returns (verdict: Result<Value, string>, next: nat)
    ensures at < next <= at + 2
    ensures verdict.Ok? ==> Heard(verdict.value, st) && VerdictAcceptable(verdict.value, st.verdictVersion, st.contract.show)
  {
    var reply;
    reply, next := ProviderCall(st.wire, at);
    if reply.Err? { return Err(reply.error), next; }
    var decoded := Decode(reply.value, "invalid_verifier_response");
    if decoded.Err? { return decoded, next; }
    var errors := ValidateVerifierPayload(decoded.value, st.verdictVersion, st.contract.show);
    if errors != [] { return Err("invalid_discovery_contract"), next; }
    return decoded, next;
  }

  function Unreviewed(version: string): (v: Value)
    ensures v.Obj? && Get(v, "repair_instructions") == Str("") && Status(v) == REPAIR
  {
    Obj(map["schema_version" := Str(version), "status" := REPAIR, "checks" := Obj(map[]), "critical_findings" := Arr([]),
            "repair_instructions" := Str(""), "human_question" := Str("")])
  }

  // The server's findings on top of the verifier's, or the analysis breaks off.
  function Verdict(d: Value, errors: seq<string>, review: Option<Value>, st: Setting): (r: Option<Value>)
    requires review.Some? ==> review.value.Obj?
    ensures r.Some? ==> r.value.Obj?
    ensures r.Some? && errors == [] && st.contract.methodical(d) == [] && review.Some? ==> r == review
    ensures r.Some? ==> FindingsOf(r.value) == AllFindings(d, errors, review, st)
    ensures r.Some? && (errors != [] || review == None) ==> Status(r.value) == REPAIR
  {
    var base := if review.Some? then EnforceMethodology(review.value, st.contract.methodical(d)) else Some(Unreviewed(st.verdictVersion));
    match base
    case None => None
    case Some(v) => if errors == [] then Some(v) else Overruled(v, "discovery_contract", errors)
  }

  function Findings(items: seq<Value>, show: Value -> string): seq<Option<string>> {
    if items == [] then []
    else [if items[0].Obj? then Some(Shown(Get(items[0], "message"), show)) else None] + Findings(items[1..], show)
  }

  method InOrder(targets: set<string>) returns (listed: seq<string>)
    ensures Fields(listed) == targets
    ensures listed == [] <==> targets == {}
  {
    listed := [];
    var rest := targets;
    while rest != {}
      invariant Fields(listed) + rest == targets
      decreases rest
    {
      var t :| t in rest;
      assert Fields(listed + [t]) == Fields(listed) + {t};
      listed := listed + [t];
      rest := rest - {t};
    }
    if listed == [] { assert Fields(listed) == {}; } else { assert listed[0] in Fields(listed); }
  }

  method Targets(d: Value, verifier: Value, st: Setting) returns (targets: seq<string>)
    ensures Fields(targets) == Named(d, verifier, st)
  {
    var chosen := RepairFieldTargets(Walk(d, ""), Findings(FindingsOf(verifier), st.contract.show), st.word);
    targets := InOrder(chosen);
  }

  method RequestRepair(d: Value, targets: seq<string>, st: Setting, at: nat)
    returns (repair: Result<(Value, Value), string>, next: nat)
    requires IntParser(st.parse) && d.Obj? && Fields(targets) <= Walk(d, "")
    ensures at < next <= at + 2
    ensures repair.Ok? ==> repair.value.1.Obj? && Heard(repair.value.0, st)
    ensures repair.Ok? ==> Repaired(d, repair.value.0, targets, repair.value.1, st)
  {
    var reply;
    reply, next := ProviderCall(st.wire, at);
    if reply.Err? { return Err(reply.error), next; }
    var proposal := Decode(reply.value, "invalid_repair_response");
    if proposal.Err? { return Err(proposal.error), next; }
    if targets == [] { return Ok((proposal.value, proposal.value)), next; }
    var revised := ApplyDiscoveryFieldRepair(d, proposal.value, targets, st.parse);
    if revised.Err? { return Err("invalid_discovery_contract"), next; }
    PatchAllKeepsObjects(d, proposal.value, targets, st.parse);
    assert forall t :: t in targets ==> t in Fields(targets);
    if CleanTargets(d, targets) { PatchAllIsRepair(d, proposal.value, targets, st.parse); }
    return Ok((proposal.value, revised.value)), next;
  }

  // ---------- the loop ----------

  datatype Ending = Stored(success: bool, draft: Value, verifier: Value) | Failed(code: string) | NotConverged | BrokenOff

  // What a stored result rests on.
  ghost predicate WellFounded(draft: Value, verifier: Value, st: Setting) {
    DraftAccepted(draft, st) && VerdictAcceptable(verifier, st.verdictVersion, st.contract.show) && Status(verifier) != REPAIR
  }

  // A result is stored as a success exactly when its verifier approved, with all seven checks
  // true and no finding, and nothing is left for a human to decide.
  ghost predicate StoredSound(e: Ending, history: seq<Round>, st: Setting) {
    && e.Stored? && history != []
    && var last := history[|history| - 1];
    && e.draft == last.draft && last.verifier.Obj? && WellFounded(last.draft, last.verifier, st)
    && e.verifier == EnforceReadiness(last.draft, last.verifier, st.contract.show)
    && (e.success <==> Status(last.verifier) == APPROVED && OpenQuestions(last.draft, st.contract.show) == [])
  }

  // Check the draft, and have it reviewed where that is worth a call.
  method ReviewRound(payload: Value, st: Setting, at: nat)
    returns (r: Result<Round, Ending>, asked: nat, next: nat)
    requires payload.Obj?
    ensures asked <= 1 && next <= at + 2 * asked
    ensures r.Ok? ==> RoundSound(r.value, st) && r.value.draft == payload && (r.value.review.Some? <==> asked == 1)
    ensures r.Err? ==> r.error.Failed? || r.error.BrokenOff?
  {
    asked, next := 0, at;
    var review := None;
    var errors := ContractErrors(payload, st);
    if WorthReview(payload, errors, st.contract) {
      var tooLong := *;
      if tooLong { return Err(Failed("verifier_input_too_large")), asked, next; }
      asked := 1;
      var reply;
      reply, next := RequestVerdict(st, at);
      if reply.Err? { return Err(Failed(reply.error)), asked, next; }
      review := Some(reply.value);
    }
    if errors == [] { assert PartMet(Methodical, payload, st.contract); }
    if review.Some? { assert Meets(ExactFields, review.value, st.verdictVersion, st.contract.show); }
    var verdict := Verdict(payload, errors, review, st);
    if verdict.None? { return Err(BrokenOff), asked, next; }
    return Ok(Round(payload, errors, review, verdict.value, [], None)), asked, next;
  }

  method RepairRound(round: Round, st: Setting, at: nat)
    returns (r: Result<(Round, Value), Ending>, asked: nat, next: nat)
    requires IntParser(st.parse) && RoundSound(round, st) && Status(round.verifier) == REPAIR
    ensures asked <= 1 && next <= at + 2 * asked
    ensures r.Ok? ==> asked == 1 && r.value.1.Obj? && RoundSound(r.value.0, st) && Follows(r.value.0, r.value.1, st)
    ensures r.Ok? ==> r.value.0 == round.(targets := r.value.0.targets, proposal := r.value.0.proposal)
    ensures r.Err? ==> r.error.Failed?
  {
    asked, next := 0, at;
    var targets := Targets(round.draft, round.verifier, st);
    var tooLong := *;
    if tooLong { return Err(Failed("repair_input_too_large")), asked, next; }
    asked := 1;
    var reply;
    reply, next := RequestRepair(round.draft, targets, st, at);
    if reply.Err? { return Err(Failed(reply.error)), asked, next; }
    ClaimsStay(round, targets, Some(reply.value.0), st);
    return Ok((round.(targets := targets, proposal := Some(reply.value.0)), reply.value.1)), asked, next;
  }

  function StoredEnding(round: Round, st: Setting): Ending
    requires round.verifier.Obj?
  {
    var ready := EnforceReadiness(round.draft, round.verifier, st.contract.show);
    Stored(Status(ready) == APPROVED, round.draft, ready)
  }

  lemma StoredIsSound(history: seq<Round>, round: Round, st: Setting)
    requires RoundSound(round, st) && Status(round.verifier) != REPAIR
    ensures StoredSound(StoredEnding(round, st), history + [round], st) && StoredEnding(round, st).Stored?
  {
    var e, longer := StoredEnding(round, st), history + [round];
    ReadinessVerdict(round.draft, round.verifier, st.contract.show);
    assert longer[|longer| - 1] == round;
    assert Holds(Checked, round, st) && Holds(Acceptable, round, st) && Holds(Conclusive, round, st);
    assert WellFounded(round.draft, round.verifier, st);
  }

  // One producer call, a review per round that was worth one, a repair per finished round.
  ghost predicate Budgeted(history: seq<Round>, calls: int, attempts: int) {
    calls == 1 + Reviews(history) + |history| && Reviews(history) <= |history| && attempts <= 2 * calls
  }

  ghost predicate CourseSound(ending: Ending, history: seq<Round>, st: Setting) {
    && |history| <= MAX_DISCOVERY_REPAIRS + 1 && RoundsLinked(history, st)
    && (ending.Stored? ==> StoredSound(ending, history, st))
    && (ending.NotConverged? ==> |history| == MAX_DISCOVERY_REPAIRS + 1 && Status(history[MAX_DISCOVERY_REPAIRS].verifier) == REPAIR)
  }

  /** Over every course of the provider: what is stored rests on a draft the server accepts and
      the verifier's own verdict on it; each later draft is a proposal or the draft before with
      only named fields replaced; there are at most four rounds, eight calls (one producer, four
      reviews, three repairs) and sixteen attempts. */
  method ExecuteDiscovery(st: Setting)
    returns (ending: Ending, history: seq<Round>, calls: nat, attempts: nat)
    requires IntParser(st.parse)
    ensures CourseSound(ending, history, st)
    ensures calls <= 8 && attempts <= 16
  {
    var produced;
    produced, attempts := ProviderCall(st.wire, 0);
    if produced.Err? { return Failed(produced.error), [], 1, attempts; }
    var first := Decode(produced.value, "invalid_discovery_response");
    if first.Err? { return Failed(first.error), [], 1, attempts; }
    ending, history, calls, attempts := RepairLoop(first.value, st, attempts);
  }

  method RepairLoop(first: Value, st: Setting, at: nat)
    returns (ending: Ending, history: seq<Round>, calls: nat, attempts: nat)
    requires IntParser(st.parse) && first.Obj? && Heard(first, st) && at <= 2
    ensures CourseSound(ending, history, st)
    ensures calls <= 8 && attempts <= 16
  {
    var payload := first;
    history, calls, attempts := [], 1, at;
    while true
      invariant payload.Obj? && |history| <= MAX_DISCOVERY_REPAIRS
      invariant RoundsLinked(history, st) && LeadsTo(history, payload, st)
      invariant Budgeted(history, calls, attempts)
      decreases MAX_DISCOVERY_REPAIRS - |history|
    {
      var review, asked;
      review, asked, attempts := ReviewRound(payload, st, attempts);
      calls := calls + asked;
      if review.Err? { return review.error, history, calls, attempts; }
      var round := review.value;
      if Status(round.verifier) != REPAIR || |history| >= MAX_DISCOVERY_REPAIRS {
        ending, history := Conclude(history, round, st);
        return;
      }
      var failure;
      failure, history, payload, calls, attempts := Continue(history, round, st, calls, attempts);
      if failure.Some? { return failure.value, history, calls, attempts; }
    }
  }

  // The last round: its draft is stored, or the repairs have not converged.
  method Conclude(history: seq<Round>, round: Round, st: Setting) returns (ending: Ending, history': seq<Round>)
    requires RoundSound(round, st) && RoundsLinked(history, st) && LeadsTo(history, round.draft, st)
    requires |history| <= MAX_DISCOVERY_REPAIRS && (Status(round.verifier) == REPAIR ==> |history| == MAX_DISCOVERY_REPAIRS)
    ensures CourseSound(ending, history', st) && (ending.NotConverged? <==> Status(round.verifier) == REPAIR)
  {
    LinkedGrows(history, round, SoundIn(st), Draft(), HeardIn(st), FollowsIn(st));
    history' := history + [round];
    if Status(round.verifier) == REPAIR { return NotConverged, history'; }
    StoredIsSound(history, round, st);
    return StoredEnding(round, st), history';
  }

  method Continue(history: seq<Round>, round: Round, st: Setting, calls: nat, attempts: nat)
    returns (failure: Option<Ending>, history': seq<Round>, payload: Value, calls': nat, attempts': nat)
    requires IntParser(st.parse) && RoundSound(round, st) && Status(round.verifier) == REPAIR
    requires RoundsLinked(history, st) && LeadsTo(history, round.draft, st)
    requires Budgeted(history, if round.review.Some? then calls - 1 else calls, attempts - if round.review.Some? then 2 else 0)
    ensures |history'| == |history| + 1 && RoundsLinked(history', st)
    ensures failure.Some? ==> failure.value.Failed? && calls' <= calls + 1 && attempts' <= attempts + 2
    ensures failure.None? ==> payload.Obj? && LeadsTo(history', payload, st) && Budgeted(history', calls', attempts')
  {
    var repair, asked;
    repair, asked, attempts' := RepairRound(round, st, attempts);
    calls', payload := calls + asked, Null;
    var r := if repair.Ok? then repair.value.0 else round;
    LinkedGrows(history, r, SoundIn(st), Draft(), HeardIn(st), FollowsIn(st));
    history' := history + [r];
    if repair.Err? { return Some(repair.error), history', payload, calls', attempts'; }
    ReviewsGrow(history, r);
    return None, history', repair.value.1, calls', attempts';
  }

  /** Hence a success has passed the contract, every server-side check and all seven checks of
      the verifier, without a finding and without an open decision. */
  lemma SuccessMeans(e: Ending, history: seq<Round>, st: Setting)
    requires StoredSound(e, history, st) && e.success
    ensures ContractMet(e.draft, st.contract) && ScopeKept(e.draft, st)
    ensures st.contract.methodical(e.draft) == [] && st.contract.modality(e.draft) == []
    ensures Status(e.verifier) == APPROVED && AllTrue(Get(e.verifier, "checks")) && Get(e.verifier, "critical_findings") == Arr([])
    ensures forall item :: item in Listed(Get(e.draft, "clarifications")) ==> !Blocking(item)
  {
    var last := history[|history| - 1];
    assert Meets(Backing, last.verifier, st.verdictVersion, st.contract.show);
    assert PartMet(Methodical, e.draft, st.contract) && PartMet(Modality, e.draft, st.contract) && PartMet(Lists, e.draft, st.contract);
    ApprovalSurvivesExactly(e.draft, last.verifier, st.contract.show);
  }
}
