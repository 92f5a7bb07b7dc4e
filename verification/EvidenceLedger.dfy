/** The campaign ledger as a state machine on values: every operation is one
    database transaction, an error means the transaction rolled back.  Provider
    attempts may be reserved, settled, marked uncertain or simply abandoned, in any
    order, and the limits may be re-authorised at any time. */
module EvidenceLedger {
  import opened Wrappers
  import opened EvidencePricing

  datatype Error =
    | InvalidEvidenceBudget | EvidenceBudgetExhausted | InvalidProviderUsage
    | ProviderUsageExceedsReservation | ProviderCostUnknown | NoSuchReservation

  datatype Limits = Limits(calls: int, input: int, output: int, cost: Option<int>)

  datatype Usage = Usage(
    calls: int, input: int, output: int, heldInput: int, heldOutput: int,
    cost: int, heldCost: int, uncertain: int)

  datatype Status = Open | Settled(input: int, output: int, cost: Option<nat>) | Uncertain

  // One provider attempt.  Rows are kept in creation order; the row index is the reservation id.
  datatype Reservation = Reservation(callId: int, input: int, output: int, cost: Option<int>, status: Status)

  datatype Ledger = Ledger(
    process: int, revision: nat, limits: Limits, usage: Usage, prices: PriceBasis, rows: seq<Reservation>)

  // The run an attempt is reserved for: its campaign link and its case.
  datatype RunRef = RunRef(budgeted: bool, process: int)

  datatype Outcome = Unbudgeted | Reservation_(id: nat) | Done | Failed(error: Error)

  const NO_USAGE := Usage(0, 0, 0, 0, 0, 0, 0, 0)

  // ---------- limits and prices as supplied ----------

  datatype RawValue = Whole(n: int) | OtherValue

  const LIMIT_NAMES: set<string> := {"max_provider_calls", "max_input_tokens", "max_output_tokens", "max_cost_microunits"}

  predicate PositiveEntry(raw: map<string, RawValue>, name: string) {
    name in raw && raw[name].Whole? && raw[name].n > 0
  }

  function NormalizeLimits(raw: map<string, RawValue>): Result<Limits, Error> {
    if !(raw.Keys <= LIMIT_NAMES) then Err(InvalidEvidenceBudget)
    else if !PositiveEntry(raw, "max_provider_calls") || !PositiveEntry(raw, "max_input_tokens")
            || !PositiveEntry(raw, "max_output_tokens") then Err(InvalidEvidenceBudget)
    else if "max_cost_microunits" in raw && !PositiveEntry(raw, "max_cost_microunits") then Err(InvalidEvidenceBudget)
    else Ok(Limits(
      raw["max_provider_calls"].n, raw["max_input_tokens"].n, raw["max_output_tokens"].n,
      if "max_cost_microunits" in raw then Some(raw["max_cost_microunits"].n) else None))
  }

  // A cost cap needs a named, versioned and complete price basis.
  predicate PricesAcceptable(prices: PriceBasis, basisNamed: bool, capped: bool) {
    capped ==> basisNamed && Complete(prices)
  }

  // ---------- the four operations ----------

  function CostFor(l: Ledger, input: int, output: int): Result<Option<int>, Error> {
    if l.limits.cost.None? then Ok(None)
    else if l.prices.input.None? || l.prices.output.None? then Err(InvalidEvidenceBudget)
    else Ok(Some(MaxCost(l.prices, input, output)))
  }

  predicate WouldExceed(l: Ledger, input: int, output: int, cost: Option<int>) {
    || l.usage.calls + 1 > l.limits.calls
    || l.usage.input + l.usage.heldInput + input > l.limits.input
    || l.usage.output + l.usage.heldOutput + output > l.limits.output
    || (l.limits.cost.Some? && (cost.None? || l.usage.cost + l.usage.heldCost + cost.value > l.limits.cost.value))
  }

  function RowOf(rows: seq<Reservation>, callId: int): (id: Option<nat>)
    ensures id.Some? ==> id.value < |rows| && rows[id.value].callId == callId
    ensures id.None? ==> forall k :: 0 <= k < |rows| ==> rows[k].callId != callId
  {
    if rows == [] then None
    else if rows[|rows| - 1].callId == callId then Some(|rows| - 1)
    else RowOf(rows[..|rows| - 1], callId)
  }

  function Reserve(l: Ledger, run: RunRef, callId: int, input: int, output: int): (Ledger, Outcome) {
    if !run.budgeted then (l, Unbudgeted)
    else if input <= 0 || output <= 0 then (l, Failed(EvidenceBudgetExhausted))
    else if run.process != l.process then (l, Failed(InvalidEvidenceBudget))
    else if RowOf(l.rows, callId).Some? then (l, Reservation_(RowOf(l.rows, callId).value))
    else
      match CostFor(l, input, output)
      case Err(e) => (l, Failed(e))
      case Ok(cost) =>
        if WouldExceed(l, input, output, cost) then (l, Failed(EvidenceBudgetExhausted))
        else (l.(usage := Hold(l.usage, input, output, cost),
                 rows := l.rows + [Reservation(callId, input, output, cost, Open)]),
              Reservation_(|l.rows|))
  }

  function Hold(u: Usage, input: int, output: int, cost: Option<int>): Usage {
    u.(calls := u.calls + 1, heldInput := u.heldInput + input, heldOutput := u.heldOutput + output,
       heldCost := u.heldCost + cost.GetOr(0))
  }

  function ClampedDifference(a: int, b: int): int {
    if a - b > 0 then a - b else 0
  }

  function Release(u: Usage, r: Reservation): Usage {
    u.(heldInput := ClampedDifference(u.heldInput, r.input),
       heldOutput := ClampedDifference(u.heldOutput, r.output),
       heldCost := if r.cost.Some? then ClampedDifference(u.heldCost, r.cost.value) else u.heldCost)
  }

  function Settle(l: Ledger, id: nat, input: int, output: int, cost: Option<nat>): (Ledger, Outcome) {
    if id >= |l.rows| then (l, Failed(NoSuchReservation))
    else if !l.rows[id].status.Open? then (l, Done)
    else if input < 0 || output < 0 then (l, Failed(InvalidProviderUsage))
    else if l.usage.input + input > l.limits.input || l.usage.output + output > l.limits.output
      then (l, Failed(ProviderUsageExceedsReservation))
    else if l.limits.cost.Some? && cost.None? then (l, Failed(ProviderCostUnknown))
    else if l.limits.cost.Some? && l.usage.cost + cost.value > l.limits.cost.value
      then (l, Failed(ProviderUsageExceedsReservation))
    else
      var u := Release(l.usage, l.rows[id]);
      (l.(usage := u.(input := u.input + input, output := u.output + output, cost := u.cost + cost.GetOr(0)),
          rows := l.rows[id := l.rows[id].(status := Settled(input, output, cost))]),
       Done)
  }

  function MarkUncertain(l: Ledger, id: nat): (Ledger, Outcome) {
    if id >= |l.rows| then (l, Failed(NoSuchReservation))
    else if !l.rows[id].status.Open? then (l, Done)
    else (l.(usage := l.usage.(uncertain := l.usage.uncertain + 1),
             rows := l.rows[id := l.rows[id].(status := Uncertain)]), Done)
  }

  function Authorize(l: Ledger, raw: map<string, RawValue>, prices: Option<PriceBasis>,
                     basisNamed: bool, reasoned: bool): (Ledger, Outcome)
  {
    var chosen := prices.GetOr(l.prices);
    if !reasoned then (l, Failed(InvalidEvidenceBudget))
    else
      match NormalizeLimits(raw)
      case Err(e) => (l, Failed(e))
      case Ok(limits) =>
        if !Covers(limits, l.usage) || !PricesAcceptable(chosen, basisNamed, limits.cost.Some?)
        then (l, Failed(InvalidEvidenceBudget))
        else (l.(revision := l.revision + 1, limits := limits, prices := chosen), Done)
  }

  // Spent or held budget cannot be reset, and an active cost cap cannot be dropped.
  predicate Covers(limits: Limits, u: Usage) {
    && u.calls <= limits.calls
    && u.input + u.heldInput <= limits.input
    && u.output + u.heldOutput <= limits.output
    && (if limits.cost.Some? then u.cost + u.heldCost <= limits.cost.value else u.cost + u.heldCost <= 0)
  }

  // ---------- runs ----------

  datatype Event =
    | ReserveEvent(run: RunRef, callId: int, input: int, output: int)
    | SettleEvent(id: nat, actualInput: int, actualOutput: int, cost: Option<nat>)
    | UncertainEvent(id: nat)
    | AuthorizeEvent(raw: map<string, RawValue>, prices: Option<PriceBasis>, basisNamed: bool, reasoned: bool)

  function Apply(l: Ledger, e: Event): Ledger {
    match e
    case ReserveEvent(run, callId, input, output) => Reserve(l, run, callId, input, output).0
    case SettleEvent(id, input, output, cost) => Settle(l, id, input, output, cost).0
    case UncertainEvent(id) => MarkUncertain(l, id).0
    case AuthorizeEvent(raw, prices, named, reasoned) => Authorize(l, raw, prices, named, reasoned).0
  }

  function Run(l: Ledger, es: seq<Event>): Ledger {
    if es == [] then l else Apply(Run(l, es[..|es| - 1]), es[|es| - 1])
  }

  // A freshly created campaign.
  ghost predicate Fresh(l: Ledger) {
    && l.usage == NO_USAGE && l.rows == []
    && l.limits.calls > 0 && l.limits.input > 0 && l.limits.output > 0
    && (l.limits.cost.Some? ==> l.limits.cost.value > 0 && Complete(l.prices))
  }

  // ---------- conservation ----------

  predicate Outstanding(r: Reservation) { !r.status.Settled? }

  // What one reservation row adds to the campaign counters.
  function Contribution(r: Reservation): Usage {
    match r.status
    case Settled(input, output, cost) => Usage(1, input, output, 0, 0, cost.GetOr(0), 0, 0)
    case Open => Usage(1, 0, 0, r.input, r.output, 0, r.cost.GetOr(0), 0)
    case Uncertain => Usage(1, 0, 0, r.input, r.output, 0, r.cost.GetOr(0), 1)
  }

  function Plus(u: Usage, v: Usage): Usage {
    Usage(u.calls + v.calls, u.input + v.input, u.output + v.output, u.heldInput + v.heldInput,
          u.heldOutput + v.heldOutput, u.cost + v.cost, u.heldCost + v.heldCost, u.uncertain + v.uncertain)
  }

  function Minus(u: Usage, v: Usage): Usage {
    Usage(u.calls - v.calls, u.input - v.input, u.output - v.output, u.heldInput - v.heldInput,
          u.heldOutput - v.heldOutput, u.cost - v.cost, u.heldCost - v.heldCost, u.uncertain - v.uncertain)
  }

  ghost predicate AtLeast(u: Usage, v: Usage) {
    && u.calls >= v.calls && u.input >= v.input && u.output >= v.output && u.heldInput >= v.heldInput
    && u.heldOutput >= v.heldOutput && u.cost >= v.cost && u.heldCost >= v.heldCost && u.uncertain >= v.uncertain
  }

  // The counters recomputed from the rows alone.
  function Tally(rows: seq<Reservation>): Usage {
    if rows == [] then NO_USAGE else Plus(Tally(rows[..|rows| - 1]), Contribution(rows[|rows| - 1]))
  }

  ghost predicate Conserved(l: Ledger) { l.usage == Tally(l.rows) }

  ghost predicate Sound(l: Ledger) {
    && (l.limits.cost.Some? ==> Complete(l.prices))
    && RowsSound(l.rows)
    && (forall j, k :: 0 <= j < k < |l.rows| ==> l.rows[j].callId != l.rows[k].callId)
  }

  lemma {:induction false} TallyUpdate(rows: seq<Reservation>, id: nat, r: Reservation)
    requires id < |rows|
    ensures Tally(rows[id := r]) == Plus(Minus(Tally(rows), Contribution(rows[id])), Contribution(r))
  {
    var last := |rows| - 1;
    if id < last {
      assert rows[id := r][..last] == rows[..last][id := r];
      TallyUpdate(rows[..last], id, r);
    } else {
      assert rows[id := r][..last] == rows[..last];
    }
  }

  ghost predicate RowsSound(rows: seq<Reservation>) {
    forall k :: 0 <= k < |rows| ==> RowSound(rows[k])
  }

  ghost predicate RowSound(r: Reservation) {
    && r.input > 0 && r.output > 0 && r.cost.GetOr(0) >= 0
    && (r.status.Settled? ==> r.status.input >= 0 && r.status.output >= 0)
  }

  lemma {:induction false} TallyAtLeastZero(rows: seq<Reservation>)
    requires RowsSound(rows)
    ensures AtLeast(Tally(rows), NO_USAGE)
  {
    if rows != [] { TallyAtLeastZero(rows[..|rows| - 1]); }
  }

  lemma {:induction false} TallyAtLeast(rows: seq<Reservation>, id: nat)
    requires id < |rows| && RowsSound(rows)
    ensures AtLeast(Tally(rows), Contribution(rows[id]))
  {
    var last := |rows| - 1;
    if id < last { TallyAtLeast(rows[..last], id); } else { TallyAtLeastZero(rows[..last]); }
  }

  /** The counters never fall below the amounts an outstanding reservation holds,
      so the clamps at zero in the settlement never take effect. */
  lemma ClampsNeverBite(l: Ledger, id: nat)
    requires Sound(l) && Conserved(l) && id < |l.rows| && Outstanding(l.rows[id])
    ensures Release(l.usage, l.rows[id]) == l.usage.(
      heldInput := l.usage.heldInput - l.rows[id].input,
      heldOutput := l.usage.heldOutput - l.rows[id].output,
      heldCost := l.usage.heldCost - l.rows[id].cost.GetOr(0))
  {
    TallyAtLeast(l.rows, id);
  }

  // One more row adds its contribution, and keeps rows sound if it is sound and for a new call.
  lemma RowAppended(rows: seq<Reservation>, r: Reservation)
    requires RowsSound(rows) && RowSound(r)
    ensures Tally(rows + [r]) == Plus(Tally(rows), Contribution(r)) && RowsSound(rows + [r])
  {
    assert (rows + [r])[..|rows|] == rows;
  }

  lemma HoldAddsContribution(u: Usage, r: Reservation)
    requires r.status == Open
    ensures Hold(u, r.input, r.output, r.cost) == Plus(u, Contribution(r))
  {}

  // The cost of an attempt of positive size is never negative.
  lemma CostForNonnegative(l: Ledger, input: int, output: int)
    requires (l.limits.cost.Some? ==> Complete(l.prices)) && input > 0 && output > 0
    ensures CostFor(l, input, output).Ok? && CostFor(l, input, output).value.GetOr(0) >= 0
    ensures CostFor(l, input, output).value.Some? <==> l.limits.cost.Some?
  {
    if l.limits.cost.Some? { CostNonnegative(l.prices, input, output); }
  }

  function Taken(l: Ledger, callId: int, input: int, output: int, cost: Option<int>): Ledger {
    l.(usage := Hold(l.usage, input, output, cost), rows := l.rows + [Reservation(callId, input, output, cost, Open)])
  }

  /** What a reservation for a new call comes to, its cost given. */
  lemma ReserveExactly(l: Ledger, run: RunRef, callId: int, input: int, output: int, cost: Option<int>)
    requires input > 0 && output > 0 && run == RunRef(true, l.process) && RowOf(l.rows, callId).None?
    requires CostFor(l, input, output) == Ok(cost)
    ensures Reserve(l, run, callId, input, output) ==
      if WouldExceed(l, input, output, cost) then (l, Failed(EvidenceBudgetExhausted))
      else (Taken(l, callId, input, output, cost), Reservation_(|l.rows|))
  {}

  lemma TakenConserves(l: Ledger, callId: int, input: int, output: int, cost: Option<int>)
    requires Sound(l) && Conserved(l) && input > 0 && output > 0 && cost.GetOr(0) >= 0 && RowOf(l.rows, callId).None?
    ensures Sound(Taken(l, callId, input, output, cost)) && Conserved(Taken(l, callId, input, output, cost))
  {
    var r := Reservation(callId, input, output, cost, Open);
    RowAppended(l.rows, r);
    HoldAddsContribution(l.usage, r);
  }

  lemma ReserveConserves(l: Ledger, run: RunRef, callId: int, input: int, output: int)
    requires Sound(l) && Conserved(l)
    ensures Sound(Reserve(l, run, callId, input, output).0) && Conserved(Reserve(l, run, callId, input, output).0)
  {
    if input > 0 && output > 0 && run == RunRef(true, l.process) && RowOf(l.rows, callId).None? {
      CostForNonnegative(l, input, output);
      var cost := CostFor(l, input, output).value;
      ReserveExactly(l, run, callId, input, output, cost);
      TakenConserves(l, callId, input, output, cost);
    }
  }

  lemma SettleConserves(l: Ledger, id: nat, input: int, output: int, cost: Option<nat>)
    requires Sound(l) && Conserved(l)
    ensures Sound(Settle(l, id, input, output, cost).0) && Conserved(Settle(l, id, input, output, cost).0)
  {
    var l' := Settle(l, id, input, output, cost).0;
    if l' != l {
      ClampsNeverBite(l, id);
      TallyUpdate(l.rows, id, l.rows[id].(status := Settled(input, output, cost)));
      assert l'.limits == l.limits && l'.prices == l.prices;
    }
  }

  lemma MarkUncertainConserves(l: Ledger, id: nat)
    requires Sound(l) && Conserved(l)
    ensures Sound(MarkUncertain(l, id).0) && Conserved(MarkUncertain(l, id).0)
  {
    if id < |l.rows| && l.rows[id].status.Open? {
      TallyUpdate(l.rows, id, l.rows[id].(status := Uncertain));
    }
  }

  lemma StepConserves(l: Ledger, e: Event)
    requires Sound(l) && Conserved(l)
    ensures Sound(Apply(l, e)) && Conserved(Apply(l, e))
  {
    match e
    case ReserveEvent(run, callId, input, output) => ReserveConserves(l, run, callId, input, output);
    case SettleEvent(id, input, output, cost) => SettleConserves(l, id, input, output, cost);
    case UncertainEvent(id) => MarkUncertainConserves(l, id);
    case AuthorizeEvent(_, _, _, _) =>
  }

  /** Conservation: after any interleaving of reservations, settlements, uncertain
      attempts, abandoned attempts and re-authorisations, every counter is the sum it
      stands for over the reservation rows. */
  lemma {:induction false} LedgerConserved(l: Ledger, es: seq<Event>)
    requires Fresh(l)
    ensures Sound(Run(l, es)) && Conserved(Run(l, es))
  {
    if es != [] {
      LedgerConserved(l, es[..|es| - 1]);
      StepConserves(Run(l, es[..|es| - 1]), es[|es| - 1]);
    }
  }

  // ---------- budget safety ----------

  predicate SpentWithinLimits(l: Ledger) {
    && l.usage.calls <= l.limits.calls
    && l.usage.input <= l.limits.input
    && l.usage.output <= l.limits.output
    && (l.limits.cost.Some? ==> l.usage.cost <= l.limits.cost.value)
  }

  predicate CommittedWithinLimits(l: Ledger) {
    && l.usage.calls <= l.limits.calls
    && l.usage.input + l.usage.heldInput <= l.limits.input
    && l.usage.output + l.usage.heldOutput <= l.limits.output
    && (l.limits.cost.Some? ==> l.usage.cost + l.usage.heldCost <= l.limits.cost.value)
  }

  lemma StepKeepsSpent(l: Ledger, e: Event)
    requires Sound(l) && Conserved(l) && SpentWithinLimits(l)
    ensures SpentWithinLimits(Apply(l, e))
  {
    TallyAtLeastZero(l.rows);
  }

  /** Hard budget: what has been spent never passes the limits then in force,
      across every re-authorisation, whatever the provider reports. */
  lemma {:induction false} SpentNeverExceedsLimits(l: Ledger, es: seq<Event>)
    requires Fresh(l)
    ensures SpentWithinLimits(Run(l, es))
  {
    if es != [] {
      SpentNeverExceedsLimits(l, es[..|es| - 1]);
      LedgerConserved(l, es[..|es| - 1]);
      StepKeepsSpent(Run(l, es[..|es| - 1]), es[|es| - 1]);
    }
  }

  /** What one settlement adds beyond its own reservation. */
  function Overrun(held: int, actual: int): int { actual - held }

  predicate Takes(l: Ledger, id: nat, input: int, output: int, cost: Option<nat>) {
    id < |l.rows| && l.rows[id].status.Open? && Settle(l, id, input, output, cost).1 == Done
  }

  /** A settlement keeps spent-plus-held inside the limits exactly when its overrun fits
      the headroom that the other outstanding reservations leave. */
  lemma SettleKeepsCommitment(l: Ledger, id: nat, input: int, output: int, cost: Option<nat>)
    requires Sound(l) && Conserved(l) && CommittedWithinLimits(l) && Takes(l, id, input, output, cost)
    ensures CommittedWithinLimits(Settle(l, id, input, output, cost).0) <==>
            && Overrun(l.rows[id].input, input) <= l.limits.input - l.usage.input - l.usage.heldInput
            && Overrun(l.rows[id].output, output) <= l.limits.output - l.usage.output - l.usage.heldOutput
            && (l.limits.cost.Some? ==>
                  Overrun(l.rows[id].cost.GetOr(0), cost.GetOr(0)) <= l.limits.cost.value - l.usage.cost - l.usage.heldCost)
  {
    ClampsNeverBite(l, id);
  }

  // Every settlement reports at most what its row holds; a row without a cost holds zero.
  predicate Honest(l: Ledger, e: Event) {
    e.SettleEvent? && e.id < |l.rows| && l.rows[e.id].status.Open? ==>
      && e.actualInput <= l.rows[e.id].input
      && e.actualOutput <= l.rows[e.id].output
      && e.cost.GetOr(0) <= l.rows[e.id].cost.GetOr(0)
  }

  predicate HonestRun(l: Ledger, es: seq<Event>) {
    es != [] ==> HonestRun(l, es[..|es| - 1]) && Honest(Run(l, es[..|es| - 1]), es[|es| - 1])
  }

  lemma StepKeepsCommitted(l: Ledger, e: Event)
    requires Sound(l) && Conserved(l) && CommittedWithinLimits(l) && Honest(l, e)
    ensures CommittedWithinLimits(Apply(l, e))
  {
    if e.SettleEvent? && Takes(l, e.id, e.actualInput, e.actualOutput, e.cost) {
      SettleKeepsCommitment(l, e.id, e.actualInput, e.actualOutput, e.cost);
    }
  }

  /** Soft budget: if no attempt reports more than it reserved, then spent plus held
      stays inside the limits as well. */
  lemma {:induction false} CommittedNeverExceedsLimits(l: Ledger, es: seq<Event>)
    requires Fresh(l) && HonestRun(l, es)
    ensures CommittedWithinLimits(Run(l, es))
  {
    if es != [] {
      CommittedNeverExceedsLimits(l, es[..|es| - 1]);
      LedgerConserved(l, es[..|es| - 1]);
      StepKeepsCommitted(Run(l, es[..|es| - 1]), es[|es| - 1]);
    }
  }

  lemma RunStep(l: Ledger, es: seq<Event>, e: Event)
    ensures Run(l, es + [e]) == Apply(Run(l, es), e)
  {
    assert (es + [e])[..|es|] == es;
  }

  // A campaign without a cost cap, with the given counters and rows.
  function Plain(limits: Limits, usage: Usage, rows: seq<Reservation>): Ledger {
    Ledger(1, 1, limits, usage, PriceBasis(None, None), rows)
  }

  lemma PlainReserve(limits: Limits, u: Usage, rows: seq<Reservation>, callId: int, input: int, output: int)
    requires limits.cost.None? && input > 0 && output > 0 && forall k :: 0 <= k < |rows| ==> rows[k].callId != callId
    requires u.calls + 1 <= limits.calls
    requires u.input + u.heldInput + input <= limits.input && u.output + u.heldOutput + output <= limits.output
    ensures Apply(Plain(limits, u, rows), ReserveEvent(RunRef(true, 1), callId, input, output)) ==
      Plain(limits, Hold(u, input, output, None), rows + [Reservation(callId, input, output, None, Open)])
  {
    ReserveExactly(Plain(limits, u, rows), RunRef(true, 1), callId, input, output, None);
  }

  lemma PlainSettle(limits: Limits, u: Usage, rows: seq<Reservation>, id: nat, input: nat, output: nat)
    requires limits.cost.None? && id < |rows| && rows[id].status == Open
    requires u.input + input <= limits.input && u.output + output <= limits.output
    ensures Apply(Plain(limits, u, rows), SettleEvent(id, input, output, None)).usage ==
      var v := Release(u, rows[id]); v.(input := v.input + input, output := v.output + output)
    ensures Apply(Plain(limits, u, rows), SettleEvent(id, input, output, None)).limits == limits
  {}

  lemma RunThree(l: Ledger, a: Event, b: Event, c: Event, l1: Ledger, l2: Ledger)
    requires l1 == Apply(l, a) && l2 == Apply(l1, b)
    ensures Run(l, [] + [a] + [b] + [c]) == Apply(l2, c)
  {
    RunStep(l, [], a);
    RunStep(l, [] + [a], b);
    RunStep(l, [] + [a] + [b], c);
  }

  /** The honesty hypothesis cannot be dropped: where two attempts hold a whole budget half
      each, settling the first one at the full input budget is accepted all the same. */
  lemma OverreportingBreaksCommitment(l: Ledger, first: int, second: int, input: nat, output: nat) returns (es: seq<Event>)
    requires l == Plain(Limits(2, 2 * input, 2 * output, None), NO_USAGE, []) && input > 0 && output > 0 && first != second
    ensures Fresh(l) && !CommittedWithinLimits(Run(l, es))
    ensures es == [] + [ReserveEvent(RunRef(true, 1), first, input, output)] + [ReserveEvent(RunRef(true, 1), second, input, output)]
                  + [SettleEvent(0, 2 * input, output, None)]
  {
    var run := RunRef(true, 1);
    var a, b, c := ReserveEvent(run, first, input, output), ReserveEvent(run, second, input, output), SettleEvent(0, 2 * input, output, None);
    var r1, r2 := Reservation(first, input, output, None, Open), Reservation(second, input, output, None, Open);
    var u1 := Hold(NO_USAGE, input, output, None);
    var u2 := Hold(u1, input, output, None);
    PlainReserve(l.limits, NO_USAGE, [], first, input, output);
    PlainReserve(l.limits, u1, [] + [r1], second, input, output);
    PlainSettle(l.limits, u2, [] + [r1] + [r2], 0, 2 * input, output);
    es := [] + [a] + [b] + [c];
    RunThree(l, a, b, c, Plain(l.limits, u1, [] + [r1]), Plain(l.limits, u2, [] + [r1] + [r2]));
  }

  // ---------- headroom ----------

  // The candidate test of the headroom search: would an attempt of this size be admitted?
  predicate Fits(l: Ledger, input: int, output: int)
    requires l.limits.cost.Some? ==> Complete(l.prices)
  {
    !WouldExceed(l, input, output, CostFor(l, input, output).value)
  }

  // The same test for a call of k output tokens beside protected amounts.
  predicate FitsBeside(l: Ledger, input: int, k: int, keepIn: int, keepOut: int)
    requires l.limits.cost.Some? ==> Complete(l.prices)
  {
    Fits(l, input + keepIn, k + keepOut)
  }

  lemma FitsSmaller(l: Ledger, i: int, o: int, i': int, o': int)
    requires (l.limits.cost.Some? ==> Complete(l.prices)) && i <= i' && o <= o' && Fits(l, i', o')
    ensures Fits(l, i, o)
  {
    if l.limits.cost.Some? { CostMonotone(l.prices, i, o, i', o'); }
  }

  /** Admission refines the headroom test: an attempt that fits together with its
      protected amounts is reserved, under the same lock, without them. */
  lemma HeadroomAdmits(l: Ledger, run: RunRef, callId: int, input: int, output: int, keepIn: nat, keepOut: nat)
    requires (l.limits.cost.Some? ==> Complete(l.prices)) && input > 0 && output > 0 && Fits(l, input + keepIn, output + keepOut)
    requires run == RunRef(true, l.process) && RowOf(l.rows, callId).None?
    ensures Reserve(l, run, callId, input, output)
      == (Taken(l, callId, input, output, CostFor(l, input, output).value), Reservation_(|l.rows|))
  {
    CostForNonnegative(l, input, output);
    FitsSmaller(l, input, output, input + keepIn, output + keepOut);
    ReserveExactly(l, run, callId, input, output, CostFor(l, input, output).value);
  }

  // Two attempts that fit together, the first one taken; all costs given.
  lemma RoomAfter(l: Ledger, callId: int, input: int, output: int, keepIn: int, keepOut: int, cost: Option<int>, kept: Option<int>, joint: Option<int>)
    requires !WouldExceed(l, input + keepIn, output + keepOut, joint)
    requires l.limits.cost.Some? ==> cost.Some? && kept.Some? && joint.Some?
    ensures var l' := Taken(l, callId, input, output, cost);
      && l'.usage.input + l'.usage.heldInput + keepIn <= l.limits.input
      && l'.usage.output + l'.usage.heldOutput + keepOut <= l.limits.output
      && (l.limits.cost.Some? && cost.value + kept.value <= joint.value + 1 ==>
            l'.usage.cost + l'.usage.heldCost + kept.value <= l.limits.cost.value + 1)
      && (!WouldExceed(l', keepIn, keepOut, kept) <==>
            && l.usage.calls + 2 <= l.limits.calls
            && (l.limits.cost.Some? ==> l.usage.cost + l.usage.heldCost + cost.value + kept.value <= l.limits.cost.value))
  {}

  /** Admission with protected amounts leaves the protected tokens free, and the separately
      rounded protected cost passes the cap by at most one microunit. */
  lemma ProtectedAmountsSurvive(l: Ledger, run: RunRef, callId: int, input: int, output: int, keepIn: nat, keepOut: nat)
    requires (l.limits.cost.Some? ==> Complete(l.prices)) && input > 0 && output > 0
    requires FitsBeside(l, input, output, keepIn, keepOut)
    requires run == RunRef(true, l.process) && RowOf(l.rows, callId).None?
    ensures var u := Reserve(l, run, callId, input, output).0.usage;
      && u.input + u.heldInput + keepIn <= l.limits.input
      && u.output + u.heldOutput + keepOut <= l.limits.output
      && (l.limits.cost.Some? ==> u.cost + u.heldCost + MaxCost(l.prices, keepIn, keepOut) <= l.limits.cost.value + 1)
  {
    HeadroomAdmits(l, run, callId, input, output, keepIn, keepOut);
    if l.limits.cost.Some? { CostSplit(l.prices, input, output, keepIn, keepOut); }
    RoomAfter(l, callId, input, output, keepIn, keepOut, CostFor(l, input, output).value, CostFor(l, keepIn, keepOut).value,
              CostFor(l, input + keepIn, output + keepOut).value);
  }

  /** The protected attempt itself is then admitted exactly when one more provider call is
      allowed and the two separately rounded costs fit the cap: neither is protected. */
  lemma ProtectedAttemptAdmitted(
    l: Ledger, run: RunRef, callId: int, input: int, output: int, keepIn: nat, keepOut: nat, next: int)
    requires (l.limits.cost.Some? ==> Complete(l.prices)) && input > 0 && output > 0 && keepIn > 0 && keepOut > 0
    requires FitsBeside(l, input, output, keepIn, keepOut)
    requires run == RunRef(true, l.process) && RowOf(l.rows, callId).None?
    ensures var l' := Reserve(l, run, callId, input, output).0;
      RowOf(l'.rows, next).None? ==>
        (Reserve(l', run, next, keepIn, keepOut).1.Reservation_? <==>
          && l.usage.calls + 2 <= l.limits.calls
          && (l.limits.cost.Some? ==> l.usage.cost + l.usage.heldCost + MaxCost(l.prices, input, output)
                                      + MaxCost(l.prices, keepIn, keepOut) <= l.limits.cost.value))
  {
    var cost, kept := CostFor(l, input, output).value, CostFor(l, keepIn, keepOut).value;
    HeadroomAdmits(l, run, callId, input, output, keepIn, keepOut);
    RoomAfter(l, callId, input, output, keepIn, keepOut, cost, kept, CostFor(l, input + keepIn, output + keepOut).value);
    var l' := Taken(l, callId, input, output, cost);
    if RowOf(l'.rows, next).None? { ReserveExactly(l', run, next, keepIn, keepOut, kept); }
  }

  /** The one-microunit slack is real: two half-microunit attempts fit a cap of one when
      priced together, and need two when priced apart. */
  lemma SplitSlackIsTight()
    ensures var l := Ledger(1, 1, Limits(9, 9, 9, Some(1)), NO_USAGE, PriceBasis(Some(0.25), Some(0.25)), []);
      && Sound(l) && Fits(l, 2, 2)
      && MaxCost(l.prices, 1, 1) + MaxCost(l.prices, 1, 1) == 2
  {
    CostRoundsUp(PriceBasis(Some(0.25), Some(0.25)), 2, 2);
    CostRoundsUp(PriceBasis(Some(0.25), Some(0.25)), 1, 1);
  }
}
