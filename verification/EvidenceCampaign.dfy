/** The campaign row as the mutable object its methods rewrite, each method proved
    against the ledger step of the same name. */
module EvidenceCampaign {
  import opened Wrappers
  import opened EvidencePricing
  import opened EvidenceLedger

  datatype CallRefusal = ContextCapacityExhausted | EvidenceBudgetRefused | CompletionBudgetExhausted

  datatype CallAdmission = Admitted(tokens: int) | Refused(code: CallRefusal)

  class Campaign {
    var process: int
    var revision: nat
    var limits: Limits
    var usage: Usage
    var prices: PriceBasis
    var rows: seq<Reservation>

    function View(): Ledger
      reads this
    {
      Ledger(process, revision, limits, usage, prices, rows)
    }

    // The part of soundness the arithmetic needs; the rest is a property of runs of the ledger.
    predicate Priced()
      reads this
    {
      limits.cost.Some? ==> Complete(prices)
    }

    constructor (process: int, limits: Limits, prices: PriceBasis)
      requires limits.calls > 0 && limits.input > 0 && limits.output > 0
      requires limits.cost.Some? ==> limits.cost.value > 0 && Complete(prices)
      ensures Fresh(View())
      ensures View() == Ledger(process, 1, limits, NO_USAGE, prices, [])
    {
      this.process, this.revision, this.limits, this.usage := process, 1, limits, NO_USAGE;
      this.prices, this.rows := prices, [];
    }

    method ReserveProviderAttempt(run: RunRef, callId: int, input: int, output: int) returns (outcome: Outcome)
      modifies this
      ensures (View(), outcome) == Reserve(old(View()), run, callId, input, output)
    {
      if !run.budgeted { return Unbudgeted; }
      if input <= 0 || output <= 0 { return Failed(EvidenceBudgetExhausted); }
      if run.process != process { return Failed(InvalidEvidenceBudget); }
      var existing := RowOf(rows, callId);
      if existing.Some? { return Reservation_(existing.value); }
      var cost := CostFor(View(), input, output);
      if cost.Err? { return Failed(cost.error); }
      if WouldExceed(View(), input, output, cost.value) { return Failed(EvidenceBudgetExhausted); }
      usage := usage.(calls := usage.calls + 1);
      usage := usage.(heldInput := usage.heldInput + input);
      usage := usage.(heldOutput := usage.heldOutput + output);
      if cost.value.Some? { usage := usage.(heldCost := usage.heldCost + cost.value.value); }
      rows := rows + [Reservation(callId, input, output, cost.value, Open)];
      return Reservation_(|rows| - 1);
    }

    /** The settlement first releases the reservation, then adds the reported usage; a
        failing check leaves everything as it was. */
    method SettleProviderAttempt(id: nat, input: int, output: int, cost: Option<nat>) returns (outcome: Outcome)
      modifies this
      ensures (View(), outcome) == Settle(old(View()), id, input, output, cost)
    {
      if id >= |rows| { return Failed(NoSuchReservation); }
      var row := rows[id];
      if !row.status.Open? { return Done; }
      if input < 0 || output < 0 { return Failed(InvalidProviderUsage); }
      var next := Release(usage, row);
      if next.input + input > limits.input { return Failed(ProviderUsageExceedsReservation); }
      if next.output + output > limits.output { return Failed(ProviderUsageExceedsReservation); }
      next := next.(input := next.input + input, output := next.output + output);
      if limits.cost.Some? {
        if cost.None? { return Failed(ProviderCostUnknown); }
        if next.cost + cost.value > limits.cost.value { return Failed(ProviderUsageExceedsReservation); }
        next := next.(cost := next.cost + cost.value);
      } else if cost.Some? {
        next := next.(cost := next.cost + cost.value);
      }
      usage := next;
      rows := rows[id := row.(status := Settled(input, output, cost))];
      return Done;
    }

    method MarkProviderAttemptUncertain(id: nat) returns (outcome: Outcome)
      modifies this
      ensures (View(), outcome) == MarkUncertain(old(View()), id)
    {
      if id >= |rows| { return Failed(NoSuchReservation); }
      if !rows[id].status.Open? { return Done; }
      usage := usage.(uncertain := usage.uncertain + 1);
      rows := rows[id := rows[id].(status := Uncertain)];
      return Done;
    }

    method AuthorizeCampaignContinuation(
      raw: map<string, RawValue>, newPrices: Option<PriceBasis>, basisNamed: bool, reasoned: bool) returns (outcome: Outcome)
      modifies this
      ensures (View(), outcome) == Authorize(old(View()), raw, newPrices, basisNamed, reasoned)
    {
      if !reasoned { return Failed(InvalidEvidenceBudget); }
      var normalized := NormalizeLimits(raw);
      if normalized.Err? { return Failed(normalized.error); }
      if !Covers(normalized.value, usage) { return Failed(InvalidEvidenceBudget); }
      var chosen := newPrices.GetOr(prices);
      if !PricesAcceptable(chosen, basisNamed, normalized.value.cost.Some?) { return Failed(InvalidEvidenceBudget); }
      revision := revision + 1;
      limits := normalized.value;
      prices := chosen;
      return Done;
    }

    /** Binary search for the output headroom.  Zero is returned untested; every positive
        size up to the bound fits exactly when it is at most the result. */
    method MaxReservableOutputTokens(input: int, bound: int, keepIn: int, keepOut: int) returns (low: int)
      requires Priced()
      ensures 0 <= low && (low <= bound || low == 0)
      ensures forall k :: 1 <= k <= bound ==> (FitsBeside(View(), input, k, keepIn, keepOut) <==> k <= low)
    {
      low := 0;
      var high := if bound > 0 then bound else 0;
      while low < high
        invariant 0 <= low <= high && (high <= bound || high == 0)
        invariant forall k :: 1 <= k <= low ==> FitsBeside(View(), input, k, keepIn, keepOut)
        invariant forall k :: high < k <= bound ==> !FitsBeside(View(), input, k, keepIn, keepOut)
      {
        var candidate := (low + high + 1) / 2;
        if FitsBeside(View(), input, candidate, keepIn, keepOut) {
          forall k | 1 <= k <= candidate ensures FitsBeside(View(), input, k, keepIn, keepOut) {
            FitsSmaller(View(), input + keepIn, k + keepOut, input + keepIn, candidate + keepOut);
          }
          low := candidate;
        } else {
          forall k | candidate <= k <= bound ensures !FitsBeside(View(), input, k, keepIn, keepOut) {
            if FitsBeside(View(), input, k, keepIn, keepOut) {
              FitsSmaller(View(), input + keepIn, candidate + keepOut, input + keepIn, k + keepOut);
            }
          }
          high := candidate - 1;
        }
      }
    }

    /** Sizing and reserving one model call under the campaign lock.  The reservation that
        follows a positive headroom is never refused, the size is the largest the campaign
        admits below the call's own cap, and each refusal names the capacity that is missing. */
    method ReserveModelCall(
      callId: int, prompt: int, callCap: int, contextRoom: int, floor: int, keepIn: nat, keepOut: nat)
      returns (admission: CallAdmission)
      requires Priced() && prompt > 0 && floor > 0 && RowOf(rows, callId).None?
      modifies this
      ensures admission.Admitted? ==>
        && floor <= admission.tokens <= callCap
        && FitsBeside(old(View()), prompt, admission.tokens, keepIn, keepOut)
        && (forall k :: admission.tokens < k <= callCap ==> !FitsBeside(old(View()), prompt, k, keepIn, keepOut))
        && (View(), Reservation_(|old(rows)|)) == Reserve(old(View()), RunRef(true, process), callId, prompt, admission.tokens)
      ensures admission.Refused? ==> View() == old(View())
      ensures admission.Refused? <==> callCap < floor || !FitsBeside(old(View()), prompt, floor, keepIn, keepOut)
      ensures admission.Refused? ==>
        admission.code == if contextRoom < floor then ContextCapacityExhausted
                          else if !FitsBeside(old(View()), prompt, floor, keepIn, keepOut) then EvidenceBudgetRefused
                          else CompletionBudgetExhausted
    {
      var tokens := MaxReservableOutputTokens(prompt, callCap, keepIn, keepOut);
      if tokens < floor {
        if callCap >= floor { assert !FitsBeside(View(), prompt, floor, keepIn, keepOut); }
        if contextRoom < floor { return Refused(ContextCapacityExhausted); }
        var least := MaxReservableOutputTokens(prompt, floor, keepIn, keepOut);
        if least < floor { return Refused(EvidenceBudgetRefused); }
        return Refused(CompletionBudgetExhausted);
      }
      assert FitsBeside(View(), prompt, tokens, keepIn, keepOut);
      FitsSmaller(View(), prompt + keepIn, floor + keepOut, prompt + keepIn, tokens + keepOut);
      HeadroomAdmits(View(), RunRef(true, process), callId, prompt, tokens, keepIn, keepOut);
      var outcome := ReserveProviderAttempt(RunRef(true, process), callId, prompt, tokens);
      return Admitted(tokens);
    }
  }
}
