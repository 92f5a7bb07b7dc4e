/** Ceiling-rounded token cost of a provider attempt, in microunits of the
    campaign currency.  Prices are exact nonnegative rationals per million tokens. */
module EvidencePricing {
  import opened Wrappers

  // A price is None when it is missing or not a decimal number.
  datatype PriceBasis = PriceBasis(input: Option<real>, output: Option<real>)

  predicate Complete(p: PriceBasis) {
    && p.input.Some? && p.input.value >= 0.0
    && p.output.Some? && p.output.value >= 0.0
  }

  function Ceiling(x: real): int {
    -(-x).Floor
  }

  function Exact(p: PriceBasis, input: int, output: int): real
    requires p.input.Some? && p.output.Some?
  {
    input as real * p.input.value + output as real * p.output.value
  }

  function MaxCost(p: PriceBasis, input: int, output: int): int
    requires p.input.Some? && p.output.Some?
  {
    Ceiling(Exact(p, input, output))
  }

  /** Pricing in currency units per million tokens and converting back to microunits
      rounds the same exact amount. */
  lemma ScalingCancels(p: PriceBasis, input: int, output: int)
    requires p.input.Some? && p.output.Some?
    ensures var units := input as real * p.input.value / 1000000.0 + output as real * p.output.value / 1000000.0;
      Ceiling(units * 1000000.0) == MaxCost(p, input, output)
  {
    var a, b := input as real * p.input.value, output as real * p.output.value;
    assert (a / 1000000.0 + b / 1000000.0) * 1000000.0 == a + b;
  }

  lemma CostRoundsUp(p: PriceBasis, input: int, output: int)
    requires p.input.Some? && p.output.Some?
    ensures Exact(p, input, output) <= MaxCost(p, input, output) as real < Exact(p, input, output) + 1.0
  {
  }

  lemma ExactMonotone(p: PriceBasis, i: int, o: int, i': int, o': int)
    requires Complete(p) && i <= i' && o <= o'
    ensures Exact(p, i, o) <= Exact(p, i', o')
  {
    Scale(i, i', p.input.value);
    Scale(o, o', p.output.value);
  }

  lemma Scale(a: int, b: int, r: real)
    requires a <= b && r >= 0.0
    ensures a as real * r <= b as real * r
  {
    assert (b - a) as real * r >= 0.0;
    assert (b - a) as real == b as real - a as real;
    assert b as real * r - a as real * r == (b - a) as real * r;
  }

  /** More tokens never cost less: the headroom search relies on it. */
  lemma CostMonotone(p: PriceBasis, i: int, o: int, i': int, o': int)
    requires Complete(p) && i <= i' && o <= o'
    ensures MaxCost(p, i, o) <= MaxCost(p, i', o')
  {
    CostRoundsUp(p, i, o);
    CostRoundsUp(p, i', o');
    ExactMonotone(p, i, o, i', o');
  }

  lemma CostNonnegative(p: PriceBasis, i: int, o: int)
    requires Complete(p) && 0 <= i && 0 <= o
    ensures 0 <= MaxCost(p, i, o)
  {
    CostRoundsUp(p, 0, 0);
    CostMonotone(p, 0, 0, i, o);
  }

  /** Pricing two parts separately never undercuts pricing them together, and
      costs at most one microunit more. */
  lemma CostSplit(p: PriceBasis, i: int, o: int, i': int, o': int)
    requires Complete(p)
    ensures MaxCost(p, i + i', o + o') <= MaxCost(p, i, o) + MaxCost(p, i', o') <= MaxCost(p, i + i', o + o') + 1
  {
    CostRoundsUp(p, i, o);
    CostRoundsUp(p, i', o');
    CostRoundsUp(p, i + i', o + o');
    Distribute(i, i', p.input.value);
    Distribute(o, o', p.output.value);
  }

  lemma Distribute(a: int, b: int, r: real)
    ensures (a + b) as real * r == a as real * r + b as real * r
  {
    assert (a + b) as real == a as real + b as real;
  }
}
