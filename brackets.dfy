/** The bracket evaluator: a progressive tax table is an ordered sequence of
    (upper bound, marginal rate) pairs, and the tax on an income is the sum,
    over the brackets the income reaches, of the slice of income inside the
    bracket times its rate. The top bracket of the tables in use has an
    infinite upper bound; `Unbounded` stands for it. */
module Brackets {

  /** An upper bound of a bracket; `Unbounded` plays the part of float("inf"). */
  datatype Bound = Finite(value: real) | Unbounded

  datatype Bracket = Bracket(limit: Bound, rate: real)

  /** `income > bound` (never true of the infinite bound). */
  predicate Exceeds(income: real, bound: Bound) {
    bound.Finite? && income > bound.value
  }

  /** `income <= bound` (always true of the infinite bound). */
  predicate Within(income: real, bound: Bound) {
    bound.Unbounded? || income <= bound.value
  }

  /** `min(income, bound)`. */
  function Cap(income: real, bound: Bound): real {
    if bound.Finite? && bound.value < income then bound.value else income
  }

  /** The tax the loop still adds once the previous limit is `prev` and the
      brackets `t` remain: it stops as soon as the income does not exceed
      the previous limit. */
  function TaxFrom(income: real, prev: Bound, t: seq<Bracket>): real
    decreases |t|
  {
    if t == [] || !Exceeds(income, prev) then 0.0
    else (Cap(income, t[0].limit) - prev.value) * t[0].rate + TaxFrom(income, t[0].limit, t[1..])
  }

  /** The tax on `income` under table `t`, starting from a previous limit of 0. */
  function ProgressiveTax(income: real, t: seq<Bracket>): real {
    TaxFrom(income, Finite(0.0), t)
  }

  /** `calc_progressive_tax`: walks the table, accumulating the taxed slice of
      each bracket, and stops at the first bracket the income does not reach. */
  method CalcProgressiveTax(income: real, brackets: seq<Bracket>) returns (tax: real)
    ensures tax == ProgressiveTax(income, brackets)
    ensures income <= 0.0 ==> tax == 0.0
  {
    tax := 0.0;
    var prevLimit := Finite(0.0);
    for i := 0 to |brackets|
      invariant tax + TaxFrom(income, prevLimit, brackets[i..]) == ProgressiveTax(income, brackets)
    {
      var b := brackets[i];
      if Exceeds(income, prevLimit) {
        var taxableAmount := Cap(income, b.limit) - prevLimit.value;
        tax := tax + taxableAmount * b.rate;
        prevLimit := b.limit;
      } else {
        break;
      }
    }
  }

  /** The rate of the first bracket of `t` whose bound the income does not
      exceed, or `fallback` when there is none. */
  function FirstRate(income: real, t: seq<Bracket>, fallback: real): real
    decreases |t|
  {
    if t == [] then fallback
    else if Within(income, t[0].limit) then t[0].rate
    else FirstRate(income, t[1..], fallback)
  }

  /** The marginal rate: the first bracket containing the income, otherwise
      the last bracket's rate. */
  function MarginalRate(income: real, t: seq<Bracket>): real
    requires |t| > 0
  {
    FirstRate(income, t, t[|t| - 1].rate)
  }

  /** `get_marginal_rate`: returns the rate of the first bracket whose bound is
      at least the income, and the last rate when no bound is. An empty table
      has no last entry to fall back on, so the table must not be empty. */
  method GetMarginalRate(income: real, brackets: seq<Bracket>) returns (rate: real)
    requires |brackets| > 0
    ensures rate == MarginalRate(income, brackets)
  {
    for i := 0 to |brackets|
      invariant FirstRate(income, brackets[i..], brackets[|brackets| - 1].rate) == MarginalRate(income, brackets)
    {
      if Within(income, brackets[i].limit) {
        return brackets[i].rate;
      }
    }
    rate := brackets[|brackets| - 1].rate;
  }

  // ---------------------------------------------------------------------
  // Well-formed tables

  /** Every bound is finite except the last, which is unbounded; finite bounds
      strictly increase from `lo`; and no rate is negative. */
  predicate WellFormedFrom(lo: real, t: seq<Bracket>)
    decreases |t|
  {
    |t| > 0 && t[0].rate >= 0.0 &&
    match t[0].limit
    case Unbounded => |t| == 1
    case Finite(b) => lo < b && WellFormedFrom(b, t[1..])
  }

  /** A well-formed table: its first bound is above 0. */
  predicate WellFormed(t: seq<Bracket>) {
    WellFormedFrom(0.0, t)
  }

  /** The lower end of bracket `k` of a table whose brackets start at `lo`. */
  function LowerFrom(lo: real, t: seq<Bracket>, k: nat): real
    requires k < |t|
    decreases k
  {
    if k == 0 then lo
    else if t[0].limit.Finite? then LowerFrom(t[0].limit.value, t[1..], k - 1)
    else lo
  }

  /** The lower end of bracket `k` (0 for the first bracket). */
  function Lower(t: seq<Bracket>, k: nat): real
    requires k < |t|
  {
    LowerFrom(0.0, t, k)
  }

  lemma {:induction false} LowerFromAbove(lo: real, t: seq<Bracket>, k: nat)
    requires WellFormedFrom(lo, t) && 0 < k < |t|
    ensures t[0].limit.Finite? && lo < t[0].limit.value <= LowerFrom(lo, t, k)
    decreases |t|
  {
    if k > 1 {
      LowerFromAbove(t[0].limit.value, t[1..], k - 1);
    }
  }

  // ---------------------------------------------------------------------
  // Properties of the tax

  /** The tax is 0 whenever the income does not exceed the starting limit. */
  lemma ZeroBelowStart(income: real, lo: real, t: seq<Bracket>)
    requires income <= lo
    ensures TaxFrom(income, Finite(lo), t) == 0.0
  {
  }

  lemma {:induction false} TaxFromNonNegative(income: real, lo: real, t: seq<Bracket>)
    requires WellFormedFrom(lo, t)
    ensures TaxFrom(income, Finite(lo), t) >= 0.0
    decreases |t|
  {
    if Exceeds(income, Finite(lo)) {
      var slice := Cap(income, t[0].limit) - lo;
      assert slice >= 0.0;
      assert slice * t[0].rate >= 0.0;
      match t[0].limit
      case Unbounded =>
      case Finite(b) => TaxFromNonNegative(income, b, t[1..]);
    }
  }

  /** Under a well-formed table the tax is never negative. */
  lemma NonNegative(income: real, t: seq<Bracket>)
    requires WellFormed(t)
    ensures ProgressiveTax(income, t) >= 0.0
  {
    TaxFromNonNegative(income, 0.0, t);
  }

  lemma {:induction false} TaxFromMonotone(x: real, y: real, lo: real, t: seq<Bracket>)
    requires WellFormedFrom(lo, t) && x <= y
    ensures TaxFrom(x, Finite(lo), t) <= TaxFrom(y, Finite(lo), t)
    decreases |t|
  {
    if !Exceeds(x, Finite(lo)) {
      TaxFromNonNegative(y, lo, t);
    } else {
      var r := t[0].rate;
      assert (Cap(x, t[0].limit) - lo) * r <= (Cap(y, t[0].limit) - lo) * r;
      match t[0].limit
      case Unbounded =>
      case Finite(b) => TaxFromMonotone(x, y, b, t[1..]);
    }
  }

  /** Under a well-formed table the tax is non-decreasing in income. */
  lemma Monotone(x: real, y: real, t: seq<Bracket>)
    requires WellFormed(t) && x <= y
    ensures ProgressiveTax(x, t) <= ProgressiveTax(y, t)
  {
    TaxFromMonotone(x, y, 0.0, t);
  }

  lemma {:induction false} PartitionFrom(income: real, lo: real, t: seq<Bracket>, k: nat)
    requires WellFormedFrom(lo, t) && k < |t|
    requires LowerFrom(lo, t, k) < income && Within(income, t[k].limit)
    ensures TaxFrom(income, Finite(lo), t)
         == TaxFrom(LowerFrom(lo, t, k), Finite(lo), t) + (income - LowerFrom(lo, t, k)) * t[k].rate
    decreases |t|
  {
    if k == 0 {
      match t[0].limit
      case Unbounded =>
      case Finite(b) => ZeroBelowStart(income, b, t[1..]);
    } else {
      LowerFromAbove(lo, t, k);
      var b, lower := t[0].limit.value, LowerFrom(lo, t, k);
      assert lower == LowerFrom(b, t[1..], k - 1) && t[1..][k - 1] == t[k];
      PartitionFrom(income, b, t[1..], k - 1);
      StepAboveFirst(income, lo, t);
      StepAboveFirst(lower, lo, t);
    }
  }

  /** Once the income passes the first (finite) bound, the first bracket is
      taxed in full. */
  lemma StepAboveFirst(income: real, lo: real, t: seq<Bracket>)
    requires |t| > 0 && t[0].limit.Finite? && lo < t[0].limit.value <= income
    ensures TaxFrom(income, Finite(lo), t)
         == (t[0].limit.value - lo) * t[0].rate + TaxFrom(income, t[0].limit, t[1..])
  {
  }

  /** The partition property: an income in bracket `k`, that is above the
      bracket's lower end and within its bound, pays the tax due at the lower
      end plus the bracket's rate on the excess. */
  lemma Partition(income: real, t: seq<Bracket>, k: nat)
    requires WellFormed(t) && k < |t|
    requires Lower(t, k) < income && Within(income, t[k].limit)
    ensures ProgressiveTax(income, t) == ProgressiveTax(Lower(t, k), t) + (income - Lower(t, k)) * t[k].rate
  {
    PartitionFrom(income, 0.0, t, k);
  }

  /** Within the first bracket the tax is the income times the first rate. */
  lemma FirstBracket(income: real, t: seq<Bracket>)
    requires WellFormed(t) && 0.0 <= income && Within(income, t[0].limit)
    ensures ProgressiveTax(income, t) == income * t[0].rate
  {
    if income > 0.0 {
      Partition(income, t, 0);
    }
  }

  lemma {:induction false} ContainingBracketFrom(income: real, lo: real, t: seq<Bracket>) returns (k: nat)
    requires WellFormedFrom(lo, t) && lo < income
    ensures k < |t| && LowerFrom(lo, t, k) < income && Within(income, t[k].limit)
    decreases |t|
  {
    if Within(income, t[0].limit) {
      k := 0;
    } else {
      var j := ContainingBracketFrom(income, t[0].limit.value, t[1..]);
      k := j + 1;
    }
  }

  /** A well-formed table covers every positive income: some bracket holds it. */
  lemma ContainingBracket(income: real, t: seq<Bracket>) returns (k: nat)
    requires WellFormed(t) && 0.0 < income
    ensures k < |t| && Lower(t, k) < income && Within(income, t[k].limit)
  {
    k := ContainingBracketFrom(income, 0.0, t);
  }

  // ---------------------------------------------------------------------
  // Properties of the marginal rate

  lemma {:induction false} FirstRateIsFirstContaining(income: real, t: seq<Bracket>, fallback: real, k: nat)
    requires k < |t| && Within(income, t[k].limit)
    requires forall j :: 0 <= j < k ==> !Within(income, t[j].limit)
    ensures FirstRate(income, t, fallback) == t[k].rate
    decreases |t|
  {
    if k > 0 {
      assert !Within(income, t[0].limit);
      forall j | 0 <= j < k - 1 ensures !Within(income, t[1..][j].limit) {
        assert t[1..][j] == t[j + 1];
      }
      FirstRateIsFirstContaining(income, t[1..], fallback, k - 1);
    }
  }

  lemma {:induction false} FirstRateNoneContaining(income: real, t: seq<Bracket>, fallback: real)
    requires forall j :: 0 <= j < |t| ==> !Within(income, t[j].limit)
    ensures FirstRate(income, t, fallback) == fallback
    decreases |t|
  {
    if t != [] {
      assert !Within(income, t[0].limit);
      forall j | 0 <= j < |t| - 1 ensures !Within(income, t[1..][j].limit) {
        assert t[1..][j] == t[j + 1];
      }
      FirstRateNoneContaining(income, t[1..], fallback);
    }
  }

  /** The marginal rate is the rate of the first bracket whose bound is at
      least the income. */
  lemma MarginalRateFirstContaining(income: real, t: seq<Bracket>, k: nat)
    requires k < |t| && Within(income, t[k].limit)
    requires forall j :: 0 <= j < k ==> !Within(income, t[j].limit)
    ensures MarginalRate(income, t) == t[k].rate
  {
    FirstRateIsFirstContaining(income, t, t[|t| - 1].rate, k);
  }

  /** When no bound is at least the income, the marginal rate is the last
      bracket's rate. */
  lemma MarginalRateNoneContaining(income: real, t: seq<Bracket>)
    requires |t| > 0
    requires forall j :: 0 <= j < |t| ==> !Within(income, t[j].limit)
    ensures MarginalRate(income, t) == t[|t| - 1].rate
  {
    FirstRateNoneContaining(income, t, t[|t| - 1].rate);
  }

  lemma {:induction false} FirstRateOfBracket(income: real, lo: real, t: seq<Bracket>, fallback: real, k: nat)
    requires WellFormedFrom(lo, t) && k < |t|
    requires LowerFrom(lo, t, k) < income && Within(income, t[k].limit)
    ensures FirstRate(income, t, fallback) == t[k].rate
    decreases |t|
  {
    if k > 0 {
      LowerFromAbove(lo, t, k);
      FirstRateOfBracket(income, t[0].limit.value, t[1..], fallback, k - 1);
    }
  }

  /** An income in bracket `k` of a well-formed table has that bracket's rate
      as its marginal rate; in particular an income equal to a bound belongs
      to the lower of the two brackets that meet there. */
  lemma MarginalRateOfBracket(income: real, t: seq<Bracket>, k: nat)
    requires WellFormed(t) && k < |t|
    requires Lower(t, k) < income && Within(income, t[k].limit)
    ensures MarginalRate(income, t) == t[k].rate
  {
    FirstRateOfBracket(income, 0.0, t, t[|t| - 1].rate, k);
  }

  /** For a positive income the marginal rate is the rate the tax applies to
      the top dollar: on the whole stretch from the lower end of the income's
      bracket up to the income, each extra dollar costs exactly that rate. */
  lemma TopDollarRate(income: real, t: seq<Bracket>) returns (floor: real)
    requires WellFormed(t) && 0.0 < income
    ensures 0.0 <= floor < income
    ensures forall x :: floor < x <= income ==>
      ProgressiveTax(x, t) == ProgressiveTax(floor, t) + (x - floor) * MarginalRate(income, t)
  {
    var k := ContainingBracket(income, t);
    floor := Lower(t, k);
    if k > 0 {
      LowerFromAbove(0.0, t, k);
    }
    MarginalRateOfBracket(income, t, k);
    forall x | floor < x <= income
      ensures ProgressiveTax(x, t) == ProgressiveTax(floor, t) + (x - floor) * MarginalRate(income, t)
    {
      assert Within(x, t[k].limit);
      Partition(x, t, k);
    }
  }

  // ---------------------------------------------------------------------
  // A table without an unbounded top bracket

  /** Every bound is finite and they strictly increase from `lo`. */
  predicate FiniteIncreasingFrom(lo: real, t: seq<Bracket>)
    decreases |t|
  {
    |t| > 0 && t[0].limit.Finite? && lo < t[0].limit.value &&
    (|t| == 1 || FiniteIncreasingFrom(t[0].limit.value, t[1..]))
  }

  /** The last (largest) bound of such a table. */
  function TopBound(lo: real, t: seq<Bracket>): real
    requires FiniteIncreasingFrom(lo, t)
    decreases |t|
  {
    if |t| == 1 then t[0].limit.value else TopBound(t[0].limit.value, t[1..])
  }

  lemma {:induction false} TruncatedTableIgnoresExcessFrom(income: real, lo: real, t: seq<Bracket>)
    requires FiniteIncreasingFrom(lo, t) && income >= TopBound(lo, t)
    ensures TaxFrom(income, Finite(lo), t) == TaxFrom(TopBound(lo, t), Finite(lo), t)
    decreases |t|
  {
    BoundsIncrease(lo, t);
    if |t| > 1 {
      TruncatedTableIgnoresExcessFrom(income, t[0].limit.value, t[1..]);
    }
  }

  lemma {:induction false} BoundsIncrease(lo: real, t: seq<Bracket>)
    requires FiniteIncreasingFrom(lo, t)
    ensures lo < t[0].limit.value <= TopBound(lo, t)
    decreases |t|
  {
    if |t| > 1 {
      BoundsIncrease(t[0].limit.value, t[1..]);
    }
  }

  /** Without an unbounded final bracket, income above the last bound is not
      taxed at all: the tax stays what it is at the last bound. */
  lemma TruncatedTableIgnoresExcess(income: real, t: seq<Bracket>)
    requires FiniteIncreasingFrom(0.0, t) && income >= TopBound(0.0, t)
    ensures ProgressiveTax(income, t) == ProgressiveTax(TopBound(0.0, t), t)
  {
    TruncatedTableIgnoresExcessFrom(income, 0.0, t);
  }
}
