/** The 2025 federal, New Jersey and New York constants the engine reads:
    standard deductions, bracket tables, the child tax credit, the state and
    local tax cap, the New Jersey exemption and property tax cap. */
module Law {
  import opened Brackets

  datatype FilingStatus = Single | MarriedFilingJointly

  function FederalStandardDeduction(status: FilingStatus): real {
    match status
    case Single => 14600.0
    case MarriedFilingJointly => 29200.0
  }

  function FederalBrackets(status: FilingStatus): seq<Bracket> {
    match status
    case Single => [
      Bracket(Finite(11600.0), 0.10),
      Bracket(Finite(47150.0), 0.12),
      Bracket(Finite(100525.0), 0.22),
      Bracket(Finite(191950.0), 0.24),
      Bracket(Finite(243725.0), 0.32),
      Bracket(Finite(609350.0), 0.35),
      Bracket(Unbounded, 0.37)]
    case MarriedFilingJointly => [
      Bracket(Finite(23200.0), 0.10),
      Bracket(Finite(94300.0), 0.12),
      Bracket(Finite(201050.0), 0.22),
      Bracket(Finite(383900.0), 0.24),
      Bracket(Finite(487450.0), 0.32),
      Bracket(Finite(731200.0), 0.35),
      Bracket(Unbounded, 0.37)]
  }

  /** Child tax credit per qualifying child. */
  const ChildCreditPerChild: real := 2000.0

  /** AGI above which the child tax credit phases out. */
  function ChildCreditPhaseOut(status: FilingStatus): real {
    match status
    case Single => 200000.0
    case MarriedFilingJointly => 400000.0
  }

  /** Cap on the federal state-and-local-tax deduction. */
  const SaltCap: real := 10000.0

  function NjBrackets(): seq<Bracket> {
    [ Bracket(Finite(20000.0), 0.014),
      Bracket(Finite(50000.0), 0.0175),
      Bracket(Finite(70000.0), 0.0245),
      Bracket(Finite(80000.0), 0.035),
      Bracket(Finite(150000.0), 0.05525),
      Bracket(Finite(500000.0), 0.0637),
      Bracket(Unbounded, 0.0897)]
  }

  const NjPersonalExemption: real := 1000.0

  const NjPropertyTaxCap: real := 15000.0

  function NyStandardDeduction(status: FilingStatus): real {
    match status
    case Single => 8000.0
    case MarriedFilingJointly => 16050.0
  }

  function NyBrackets(): seq<Bracket> {
    [ Bracket(Finite(17150.0), 0.04),
      Bracket(Finite(23600.0), 0.045),
      Bracket(Finite(27900.0), 0.0525),
      Bracket(Finite(161550.0), 0.055),
      Bracket(Finite(323200.0), 0.06),
      Bracket(Unbounded, 0.0685)]
  }

  /** Every table in use is well formed: increasing finite bounds, an
      unbounded top bracket, no negative rate. */
  lemma TablesWellFormed(status: FilingStatus)
    ensures WellFormed(FederalBrackets(status))
    ensures WellFormed(NjBrackets())
    ensures WellFormed(NyBrackets())
  {
    var f := FederalBrackets(status);
    assert WellFormedFrom(f[5].limit.value, f[6..]);
    assert WellFormedFrom(f[4].limit.value, f[5..]);
    assert WellFormedFrom(f[3].limit.value, f[4..]);
    assert WellFormedFrom(f[2].limit.value, f[3..]);
    assert WellFormedFrom(f[1].limit.value, f[2..]);
    assert WellFormedFrom(f[0].limit.value, f[1..]);
    var nj := NjBrackets();
    assert WellFormedFrom(500000.0, nj[6..]);
    assert WellFormedFrom(150000.0, nj[5..]);
    assert WellFormedFrom(80000.0, nj[4..]);
    assert WellFormedFrom(70000.0, nj[3..]);
    assert WellFormedFrom(50000.0, nj[2..]);
    assert WellFormedFrom(20000.0, nj[1..]);
    var ny := NyBrackets();
    assert WellFormedFrom(323200.0, ny[5..]);
    assert WellFormedFrom(161550.0, ny[4..]);
    assert WellFormedFrom(27900.0, ny[3..]);
    assert WellFormedFrom(23600.0, ny[2..]);
    assert WellFormedFrom(17150.0, ny[1..]);
  }

  /** New Jersey tax on an income of 100000: 280 + 525 + 490 + 350 + 1105. */
  lemma NjTaxOnHundredThousand()
    ensures ProgressiveTax(100000.0, NjBrackets()) == 2750.0
  {
  }
}
