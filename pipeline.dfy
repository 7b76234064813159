/** The household calculation: federal tax with the state-and-local-tax cap,
    itemized or standard deduction and the child tax credit; New Jersey tax
    on NJ gross income; New York tax on the spouse's NY wages; and the New
    Jersey resident credit for the tax paid to New York. Each stage ends in a
    balance, withholding minus final liability (positive is a refund). */
module Pipeline {
  import opened Arith
  import opened Brackets
  import opened Law
  import opened ChildCredit

  /** The first earner (the New Jersey worker). */
  datatype Taxpayer = Taxpayer(wages: real, fedWithholding: real, njWages: real, njWithholding: real)

  /** The second earner (the New York worker) of a joint return. */
  datatype Spouse = Spouse(wages: real, fedWithholding: real, nyWages: real, nyWithholding: real)

  const NoSpouse: Spouse := Spouse(0.0, 0.0, 0.0, 0.0)

  datatype Household = Household(
    status: FilingStatus,
    taxpayer: Taxpayer,
    spouse: Spouse,
    interestIncome: real,
    capitalGains: real,
    mortgageInterest: real,
    propertyTax: real,
    numChildren: nat)

  /** What the input form guarantees: every amount is at least 0, there are
      at most 10 children, and a single filer has no spouse amounts. */
  predicate ValidHousehold(h: Household) {
    && h.taxpayer.wages >= 0.0 && h.taxpayer.fedWithholding >= 0.0
    && h.taxpayer.njWages >= 0.0 && h.taxpayer.njWithholding >= 0.0
    && h.spouse.wages >= 0.0 && h.spouse.fedWithholding >= 0.0
    && h.spouse.nyWages >= 0.0 && h.spouse.nyWithholding >= 0.0
    && h.interestIncome >= 0.0 && h.capitalGains >= 0.0
    && h.mortgageInterest >= 0.0 && h.propertyTax >= 0.0
    && h.numChildren <= 10
    && (h.status == Single ==> h.spouse == NoSpouse)
  }

  // ---------------------------------------------------------------------
  // Federal

  datatype FederalResult = FederalResult(
    agi: real,
    saltDeduction: real,
    itemized: real,
    standard: real,
    deductionUsed: real,
    taxableIncome: real,
    tax: real,
    childCredit: real,
    finalTax: real,
    withholding: real,
    balance: real,
    marginalRate: real)

  function Federal(h: Household): (r: FederalResult)
    requires ValidHousehold(h)
    ensures r.agi == h.taxpayer.wages + h.spouse.wages + h.interestIncome + h.capitalGains
    ensures 0.0 <= r.saltDeduction <= SaltCap
    ensures r.saltDeduction <= h.propertyTax + h.taxpayer.njWithholding + h.spouse.nyWithholding
    ensures r.saltDeduction == SaltCap || r.saltDeduction == h.propertyTax + h.taxpayer.njWithholding + h.spouse.nyWithholding
    ensures r.itemized == h.mortgageInterest + r.saltDeduction
    ensures r.standard == FederalStandardDeduction(h.status)
    ensures r.deductionUsed >= r.standard && r.deductionUsed >= r.itemized
    ensures r.deductionUsed == r.standard || r.deductionUsed == r.itemized
    ensures 0.0 <= r.taxableIncome <= r.agi && r.taxableIncome >= r.agi - r.deductionUsed
    ensures r.taxableIncome == 0.0 || r.taxableIncome == r.agi - r.deductionUsed
    ensures r.tax == ProgressiveTax(r.taxableIncome, FederalBrackets(h.status)) && r.tax >= 0.0
    ensures r.childCredit == ChildTaxCredit(r.agi, h.status, h.numChildren)
    ensures 0.0 <= r.finalTax <= r.tax && r.finalTax >= r.tax - r.childCredit
    ensures r.finalTax == 0.0 || r.finalTax == r.tax - r.childCredit
    ensures r.withholding == h.taxpayer.fedWithholding + h.spouse.fedWithholding
    ensures r.balance == r.withholding - r.finalTax
    ensures r.marginalRate == MarginalRate(r.taxableIncome, FederalBrackets(h.status))
  {
    var agi := h.taxpayer.wages + h.spouse.wages + h.interestIncome + h.capitalGains;
    var saltUncapped := h.propertyTax + h.taxpayer.njWithholding + h.spouse.nyWithholding;
    var saltDeduction := Min(saltUncapped, SaltCap);
    var itemized := h.mortgageInterest + saltDeduction;
    var standard := FederalStandardDeduction(h.status);
    var deductionUsed := Max(itemized, standard);
    var taxableIncome := Max(0.0, agi - deductionUsed);
    var brackets := FederalBrackets(h.status);
    var tax := ProgressiveTax(taxableIncome, brackets);
    var childCredit := ChildTaxCredit(agi, h.status, h.numChildren);
    var finalTax := Max(0.0, tax - childCredit);
    var withholding := h.taxpayer.fedWithholding + h.spouse.fedWithholding;
    TablesWellFormed(h.status);
    NonNegative(taxableIncome, brackets);
    FederalResult(agi, saltDeduction, itemized, standard, deductionUsed, taxableIncome, tax,
                  childCredit, finalTax, withholding, withholding - finalTax,
                  MarginalRate(taxableIncome, brackets))
  }

  // ---------------------------------------------------------------------
  // New York (the spouse's work state)

  datatype NyResult = NyResult(taxable: real, tax: real, balance: real)

  function NewYork(h: Household): (r: NyResult)
    requires ValidHousehold(h)
    ensures 0.0 <= r.taxable <= h.spouse.nyWages
    ensures r.taxable == Max(0.0, h.spouse.nyWages - NyStandardDeduction(h.status))
    ensures r.tax == ProgressiveTax(r.taxable, NyBrackets()) && r.tax >= 0.0
    ensures r.balance == h.spouse.nyWithholding - r.tax
  {
    var taxable := Max(0.0, h.spouse.nyWages - NyStandardDeduction(h.status));
    var tax := ProgressiveTax(taxable, NyBrackets());
    TablesWellFormed(h.status);
    NonNegative(taxable, NyBrackets());
    NyResult(taxable, tax, h.spouse.nyWithholding - tax)
  }

  // ---------------------------------------------------------------------
  // New Jersey (the home state) and its resident credit

  /** The share of NJ gross income that is NY wages; 0 when NJ gross income
      is not positive, so nothing is divided by 0. */
  function CreditRatio(nyWages: real, njGross: real): (q: real)
    ensures njGross <= 0.0 ==> q == 0.0
    ensures njGross > 0.0 ==> q * njGross == nyWages
    ensures nyWages >= 0.0 ==> q >= 0.0
  {
    if njGross > 0.0 then nyWages / njGross else 0.0
  }

  datatype CreditResult = CreditResult(ceiling: real, credit: real, finalTax: real)

  /** The resident credit: the ceiling is the ratio's share of the NJ tax,
      the credit is the smaller of the NY tax and the ceiling, and NJ tax
      after the credit is floored at 0. */
  function ResidentCredit(nyTax: real, njTax: real, ratio: real): (c: CreditResult)
    ensures c.ceiling == njTax * ratio
    ensures c.credit <= nyTax && c.credit <= c.ceiling
    ensures c.credit == nyTax || c.credit == c.ceiling
    ensures njTax >= 0.0 && ratio >= 0.0 ==> c.ceiling >= 0.0
    ensures nyTax >= 0.0 && njTax >= 0.0 && ratio >= 0.0 ==> c.credit >= 0.0
    ensures c.finalTax >= 0.0 && c.finalTax >= njTax - c.credit
    ensures c.finalTax == 0.0 || c.finalTax == njTax - c.credit
    ensures njTax >= 0.0 && c.credit >= 0.0 ==> c.finalTax <= njTax
  {
    var ceiling := njTax * ratio;
    var credit := Min(nyTax, ceiling);
    CreditResult(ceiling, credit, Max(0.0, njTax - credit))
  }

  datatype NjResult = NjResult(
    grossIncome: real,
    deductions: real,
    taxable: real,
    taxBeforeCredit: real,
    creditRatio: real,
    creditCeiling: real,
    residentCredit: real,
    finalTax: real,
    balance: real)

  /** NJ gross income counts the spouse's federal wages (not the NY wages);
      NJ deductions are a fixed 2000, the personal exemption once per child,
      and property tax up to its cap. */
  function NewJersey(h: Household): (r: NjResult)
    requires ValidHousehold(h)
    ensures r.grossIncome == h.taxpayer.njWages + h.spouse.wages + h.interestIncome + h.capitalGains
    ensures r.deductions == 2000.0 + h.numChildren as real * NjPersonalExemption + Min(h.propertyTax, NjPropertyTaxCap)
    ensures 0.0 <= r.taxable <= r.grossIncome && r.taxable >= r.grossIncome - r.deductions
    ensures r.taxable == 0.0 || r.taxable == r.grossIncome - r.deductions
    ensures r.taxBeforeCredit == ProgressiveTax(r.taxable, NjBrackets()) && r.taxBeforeCredit >= 0.0
    ensures r.grossIncome <= 0.0 ==> r.creditRatio == 0.0
    ensures r.creditRatio >= 0.0
    ensures r.creditRatio == CreditRatio(h.spouse.nyWages, r.grossIncome)
    ensures ResidentCredit(NewYork(h).tax, r.taxBeforeCredit, r.creditRatio)
         == CreditResult(r.creditCeiling, r.residentCredit, r.finalTax)
    ensures 0.0 <= r.residentCredit <= r.creditCeiling
    ensures 0.0 <= r.residentCredit <= NewYork(h).tax
    ensures 0.0 <= r.finalTax <= r.taxBeforeCredit
    ensures r.balance == h.taxpayer.njWithholding - r.finalTax
  {
    var gross := h.taxpayer.njWages + h.spouse.wages + h.interestIncome + h.capitalGains;
    var deductions := 2000.0 + h.numChildren as real * NjPersonalExemption + Min(h.propertyTax, NjPropertyTaxCap);
    var taxable := Max(0.0, gross - deductions);
    var taxRaw := ProgressiveTax(taxable, NjBrackets());
    TablesWellFormed(h.status);
    NonNegative(taxable, NjBrackets());
    var ratio := CreditRatio(h.spouse.nyWages, gross);
    var c := ResidentCredit(NewYork(h).tax, taxRaw, ratio);
    NjResult(gross, deductions, taxable, taxRaw, ratio, c.ceiling, c.credit, c.finalTax,
             h.taxpayer.njWithholding - c.finalTax)
  }

  datatype Report = Report(federal: FederalResult, nj: NjResult, ny: NyResult)

  /** The whole calculation, in the order the three stages are shown. */
  function Evaluate(h: Household): (r: Report)
    requires ValidHousehold(h)
    ensures r.federal.balance == r.federal.withholding - r.federal.finalTax
    ensures r.nj.balance == h.taxpayer.njWithholding - r.nj.finalTax
    ensures r.ny.balance == h.spouse.nyWithholding - r.ny.tax
    ensures 0.0 <= r.nj.residentCredit <= r.ny.tax
    ensures r.nj.finalTax >= r.nj.taxBeforeCredit - r.ny.tax
  {
    Report(Federal(h), NewJersey(h), NewYork(h))
  }

  // ---------------------------------------------------------------------
  // Properties relating stages and households

  /** A single filer has no NY wages, so no NY tax, no resident credit, and NJ
      tax after the credit is the NJ tax before it. */
  lemma SingleFiler(h: Household)
    requires ValidHousehold(h) && h.status == Single
    ensures NewYork(h).tax == 0.0 && NewYork(h).balance == 0.0
    ensures NewJersey(h).creditRatio == 0.0 && NewJersey(h).residentCredit == 0.0
    ensures NewJersey(h).finalTax == NewJersey(h).taxBeforeCredit
  {
    assert NewYork(h).taxable == 0.0;
  }

  /** When nothing is earned in a way NJ counts, there is no ratio to take,
      no NJ tax and no credit. */
  lemma NoNjGrossIncome(h: Household)
    requires ValidHousehold(h) && NewJersey(h).grossIncome <= 0.0
    ensures NewJersey(h).creditRatio == 0.0 && NewJersey(h).residentCredit == 0.0
    ensures NewJersey(h).taxBeforeCredit == 0.0 && NewJersey(h).finalTax == 0.0
  {
    assert NewJersey(h).taxable == 0.0;
  }

  /** What is left of `x` after taking the share `x * r` grows with `x` when
      `r <= 1`; when `r > 1` the share is more than `x` itself. */
  lemma ShareLeftOver(x1: real, x2: real, r: real)
    requires 0.0 <= x1 <= x2 && 0.0 <= r
    ensures r <= 1.0 ==> x1 - x1 * r <= x2 - x2 * r
    ensures r > 1.0 ==> x1 * r >= x1 && x2 * r >= x2
  {
    if r <= 1.0 {
      var d := x2 - x1;
      MulMonotone(0.0, 1.0 - r, d);
      assert (x2 - x2 * r) - (x1 - x1 * r) == d * (1.0 - r);
    } else {
      MulMonotone(1.0, r, x1);
      MulMonotone(1.0, r, x2);
    }
  }

  /** With the NY tax and the ratio fixed, a larger NJ tax before the credit
      never gives a smaller NJ tax after it, even when the ratio exceeds 1. */
  lemma CreditedTaxMonotone(nyTax: real, njTax1: real, njTax2: real, ratio: real)
    requires nyTax >= 0.0 && ratio >= 0.0 && 0.0 <= njTax1 <= njTax2
    ensures ResidentCredit(nyTax, njTax1, ratio).finalTax <= ResidentCredit(nyTax, njTax2, ratio).finalTax
  {
    ShareLeftOver(njTax1, njTax2, ratio);
  }

  /** Extra wages for the first earner never lower the federal tax due, even
      though they may shrink the child tax credit. */
  lemma FederalTaxMonotoneInWages(h: Household, extra: real)
    requires ValidHousehold(h) && extra >= 0.0
    ensures ValidHousehold(h.(taxpayer := h.taxpayer.(wages := h.taxpayer.wages + extra)))
    ensures Federal(h).finalTax
         <= Federal(h.(taxpayer := h.taxpayer.(wages := h.taxpayer.wages + extra))).finalTax
  {
    var h2 := h.(taxpayer := h.taxpayer.(wages := h.taxpayer.wages + extra));
    var r1, r2 := Federal(h), Federal(h2);
    assert r1.deductionUsed == r2.deductionUsed && r1.agi <= r2.agi;
    TablesWellFormed(h.status);
    Monotone(r1.taxableIncome, r2.taxableIncome, FederalBrackets(h.status));
    NonIncreasing(r1.agi, r2.agi, h.status, h.numChildren);
  }

  /** On a joint return, extra wages for the spouse never lower the federal
      tax due either. */
  lemma FederalTaxMonotoneInSpouseWages(h: Household, extra: real)
    requires ValidHousehold(h) && h.status == MarriedFilingJointly && extra >= 0.0
    ensures ValidHousehold(h.(spouse := h.spouse.(wages := h.spouse.wages + extra)))
    ensures Federal(h).finalTax
         <= Federal(h.(spouse := h.spouse.(wages := h.spouse.wages + extra))).finalTax
  {
    var h2 := h.(spouse := h.spouse.(wages := h.spouse.wages + extra));
    var r1, r2 := Federal(h), Federal(h2);
    assert r1.deductionUsed == r2.deductionUsed && r1.agi <= r2.agi;
    TablesWellFormed(h.status);
    Monotone(r1.taxableIncome, r2.taxableIncome, FederalBrackets(h.status));
    NonIncreasing(r1.agi, r2.agi, h.status, h.numChildren);
  }

  /** More mortgage interest never raises the federal tax due. */
  lemma FederalTaxNonIncreasingInMortgage(h: Household, extra: real)
    requires ValidHousehold(h) && extra >= 0.0
    ensures ValidHousehold(h.(mortgageInterest := h.mortgageInterest + extra))
    ensures Federal(h.(mortgageInterest := h.mortgageInterest + extra)).finalTax <= Federal(h).finalTax
  {
    var h2 := h.(mortgageInterest := h.mortgageInterest + extra);
    var r1, r2 := Federal(h), Federal(h2);
    assert r1.agi == r2.agi && r1.deductionUsed <= r2.deductionUsed;
    TablesWellFormed(h.status);
    Monotone(r2.taxableIncome, r1.taxableIncome, FederalBrackets(h.status));
  }

  /** More property tax never raises the NJ tax due after the resident
      credit: it deducts more, and the NY tax and the ratio stay the same. */
  lemma NjTaxNonIncreasingInPropertyTax(h: Household, extra: real)
    requires ValidHousehold(h) && extra >= 0.0
    ensures ValidHousehold(h.(propertyTax := h.propertyTax + extra))
    ensures NewJersey(h.(propertyTax := h.propertyTax + extra)).finalTax <= NewJersey(h).finalTax
  {
    var h2 := h.(propertyTax := h.propertyTax + extra);
    var r1, r2 := NewJersey(h), NewJersey(h2);
    assert NewYork(h2) == NewYork(h);
    assert r1.grossIncome == r2.grossIncome && r1.deductions <= r2.deductions;
    TablesWellFormed(h.status);
    Monotone(r2.taxable, r1.taxable, NjBrackets());
    CreditedTaxMonotone(NewYork(h).tax, r2.taxBeforeCredit, r1.taxBeforeCredit, r1.creditRatio);
  }

  /** NJ tax before credit 5000, NY tax 3000 and a 0.6 share of income from
      NY: the credit is 3000 and 2000 of NJ tax remains. */
  lemma ResidentCreditExample()
    ensures CreditRatio(60000.0, 100000.0) == 0.6
    ensures ResidentCredit(3000.0, 5000.0, 0.6) == CreditResult(3000.0, 3000.0, 2000.0)
  {
  }
}
