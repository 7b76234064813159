/** The simplified New Jersey refund estimate: a flat 4% of total household
    income, less the New York tax the spouse paid as a credit, floored at 0;
    the refund is NJ withholding minus that liability, and a refund above 80%
    of the withholding is reported as a "massive" refund. */
module FlatEstimator {
  import opened Arith

  const FlatRate: real := 0.04

  /** Share of NJ withholding a refund must exceed to be called massive. */
  const MassiveShare: real := 0.8

  datatype Estimate = Estimate(
    taxBeforeCredit: real,
    nyCredit: real,
    liability: real,
    refund: real,
    massiveRefund: bool)

  /** `totalIncome`, `njWithholding` and `nyTax` are the form's "Total
      Household Income", "NJ Withholding" and "NY State Tax" fields, each at
      least 0. */
  function Audit(totalIncome: real, njWithholding: real, nyTax: real): (e: Estimate)
    requires totalIncome >= 0.0 && njWithholding >= 0.0 && nyTax >= 0.0
    ensures e.taxBeforeCredit == FlatRate * totalIncome && e.nyCredit == nyTax
    ensures 0.0 <= e.liability <= FlatRate * totalIncome
    ensures e.liability >= FlatRate * totalIncome - nyTax
    ensures e.liability == 0.0 || e.liability == FlatRate * totalIncome - nyTax
    ensures e.refund == njWithholding - e.liability && e.refund <= njWithholding
    ensures e.massiveRefund <==> e.refund > MassiveShare * njWithholding
  {
    var taxBeforeCredit := totalIncome * FlatRate;
    var nyCredit := nyTax;
    var liability := Max(0.0, taxBeforeCredit - nyCredit);
    var refund := njWithholding - liability;
    Estimate(taxBeforeCredit, nyCredit, liability, refund, refund > njWithholding * MassiveShare)
  }

  /** When the NY payment covers the flat NJ tax, nothing is owed and all NJ
      withholding comes back. */
  lemma CreditCoversTax(totalIncome: real, njWithholding: real, nyTax: real)
    requires totalIncome >= 0.0 && njWithholding >= 0.0 && nyTax >= 0.0
    requires nyTax >= FlatRate * totalIncome
    ensures Audit(totalIncome, njWithholding, nyTax).liability == 0.0
    ensures Audit(totalIncome, njWithholding, nyTax).refund == njWithholding
  {
  }

  /** The refund is massive exactly when there is NJ withholding and the flat
      tax net of the NY credit is below a fifth of it. */
  lemma MassiveRefundIff(totalIncome: real, njWithholding: real, nyTax: real)
    requires totalIncome >= 0.0 && njWithholding >= 0.0 && nyTax >= 0.0
    ensures Audit(totalIncome, njWithholding, nyTax).massiveRefund
        <==> njWithholding > 0.0 && FlatRate * totalIncome - nyTax < (1.0 - MassiveShare) * njWithholding
  {
  }

  /** Paying more NY tax never shrinks the refund; earning more never grows it. */
  lemma RefundMonotone(income1: real, income2: real, njWithholding: real, nyTax1: real, nyTax2: real)
    requires 0.0 <= income1 <= income2 && njWithholding >= 0.0 && 0.0 <= nyTax1 <= nyTax2
    ensures Audit(income2, njWithholding, nyTax1).refund <= Audit(income1, njWithholding, nyTax2).refund
  {
  }
}
