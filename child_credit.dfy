/** `calculate_ctc`: the federal child tax credit, 2000 per child, reduced by
    50 for every full 1000 of AGI above a threshold that depends on the
    filing status, and never below 0. */
module ChildCredit {
  import opened Arith
  import opened Law

  /** The credit before any phase-out. */
  function BaseCredit(numChildren: nat): real {
    numChildren as real * ChildCreditPerChild
  }

  function ChildTaxCredit(agi: real, status: FilingStatus, numChildren: nat): (r: real)
    ensures 0.0 <= r <= BaseCredit(numChildren)
    ensures agi <= ChildCreditPhaseOut(status) ==> r == BaseCredit(numChildren)
  {
    var base := BaseCredit(numChildren);
    var threshold := ChildCreditPhaseOut(status);
    if agi <= threshold then base
    else
      var excess := agi - threshold;
      var reduction := Floor(excess / 1000.0) as real * 50.0;
      Max(0.0, base - reduction)
  }

  /** The phase-out step: with AGI at least `k` full thousands, and fewer
      than `k + 1`, above the threshold, the credit is the base less 50 per
      full thousand, floored at 0. */
  lemma ReductionPerFullThousand(agi: real, status: FilingStatus, numChildren: nat, k: nat)
    requires ChildCreditPhaseOut(status) + 1000.0 * k as real <= agi
    requires agi < ChildCreditPhaseOut(status) + 1000.0 * (k + 1) as real
    ensures ChildTaxCredit(agi, status, numChildren) == Max(0.0, BaseCredit(numChildren) - 50.0 * k as real)
  {
    var threshold := ChildCreditPhaseOut(status);
    if agi > threshold {
      FloorUnique((agi - threshold) / 1000.0, k);
    }
  }

  /** More AGI never raises the credit. */
  lemma NonIncreasing(agi1: real, agi2: real, status: FilingStatus, numChildren: nat)
    requires agi1 <= agi2
    ensures ChildTaxCredit(agi2, status, numChildren) <= ChildTaxCredit(agi1, status, numChildren)
  {
    var threshold := ChildCreditPhaseOut(status);
    if agi1 > threshold {
      FloorMonotone((agi1 - threshold) / 1000.0, (agi2 - threshold) / 1000.0);
    }
  }

  /** The credit is used up exactly when there are no children or AGI is at
      least 40000 per child above the threshold. */
  lemma ExhaustedIff(agi: real, status: FilingStatus, numChildren: nat)
    ensures ChildTaxCredit(agi, status, numChildren) == 0.0
        <==> numChildren == 0 || agi >= ChildCreditPhaseOut(status) + 40000.0 * numChildren as real
  {
    var threshold := ChildCreditPhaseOut(status);
    if agi > threshold {
      var steps := Floor((agi - threshold) / 1000.0);
      assert steps >= 40 * numChildren <==> (agi - threshold) / 1000.0 >= (40 * numChildren) as real;
    }
  }
}
