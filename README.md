# Household tax estimator: federal, New Jersey and New York

This project models the 2025 tax engine of a household estimator in Dafny. The household has two earners: a New Jersey worker and a spouse who works in New York. The engine covers:

- the progressive bracket evaluator and the marginal rate;
- the federal child tax credit with its step phase-out;
- the federal calculation: the state-and-local-tax (SALT) cap, itemized vs. standard deduction, taxable income, bracket tax, the credit and the refund or amount owed;
- New Jersey tax on NJ gross income;
- New York tax on the spouse's NY wages;
- the New Jersey resident credit for tax paid to New York;
- the separate flat-rate (4%) NJ refund estimator.

Money is `real`. The top bracket's `float("inf")` bound is the `Unbounded` constructor of `Brackets.Bound`. The form values are the fields of `Pipeline.Household`. The form's guarantees are the precondition `ValidHousehold`: every amount at least 0, at most 10 children, and no spouse amounts for a single filer.

Modules, one per component:

- `Brackets` (brackets.dfy): `calc_progressive_tax` and `get_marginal_rate`. Each is a method with a loop, proved against the recursive specification functions `ProgressiveTax` and `MarginalRate`. Beside them are lemmas about those functions: non-negativity, monotonicity, the bracket partition, coverage and the top-dollar rate.
- `Law` (law.dfy): the `LAW` constant tables, and the proof that every table is well formed.
- `ChildCredit` (child_credit.dfy): `calculate_ctc`.
- `Pipeline` (pipeline.dfy): the straight-line federal, NJ, NY and resident-credit computation as functions of the household.
- `FlatEstimator` (flat_estimator.dfy): the simplified estimator in `app.py`.
- `Arith` (arith.dfy): `min`, `max` and floor.

Behaviour of the code kept as written:

- The code never checks that a bracket table ends with an unbounded bracket: income above the last finite bound is simply not taxed (`Brackets.TruncatedTableIgnoresExcess`). The tables in use all end unbounded (`Law.TablesWellFormed`).
- NJ gross income counts the spouse's *federal* wages, not the NY wages (v2app.py:188). So the credit ratio can exceed 1, and `Pipeline.CreditedTaxMonotone` is proved for any non-negative ratio.
- The NJ personal exemption is taken once per child, and a fixed 2000 is added to NJ deductions (v2app.py:190-191).

## Model

| member | source | states |
|---|---|---|
| `Brackets.CalcProgressiveTax` | v2app.py:79-89 | the loop's result is the bracket sum `ProgressiveTax` for any table; it is 0 for a non-positive income |
| `Brackets.NonNegative` | v2app.py:79-89 | under a well-formed table (increasing bounds, unbounded top, rates at least 0) the tax is at least 0 |
| `Brackets.Monotone` | v2app.py:79-89 | under a well-formed table the tax is non-decreasing in income |
| `Brackets.Partition` | v2app.py:79-89 | an income in bracket k (above its lower end, within its bound) pays the tax at the lower end plus the bracket's rate on the excess |
| `Brackets.FirstBracket` | v2app.py:79-89 | an income from 0 up to the first bound pays the income times the first rate |
| `Brackets.ContainingBracket` | v2app.py:79-89 | every positive income lies in some bracket of a well-formed table |
| `Brackets.TruncatedTableIgnoresExcess` | v2app.py:82-88 | in a table whose bounds are all finite, income above the last bound adds no tax |
| `Brackets.GetMarginalRate` | v2app.py:92-98 | the loop's result is `MarginalRate`: the first bracket containing the income, otherwise the last rate |
| `Brackets.MarginalRateFirstContaining` | v2app.py:92-96 | the rate is that of the first bracket whose bound is at least the income |
| `Brackets.MarginalRateNoneContaining` | v2app.py:92-98 | when no bound is at least the income, the rate is the last bracket's rate |
| `Brackets.MarginalRateOfBracket` | v2app.py:92-98 | in a well-formed table an income in bracket k has rate k; an income equal to a bound gets the lower bracket's rate |
| `Brackets.TopDollarRate` | v2app.py:79-98 | for a positive income there is a lower end below it from which each extra dollar, up to the income, is taxed at exactly the marginal rate |
| `Law.TablesWellFormed` | v2app.py:10-72 | the federal (both statuses), NJ and NY tables are well formed |
| `Law.NjTaxOnHundredThousand` | v2app.py:45-53 | NJ tax on 100000 is 280 + 525 + 490 + 350 + 1105 = 2750 |
| `ChildCredit.ChildTaxCredit` | v2app.py:101-110 | the credit is between 0 and 2000 per child, and is the full amount at or below the status threshold |
| `ChildCredit.ReductionPerFullThousand` | v2app.py:105-110 | with AGI k full thousands above the threshold, the credit is max(0, base - 50k) |
| `ChildCredit.NonIncreasing` | v2app.py:101-110 | more AGI never raises the credit |
| `ChildCredit.ExhaustedIff` | v2app.py:101-110 | the credit is 0 exactly when there are no children or AGI is at least 40000 per child above the threshold |
| `Pipeline.Federal` | v2app.py:161-182 | SALT deduction is at most 10000 and at most the state and local taxes paid; the deduction used is the larger of itemized and standard; taxable income is max(0, AGI - deduction) and lies in [0, AGI]; the tax is at least 0; final tax is in [0, tax] and at least tax - credit; balance = withholding - final tax |
| `Pipeline.NewYork` | v2app.py:198-203 | NY taxable income is the spouse's NY wages less the NY standard deduction, floored at 0, and is at most those wages; NY tax is at least 0; NY balance = NY withholding - NY tax |
| `Pipeline.CreditRatio` | v2app.py:205-209 | the ratio is 0 when NJ gross income is not positive, otherwise ratio x NJ gross = NY wages; it is at least 0 |
| `Pipeline.ResidentCredit` | v2app.py:211-212 | the credit is at most the NY tax and at most the ceiling (NJ tax x ratio), equal to one of them, and at least 0 for non-negative inputs; NJ tax after it is at least 0 and at most NJ tax before it |
| `Pipeline.NewJersey` | v2app.py:188-214 | NJ gross income uses the spouse's federal wages; deductions = 2000 + 1000 per child + property tax capped at 15000; taxable income is in [0, gross]; ratio is 0 unless gross is positive; 0 <= credit <= min(NY tax, ceiling); 0 <= NJ final tax <= NJ tax before credit; balance = NJ withholding - final tax |
| `Pipeline.Evaluate` | v2app.py:161-215 | each stage's balance is its withholding minus its final liability; the NJ resident credit never exceeds NY tax; NJ tax after the credit is at least NJ tax before it less NY tax |
| `Pipeline.SingleFiler` | v2app.py:145 | a single filer owes no NY tax and gets no resident credit, and NJ tax after the credit equals NJ tax before it |
| `Pipeline.NoNjGrossIncome` | v2app.py:206-212 | with no NJ gross income the ratio, the credit and NJ tax are all 0 |
| `Pipeline.CreditedTaxMonotone` | v2app.py:211-212 | with the NY tax and any non-negative ratio fixed, a larger NJ tax before the credit never gives a smaller NJ tax after it |
| `Pipeline.FederalTaxMonotoneInWages` | v2app.py:161-177 | extra wages of the first earner never lower the federal final tax, although they may shrink the child credit |
| `Pipeline.FederalTaxMonotoneInSpouseWages` | v2app.py:161-177 | on a joint return, extra wages of the spouse never lower the federal final tax |
| `Pipeline.FederalTaxNonIncreasingInMortgage` | v2app.py:164-177 | extra mortgage interest never raises the federal final tax |
| `Pipeline.NjTaxNonIncreasingInPropertyTax` | v2app.py:188-212 | extra property tax never raises NJ tax after the resident credit |
| `Pipeline.ResidentCreditExample` | v2app.py:205-212 | NJ tax 5000, NY tax 3000, ratio 0.6: the credit is 3000 and NJ tax 2000 remains |
| `FlatEstimator.Audit` | app.py:33-42 | liability = max(0, 4% of income - NY tax) lies in [0, 4% of income]; refund = NJ withholding - liability <= NJ withholding; massive exactly when refund > 0.8 x NJ withholding |
| `FlatEstimator.CreditCoversTax` | app.py:33-38 | when the NY tax is at least 4% of income, the liability is 0 and the whole NJ withholding is refunded |
| `FlatEstimator.MassiveRefundIff` | app.py:42 | the refund is massive exactly when there is NJ withholding and 4% of income less the NY tax is below a fifth of it |
| `FlatEstimator.RefundMonotone` | app.py:33-38 | more NY tax never lowers the refund, and more income never raises it |

## Left out

- Page setup, titles, columns, widgets, captions and result rendering are left out (v2app.py:1-4, 117-155, 221-249; app.py:1-29, 40-53). They are I/O. The widget values are the inputs, and their bounds are `ValidHousehold` and the preconditions of `FlatEstimator.Audit`.
- Floating-point rounding is left out: all amounts are exact reals.
- The cap constants and caption strings in app.py:4-5, 19 and 25 are left out. They are only displayed.
- The two federal withholding fields of app.py (lines 17 and 23) are left out. They are read but never used.
- The unused `date` import and the unused `prev_limit` of `get_marginal_rate` are left out.
- Brackets.GetMarginalRate: requires a non-empty table. On an empty table the source's `brackets[-1]` raises an IndexError, and that error path is not modelled. Every call in the source passes a non-empty table.
- Rules that the code does not implement are not modelled: capital-loss netting and carryover, a phased-down SALT ceiling, AGI floors on medical and charitable deductions, and configurable investment-income treatment in the credit ratio.
