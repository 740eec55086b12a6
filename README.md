# Income tax engine (AY 2025-26 calculator) in Dafny

This project models the tax engine of a single-page Indian income tax
calculator. For each of the two regimes ("old", with deductions and tables
chosen by age category, and "new", on gross income) the engine:

1. walks a progressive slab table and records one breakdown entry per band;
2. subtracts the Section 87A rebate;
3. adds a surcharge tiered by income band;
4. caps tax plus surcharge by marginal relief;
5. adds the 4% health and education cess.

It then recommends the regime with the smaller tax payable.

Modules:

- `TaxSlabs` (`slabs.dfy`) holds the slab tables, with the unbounded top slab
  written as `Limit.Unbounded`. `CalculateTax` is the imperative slab loop,
  proved against the functional `Breakdown`/`Total`. The lemmas prove the
  breakdown's shape, its non-negativity, agreement with a band-by-band
  reference `BandwiseTax`, monotonicity, seven worked values and the closed
  form of the old-regime top band for an assessee below 60.
- `TaxAdjustments` (`adjustments.dfy`) holds the rebate, the surcharge and
  marginal relief. `ApplyMarginalRelief` is the imperative threshold loop with
  its early return, proved against `MarginalRelief`.
- `TaxPipeline` (`pipeline.dfy`) holds the deduction total, the taxable income
  of each regime, the per-regime assessment and the recommendation.
- `ReliefFinding` (`relief_finding.dfy`) sets the calculator's marginal relief
  against the rule it is meant to enforce (see "## Findings"). It exhibits two
  incomes where the code breaks the rule. It also defines relief as intended,
  `Relieved`, and proves the rule for it at every income.

Incomes, limits and deductions are whole rupees (`int`). Tax amounts are exact
`real`s, and the rates are exact decimal fractions.

Where a description of the engine and its code could disagree, the model follows the code:

- **Marginal relief.** The loop is easily read as letting the last exceeded
  threshold decide the result, with each iteration overwriting it. It does
  not: `apply_marginal_relief` returns as soon as it finds the first
  threshold, in ascending order, that the income exceeds and whose ceiling is
  violated. `ReliefFrom` and `ApplyMarginalRelief` model that early return.
  The threshold table's rates (tax_calculator.py:73-78) are never read by
  relief. The model keeps them and proves that they match the surcharge bands
  (`SurchargeFollowsThresholds`).
- **What relief guarantees.** `ReliefBoundedByExcess` is a bound at a single
  income: it compares the relieved amount with the post-rebate tax at the
  same income. It does not compare two incomes, and the code does not keep
  tax growth past a threshold within the income growth (see "## Findings").

## Model

| member | source | states |
|---|---|---|
| TaxSlabs.CalculateTax | tax_calculator.py:35-52 | The loop returns exactly the breakdown `Breakdown(income, slabs)` (full bands while the income exceeds the limit, then the remainder, then stop), and the returned tax is the sum of the breakdown amounts. |
| TaxSlabs.BreakdownShape | tax_calculator.py:35-52 | On a table that ends with an unbounded slab, the breakdown has between 1 and as many entries as the table has slabs. Every slab before the last entry is exceeded and the last one is not, so the walk stops at the first limit ≥ income. The entries are contiguous from 0 and the last ends at the income. Each entry has its slab's rate, and its amount is that rate times its width. |
| TaxSlabs.ZeroIncome | tax_calculator.py:36-51 | Income 0 gives exactly one entry, `(0, 0, first rate, 0)`, and tax 0. |
| TaxSlabs.SegmentsNonNegative | tax_calculator.py:39-51 | For income ≥ 0 on a valid table, every entry has lower ≤ upper and a non-negative amount. |
| TaxSlabs.SlabTaxIsBandwise | tax_calculator.py:35-52 | For income ≥ 0 the slab tax equals an independent reference: the sum over all bands of rate × the part of the income inside the band. |
| TaxSlabs.SlabTaxMonotone | tax_calculator.py:35-52 | A larger non-negative income never yields less slab tax. |
| TaxSlabs.SlabTaxNonNegative | tax_calculator.py:35-52 | The slab tax of a non-negative income is non-negative. |
| TaxSlabs.TablesValid | tax_calculator.py:6-33 | Every old-regime table and the new-regime table have non-negative rates, strictly increasing positive limits and an unbounded last slab. |
| TaxSlabs.OldBelow60At500000 | tax_calculator.py:7-12 | Old regime, age below 60, income 500,000: breakdown `[0 on (0,250000], 12,500 on (250000,500000]]`, tax 12,500. |
| TaxSlabs.Old60To79At500000 | tax_calculator.py:13-18 | Old regime, age 60-79, income 500,000: tax 10,000 (5% of 200,000). |
| TaxSlabs.Old80At500000 | tax_calculator.py:19-23 | Old regime, age 80+, income 500,000: tax 0 (all within the exempt band). |
| TaxSlabs.OldBelow60At525000 | tax_calculator.py:7-12 | Old regime, age below 60, income 525,000: tax 12,500 + 5,000 = 17,500. |
| TaxSlabs.OldBelow60TopBand | tax_calculator.py:7-12 | Old regime, age below 60, any income above 1,000,000: tax 112,500 + 30% of the income above 1,000,000. |
| TaxSlabs.NewAt700000 | tax_calculator.py:26-33 | New regime, income 700,000: tax 15,000 + 10,000 = 25,000, exactly the new-regime rebate cap. |
| TaxSlabs.NewAt800000 | tax_calculator.py:26-33 | New regime, income 800,000: tax 15,000 + 20,000 = 35,000. |
| TaxSlabs.NewAt1200000 | tax_calculator.py:26-33 | New regime, income 1,200,000: breakdown 0 + 15,000 + 30,000 + 45,000, tax 90,000. |
| TaxAdjustments.Rebate87A | tax_calculator.py:54-59 | Up to the regime's income limit (old 500,000, new 700,000), the rebate is the smaller of the tax and the regime's cap (12,500 or 25,000). Above the limit it is 0. For a non-negative tax it lies in [0, tax], so the tax after rebate is never negative. |
| TaxAdjustments.Surcharge | tax_calculator.py:61-70 | The surcharge is 0 up to 5,000,000 inclusive. For a non-negative base it is between 0 and 37% of the base. |
| TaxAdjustments.SurchargeFollowsThresholds | tax_calculator.py:61-78 | The surcharge is the base times the rate of the highest threshold exceeded: 10%, 15%, 25% or 37% on (5M,10M], (10M,20M], (20M,50M] and (50M,∞). |
| TaxAdjustments.ApplyMarginalRelief | tax_calculator.py:72-85 | The threshold loop with its early return computes exactly `MarginalRelief`. |
| TaxAdjustments.MarginalReliefSpec | tax_calculator.py:72-85 | If no threshold caps the tax, the result is base + surcharge. Otherwise it is base + (income − t) for the lowest threshold t that is exceeded and whose ceiling is violated. The result is always ≤ base + surcharge, and ≥ base whenever the surcharge ≥ 0. |
| TaxAdjustments.NoReliefUpTo5000000 | tax_calculator.py:79-85 | At an income ≤ 5,000,000 relief returns base + surcharge unchanged. |
| TaxAdjustments.ReliefBoundedByExcess | tax_calculator.py:79-85 | Above 5,000,000 the relieved amount exceeds the base tax by at most the income above 5,000,000. |
| TaxAdjustments.ReliefInFirstBand | tax_calculator.py:61-85 | For income in (5M, 10M] with the surcharge the calculator computes, the relieved amount is min(1.1 × base, base + income − 5,000,000). |
| TaxPipeline.OldTaxable | tax_calculator.py:113-115 | Old-regime taxable income is `max(0, income − (50,000 + 80C + 80D + NPS + HRA))`. It is ≥ 0 and ≥ income − deductions, and it equals one of the two. |
| TaxPipeline.AssessBounds | tax_calculator.py:118-134 | For taxable ≥ 0 on a valid table, the stages satisfy: tax = sum of breakdown ≥ 0; 0 ≤ rebate ≤ tax; surcharge ≥ 0; post-rebate tax ≤ relieved ≤ post-rebate tax + surcharge; cess = 4% of the relieved amount; tax payable ≥ 0. |
| TaxPipeline.Recommend | tax_calculator.py:140 | The old regime is chosen if and only if its tax ≤ the new regime's, so a tie goes to the old regime. The amount returned is the minimum and belongs to the chosen regime. |
| TaxPipeline.Evaluate | tax_calculator.py:113-140 | The old regime is assessed on the clamped income less deductions with the age table, and the new regime on the gross income with the new table. The payable is the chosen regime's own final tax and is ≤ both. The old regime is recommended if and only if it is not dearer. |
| TaxPipeline.EvaluateNonNegative | tax_calculator.py:113-140 | For any inputs, negative ones included, neither regime's tax payable is negative, and neither is the recommended payable. |
| TaxPipeline.OldRegimeNoTaxUpTo500000 | tax_calculator.py:118-134 | For every age category, an old-regime taxable income in [0, 500,000] leaves 0 tax payable after rebate, surcharge, relief and cess. |
| TaxPipeline.NewRegimeNoTaxUpTo700000 | tax_calculator.py:119-134 | A new-regime taxable income ≤ 700,000 leaves 0 tax payable. |
| TaxPipeline.OldRegimeExample | tax_calculator.py:118-134 | Old regime, below 60, taxable 500,000: tax 12,500, rebate 12,500, payable 0. |
| TaxPipeline.NewRegimeExample | tax_calculator.py:119-134 | New regime, taxable 1,200,000: tax 90,000, no rebate, no surcharge, payable 93,600. |
| TaxPipeline.DefaultFormExample | tax_calculator.py:101-140 | With the form's default inputs, old taxable is 525,000 and payable 18,200, and new taxable is 800,000 and payable 36,400. The old regime is recommended at 18,200. |
| ReliefFinding.AsWrittenOvershootsAt5000000 | tax_calculator.py:79-84 | As written, old regime below 60: tax plus surcharge is 1,312,500 at 5,000,000 and 1,312,501.3 at 5,000,001, so it grows by more than the one rupee of income. The final tax grows from 1,365,000 to 1,365,001.352. |
| ReliefFinding.AsWrittenDropsAt10000000 | tax_calculator.py:79-84 | As written, old regime below 60: the final tax is 3,217,500 at 10,000,000 and 2,925,001.352 at 10,000,001, so one more rupee of income lowers the tax. |
| ReliefFinding.IndexBelow | tax_calculator.py:73-79 | The highest threshold strictly below an income above 5,000,000; every higher threshold is at or above the income. |
| ReliefFinding.ReliefOf | tax_calculator.py:79-85 | Relief as intended over any unrelieved schedule: it never exceeds the unrelieved amount, and up to 5,000,000 it equals it. |
| ReliefFinding.ReliefOfCapsGrowth | tax_calculator.py:79-85 | For every schedule, income and threshold below that income, the relieved amount exceeds the relieved amount at the threshold by at most the income above the threshold. |
| ReliefFinding.RelievedCapsGrowth | tax_calculator.py:79-85 | For the calculator's own schedule, past any threshold, tax plus surcharge grows by at most the income above it and never exceeds the unrelieved amount. The final tax grows by at most 1.04 × that income. |
| ReliefFinding.RelievedAt5000001 | tax_calculator.py:79-84 | Relief as intended, old regime below 60: 1,312,500 at 5,000,000 and 1,312,501 at 5,000,001. |
| ReliefFinding.RelievedAt10000001 | tax_calculator.py:79-84 | Relief as intended, old regime below 60: 3,093,750 at 10,000,000 and 3,093,751 at 10,000,001, so there is no drop. |

## Findings

| source | as written | input that shows it | evidently intended | confidence | as-written member | corrected member |
|---|---|---|---|---|---|---|
| tax_calculator.py:79-84 | The ceiling is `base_tax + excess`, where `base_tax` is the tax at the current income, so relief does not limit growth past a threshold. In the 15% band it can also cap the tax below the amount due at 10,000,000. | Old regime, age below 60: income 5,000,001 (final tax up 1.352 for one rupee) and income 10,000,001 (final tax down about 292,498) | Tax plus surcharge above a threshold is at most the relieved amount due at that threshold plus the income above it | high, not executed | ReliefFinding.AsWrittenOvershootsAt5000000, ReliefFinding.AsWrittenDropsAt10000000 | ReliefFinding.RelievedCapsGrowth |

`Assess`, `Evaluate` and `ApplyMarginalRelief` keep the calculator's relief as
written. The corrected `Relieved` stands beside them and is not used by the pipeline.

## Left out

- The Streamlit form, metrics, success message and page layout (tax_calculator.py:94-112, 136-141) are presentation. `Declaration` takes their values as plain parameters.
- The widgets' `max_value` limits on 80C, 80D and NPS are not modelled. No `min_value` is set, so negative entries are possible, and the pipeline accepts any integer inputs.
- `display_breakdown` (tax_calculator.py:87-92) is pandas and Streamlit charting.
- The `₹…` range labels and the `:,.2f` money formatting are presentation. A breakdown entry keeps the bounds `(lower, upper]` instead of the label, which shows `lower + 1`. The source's breakdown tuple stores the rate as a percentage (`rate * 100`); `Entry` stores the plain fraction.
- IEEE floating-point rounding of `* rate` and `* 1.04` is not modelled: all arithmetic is exact. The infinite last limit `float('inf')` becomes `Limit.Unbounded`.
- Regime and age values outside "old"/"new" and the three age labels never reach the engine. They are enums here.
