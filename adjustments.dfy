/** The adjustments applied to the slab tax: the Section 87A rebate, the
    tiered surcharge and the marginal-relief cap on tax plus surcharge. */
module TaxAdjustments {

  datatype Regime = Old | New

  function MinReal(a: real, b: real): real { if a <= b then a else b }

  /** The taxable income up to which each regime grants the Section 87A rebate. */
  function RebateIncomeLimit(regime: Regime): int
  {
    match regime
    case Old => 500000
    case New => 700000
  }

  /** The largest Section 87A rebate each regime grants. */
  function RebateCap(regime: Regime): real
  {
    match regime
    case Old => 12500.0
    case New => 25000.0
  }

  /** The Section 87A rebate: up to the regime's income limit it is the tax
      itself or the regime's cap, whichever is smaller; above it, nothing. */
  function Rebate87A(income: int, tax: real, regime: Regime): (r: real)
    ensures income <= RebateIncomeLimit(regime) ==>
      r <= tax && r <= RebateCap(regime) && (r == tax || r == RebateCap(regime))
    ensures income > RebateIncomeLimit(regime) ==> r == 0.0
    ensures 0.0 <= tax ==> 0.0 <= r <= tax
  {
    if regime == Old && income <= 500000 then MinReal(tax, 12500.0)
    else if regime == New && income <= 700000 then MinReal(tax, 25000.0)
    else 0.0
  }

  /** A surcharge threshold: income strictly above `limit` pays `rate` of the tax. */
  datatype Threshold = Threshold(limit: int, rate: real)

  /** The surcharge thresholds in ascending order, as marginal relief walks them. */
  const Thresholds: seq<Threshold> :=
    [Threshold(5000000, 0.10), Threshold(10000000, 0.15),
     Threshold(20000000, 0.25), Threshold(50000000, 0.37)]

  /** The surcharge on `base`, at a rate chosen by the band of the income;
      each band excludes its lower bound and includes its upper bound. */
  function Surcharge(income: int, base: real): (s: real)
    ensures income <= 5000000 ==> s == 0.0
    ensures 0.0 <= base ==> 0.0 <= s <= base * 0.37
  {
    if 5000000 < income <= 10000000 then base * 0.10
    else if 10000000 < income <= 20000000 then base * 0.15
    else if 20000000 < income <= 50000000 then base * 0.25
    else if income > 50000000 then base * 0.37
    else 0.0
  }

  /** The rate of the highest threshold of `ts` that `income` exceeds, or 0. */
  function RateAbove(income: int, ts: seq<Threshold>): real
    decreases |ts|
  {
    if |ts| == 0 then 0.0
    else if income > ts[|ts| - 1].limit then ts[|ts| - 1].rate
    else RateAbove(income, ts[..|ts| - 1])
  }

  /** The surcharge bands agree with the threshold table: the surcharge is
      the rate of the highest threshold exceeded, applied to the base. */
  lemma SurchargeFollowsThresholds(income: int, base: real)
    ensures Surcharge(income, base) == base * RateAbove(income, Thresholds)
  {
    var ts := Thresholds;
    var below50M, below20M, below10M := ts[..3], ts[..2], ts[..1];
    assert below50M[..2] == below20M && below20M[..1] == below10M && below10M[..0] == [];
    assert ts[3].limit == 50000000 && below50M[2].limit == 20000000;
    assert below20M[1].limit == 10000000 && below10M[0].limit == 5000000;
    if income > 50000000 {
      assert RateAbove(income, ts) == 0.37;
    } else if income > 20000000 {
      assert RateAbove(income, ts) == RateAbove(income, below50M) == 0.25;
    } else if income > 10000000 {
      assert RateAbove(income, below50M) == RateAbove(income, below20M) == 0.15;
    } else if income > 5000000 {
      assert RateAbove(income, below50M) == RateAbove(income, below20M) == RateAbove(income, below10M) == 0.10;
    } else {
      assert RateAbove(income, below20M) == RateAbove(income, below10M) == RateAbove(income, []) == 0.0;
    }
  }

  /** Threshold `t` caps the tax: the income exceeds it and tax plus
      surcharge is more than the tax plus the income above the threshold. */
  predicate Capped(income: int, base: real, surcharge: real, t: Threshold)
  {
    income > t.limit && base + surcharge > base + (income - t.limit) as real
  }

  /** Marginal relief over the thresholds from index `i` on: the ceiling of
      the first threshold that caps the tax, or tax plus surcharge if none does. */
  function ReliefFrom(income: int, base: real, surcharge: real, i: nat): real
    decreases |Thresholds| - i
  {
    if i >= |Thresholds| then base + surcharge
    else if Capped(income, base, surcharge, Thresholds[i]) then base + (income - Thresholds[i].limit) as real
    else ReliefFrom(income, base, surcharge, i + 1)
  }

  function MarginalRelief(income: int, base: real, surcharge: real): real
  {
    ReliefFrom(income, base, surcharge, 0)
  }

  /** The relief loop: walks the thresholds in ascending order and returns
      the ceiling at the first one that caps the tax. */
  method ApplyMarginalRelief(income: int, base: real, surcharge: real) returns (r: real)
    ensures r == MarginalRelief(income, base, surcharge)
  {
    for i := 0 to |Thresholds|
      invariant ReliefFrom(income, base, surcharge, i) == MarginalRelief(income, base, surcharge)
    {
      var t := Thresholds[i];
      if income > t.limit {
        var excess := income - t.limit;
        var maxTax := base + excess as real;
        if base + surcharge > maxTax {
          return maxTax;
        }
      }
    }
    return base + surcharge;
  }

  lemma {:induction false} ReliefFromSpec(income: int, base: real, surcharge: real, i: nat)
    requires i <= |Thresholds|
    ensures (forall k :: i <= k < |Thresholds| ==> !Capped(income, base, surcharge, Thresholds[k])) ==>
      ReliefFrom(income, base, surcharge, i) == base + surcharge
    ensures forall k ::
      (i <= k < |Thresholds| && Capped(income, base, surcharge, Thresholds[k]) &&
       (forall j :: i <= j < k ==> !Capped(income, base, surcharge, Thresholds[j]))) ==>
      ReliefFrom(income, base, surcharge, i) == base + (income - Thresholds[k].limit) as real
    ensures ReliefFrom(income, base, surcharge, i) <= base + surcharge
    ensures 0.0 <= surcharge ==> base <= ReliefFrom(income, base, surcharge, i)
    decreases |Thresholds| - i
  {
    if i < |Thresholds| {
      ReliefFromSpec(income, base, surcharge, i + 1);
    }
  }

  /** Marginal relief returns tax plus surcharge when no threshold caps it,
      and otherwise the ceiling of the lowest threshold that does; the result
      never exceeds tax plus surcharge, and with a non-negative surcharge it
      is never below the tax. */
  lemma MarginalReliefSpec(income: int, base: real, surcharge: real)
    ensures (forall k :: 0 <= k < |Thresholds| ==> !Capped(income, base, surcharge, Thresholds[k])) ==>
      MarginalRelief(income, base, surcharge) == base + surcharge
    ensures forall k ::
      (0 <= k < |Thresholds| && Capped(income, base, surcharge, Thresholds[k]) &&
       (forall j :: 0 <= j < k ==> !Capped(income, base, surcharge, Thresholds[j]))) ==>
      MarginalRelief(income, base, surcharge) == base + (income - Thresholds[k].limit) as real
    ensures MarginalRelief(income, base, surcharge) <= base + surcharge
    ensures 0.0 <= surcharge ==> base <= MarginalRelief(income, base, surcharge)
  {
    ReliefFromSpec(income, base, surcharge, 0);
  }

  /** Up to 5,000,000 no threshold is exceeded and nothing is capped. */
  lemma NoReliefUpTo5000000(income: int, base: real, surcharge: real)
    requires income <= 5000000
    ensures MarginalRelief(income, base, surcharge) == base + surcharge
  {
    MarginalReliefSpec(income, base, surcharge);
  }

  /** Above 5,000,000, tax plus surcharge after relief exceeds the tax by at
      most the income above 5,000,000. */
  lemma ReliefBoundedByExcess(income: int, base: real, surcharge: real)
    requires income > 5000000
    ensures MarginalRelief(income, base, surcharge) - base <= (income - 5000000) as real
  {
    var t := Thresholds;
    if Capped(income, base, surcharge, t[0]) {
    } else if Capped(income, base, surcharge, t[1]) {
    } else if Capped(income, base, surcharge, t[2]) {
    } else if Capped(income, base, surcharge, t[3]) {
    }
    MarginalReliefSpec(income, base, surcharge);
  }

  /** In the first surcharge band the relieved amount is the smaller of the
      tax with its 10% surcharge and the tax plus the income above 5,000,000. */
  lemma ReliefInFirstBand(income: int, base: real)
    requires 5000000 < income <= 10000000 && 0.0 <= base
    ensures MarginalRelief(income, base, Surcharge(income, base)) ==
      MinReal(base + base * 0.10, base + (income - 5000000) as real)
  {
    MarginalReliefSpec(income, base, Surcharge(income, base));
    if Capped(income, base, Surcharge(income, base), Thresholds[0]) {
    } else {
      assert !Capped(income, base, Surcharge(income, base), Thresholds[1]);
    }
  }
}
