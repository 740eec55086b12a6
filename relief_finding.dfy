/** Marginal relief as the calculator computes it, against the rule it is
    meant to enforce: crossing a surcharge threshold never raises tax plus
    surcharge by more than the income gained above that threshold.

    The calculator's ceiling at a threshold is the post-rebate tax at the
    CURRENT income plus the income above the threshold. The rule measures
    from the tax at the threshold itself. The two lemmas below exhibit the
    difference on the old regime for an assessee below 60; `Relieved` is the
    rule as intended, with its growth bound proved for every income. */
module ReliefFinding {
  import opened TaxSlabs
  import opened TaxAdjustments
  import opened TaxPipeline

  /** As written: one rupee above 5,000,000 raises tax plus surcharge by
      1.30 (the 30% slab rate on that rupee plus the rupee itself), and the
      final tax by 1.352. */
  lemma AsWrittenOvershootsAt5000000()
    ensures Assess(5000000, OldSlabs(Below60), Old).relieved == 1312500.0
    ensures Assess(5000000, OldSlabs(Below60), Old).finalTax == 1365000.0
    ensures Assess(5000001, OldSlabs(Below60), Old).relieved == 1312501.3
    ensures Assess(5000001, OldSlabs(Below60), Old).finalTax == 1365001.352
    ensures Assess(5000001, OldSlabs(Below60), Old).relieved -
      Assess(5000000, OldSlabs(Below60), Old).relieved > (5000001 - 5000000) as real
  {
    OldBelow60TopBand(5000000);
    OldBelow60TopBand(5000001);
    assert SegmentTax(5000000 - 1000000, 0.3) == 1200000.0;
    assert SegmentTax(5000001 - 1000000, 0.3) == 1200000.3;
    NoReliefUpTo5000000(5000000, 1312500.0, 0.0);
    assert Capped(5000001, 1312500.3, 131250.03, Thresholds[0]);
  }

  /** As written: one rupee above 10,000,000 LOWERS the final tax by about
      292,498, because the 15% band is capped at its own post-rebate tax
      plus 1 rather than at the tax due at 10,000,000 plus 1. */
  lemma AsWrittenDropsAt10000000()
    ensures Assess(10000000, OldSlabs(Below60), Old).relieved == 3093750.0
    ensures Assess(10000000, OldSlabs(Below60), Old).finalTax == 3217500.0
    ensures Assess(10000001, OldSlabs(Below60), Old).relieved == 2812501.3
    ensures Assess(10000001, OldSlabs(Below60), Old).finalTax == 2925001.352
    ensures Assess(10000001, OldSlabs(Below60), Old).finalTax <
      Assess(10000000, OldSlabs(Below60), Old).finalTax
  {
    OldBelow60TopBand(10000000);
    OldBelow60TopBand(10000001);
    assert SegmentTax(10000000 - 1000000, 0.3) == 2700000.0;
    assert SegmentTax(10000001 - 1000000, 0.3) == 2700000.3;
    MarginalReliefSpec(10000000, 2812500.0, 281250.0);
    assert !Capped(10000000, 2812500.0, 281250.0, Thresholds[0]);
    assert !Capped(10000000, 2812500.0, 281250.0, Thresholds[1]);
    assert !Capped(10000000, 2812500.0, 281250.0, Thresholds[2]);
    assert !Capped(10000000, 2812500.0, 281250.0, Thresholds[3]);
    MarginalReliefSpec(10000001, 2812500.3, 421875.045);
    assert !Capped(10000001, 2812500.3, 421875.045, Thresholds[0]);
    assert Capped(10000001, 2812500.3, 421875.045, Thresholds[1]);
  }

  /** Tax plus surcharge after the rebate, before any relief. */
  function Unrelieved(income: int, slabs: seq<Slab>, regime: Regime): real
  {
    var a := Assess(income, slabs, regime);
    a.afterRebate + a.surcharge
  }

  /** The index of the highest surcharge threshold strictly below `income`,
      searching the thresholds at index `i` and below. */
  function IndexBelowFrom(income: int, i: nat): (k: nat)
    requires i < |Thresholds| && income > Thresholds[0].limit
    ensures k <= i && Thresholds[k].limit < income
    ensures forall j :: k < j <= i ==> income <= Thresholds[j].limit
    decreases i
  {
    if i == 0 || income > Thresholds[i].limit then i
    else IndexBelowFrom(income, i - 1)
  }

  /** The index of the highest surcharge threshold strictly below `income`. */
  function IndexBelow(income: int): (k: nat)
    requires income > Thresholds[0].limit
    ensures k < |Thresholds| && Thresholds[k].limit < income
    ensures forall j :: k < j < |Thresholds| ==> income <= Thresholds[j].limit
  {
    IndexBelowFrom(income, |Thresholds| - 1)
  }

  /** Marginal relief as intended, over any unrelieved schedule `gross` of
      tax plus surcharge by income: above a threshold, no more than the
      relieved amount due AT that threshold plus the income above it. */
  function ReliefOf(gross: int -> real, income: int): (r: real)
    ensures r <= gross(income)
    ensures income <= Thresholds[0].limit ==> r == gross(income)
    decreases income
  {
    if income <= Thresholds[0].limit then gross(income)
    else
      var l := Thresholds[IndexBelow(income)].limit;
      MinReal(gross(income), ReliefOf(gross, l) + (income - l) as real)
  }

  /** For every schedule, every income and every threshold below it, the
      relieved amount exceeds the amount due at the threshold by at most the
      income above the threshold. */
  lemma {:induction false} ReliefOfCapsGrowth(gross: int -> real, income: int, k: nat)
    requires k < |Thresholds| && Thresholds[k].limit < income
    ensures ReliefOf(gross, income) - ReliefOf(gross, Thresholds[k].limit) <= (income - Thresholds[k].limit) as real
    decreases income
  {
    var below := IndexBelow(income);
    var l := Thresholds[below].limit;
    assert ReliefOf(gross, income) <= ReliefOf(gross, l) + (income - l) as real;
    if k < below {
      assert Thresholds[k].limit < l;
      ReliefOfCapsGrowth(gross, l, k);
    } else {
      assert k == below;
    }
  }

  /** Tax plus surcharge of the calculator's pipeline under relief as intended. */
  function Relieved(income: int, slabs: seq<Slab>, regime: Regime): real
  {
    ReliefOf(x => Unrelieved(x, slabs, regime), income)
  }

  /** The tax payable under marginal relief as intended, with the 4% cess. */
  function RelievedFinalTax(income: int, slabs: seq<Slab>, regime: Regime): real
  {
    Relieved(income, slabs, regime) * CessFactor
  }

  /** The intended property for the calculator's own schedule: past any
      threshold, tax plus surcharge grows by at most the income above it,
      relief never raises the amount, and the final tax grows by at most
      that income with its cess. */
  lemma RelievedCapsGrowth(income: int, k: nat, slabs: seq<Slab>, regime: Regime)
    requires k < |Thresholds| && Thresholds[k].limit < income
    ensures Relieved(income, slabs, regime) <= Unrelieved(income, slabs, regime)
    ensures Relieved(income, slabs, regime) - Relieved(Thresholds[k].limit, slabs, regime) <=
      (income - Thresholds[k].limit) as real
    ensures RelievedFinalTax(income, slabs, regime) - RelievedFinalTax(Thresholds[k].limit, slabs, regime) <=
      (income - Thresholds[k].limit) as real * CessFactor
  {
    ReliefOfCapsGrowth(x => Unrelieved(x, slabs, regime), income, k);
  }

  /** Under the intended rule, one rupee above 5,000,000 adds exactly one
      rupee to tax plus surcharge. */
  lemma RelievedAt5000001()
    ensures Relieved(5000000, OldSlabs(Below60), Old) == 1312500.0
    ensures Relieved(5000001, OldSlabs(Below60), Old) == 1312501.0
  {
    OldBelow60TopBand(5000000);
    OldBelow60TopBand(5000001);
    assert SegmentTax(5000000 - 1000000, 0.3) == 1200000.0;
    assert SegmentTax(5000001 - 1000000, 0.3) == 1200000.3;
    assert IndexBelow(5000001) == 0;
  }

  /** Under the intended rule, one rupee above 10,000,000 adds exactly one
      rupee to tax plus surcharge instead of lowering the tax. */
  lemma RelievedAt10000001()
    ensures Relieved(10000000, OldSlabs(Below60), Old) == 3093750.0
    ensures Relieved(10000001, OldSlabs(Below60), Old) == 3093751.0
  {
    OldBelow60TopBand(5000000);
    OldBelow60TopBand(10000000);
    OldBelow60TopBand(10000001);
    assert SegmentTax(5000000 - 1000000, 0.3) == 1200000.0;
    assert SegmentTax(10000000 - 1000000, 0.3) == 2700000.0;
    assert SegmentTax(10000001 - 1000000, 0.3) == 2700000.3;
    assert Thresholds[1].limit == 10000000 && Thresholds[2].limit == 20000000;
    assert IndexBelow(10000000) == 0 && IndexBelow(10000001) == 1;
  }
}
