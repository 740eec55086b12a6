/** The arithmetic of the calculator form: deductions, the taxable income of
    each regime, slab tax, rebate, surcharge, marginal relief and cess for
    each regime, and the recommendation of the cheaper regime. */
module TaxPipeline {
  import opened TaxSlabs
  import opened TaxAdjustments

  /** The standard deduction, allowed in the old regime only. */
  const StandardDeduction: int := 50000

  /** The 4% health and education cess, as a factor on the relieved amount. */
  const CessFactor: real := 1.04

  /** What the form collects: gross annual income, age category and the
      old-regime deductions. */
  datatype Declaration = Declaration(income: int, age: AgeBand, sec80C: int, sec80D: int, nps: int, hra: int)

  function TotalDeductions(d: Declaration): int
  {
    StandardDeduction + d.sec80C + d.sec80D + d.nps + d.hra
  }

  /** Old-regime taxable income: income less all deductions, never below 0. */
  function OldTaxable(d: Declaration): (t: int)
    ensures 0 <= t && d.income - TotalDeductions(d) <= t
    ensures t == 0 || t == d.income - TotalDeductions(d)
  {
    if 0 <= d.income - TotalDeductions(d) then d.income - TotalDeductions(d) else 0
  }

  /** New-regime taxable income: the gross income, with no deductions. */
  function NewTaxable(d: Declaration): int
  {
    d.income
  }

  /** Every stage of the computation for one regime. */
  datatype Assessment = Assessment(
    taxable: int, baseTax: real, breakdown: seq<Entry>, rebate: real,
    afterRebate: real, surcharge: real, relieved: real, finalTax: real)

  /** Slab tax, less the rebate, plus the surcharge, capped by marginal
      relief, plus cess. */
  function Assess(taxable: int, slabs: seq<Slab>, regime: Regime): Assessment
  {
    var breakdown := Breakdown(taxable, slabs);
    var tax := Total(breakdown);
    var rebate := Rebate87A(taxable, tax, regime);
    var afterRebate := tax - rebate;
    var surcharge := Surcharge(taxable, afterRebate);
    var relieved := MarginalRelief(taxable, afterRebate, surcharge);
    Assessment(taxable, tax, breakdown, rebate, afterRebate, surcharge, relieved, relieved * CessFactor)
  }

  /** For a non-negative taxable income on a valid table: the tax is the sum
      of the breakdown, the rebate lies between 0 and the tax, the surcharge
      is non-negative, relief keeps the amount between the post-rebate tax and
      that tax plus surcharge, and the cess is 4% of the relieved amount. */
  lemma AssessBounds(taxable: int, slabs: seq<Slab>, regime: Regime)
    requires ValidTable(slabs) && 0 <= taxable
    ensures var a := Assess(taxable, slabs, regime);
      && a.baseTax == Total(a.breakdown) && 0.0 <= a.baseTax
      && 0.0 <= a.rebate <= a.baseTax
      && a.afterRebate == a.baseTax - a.rebate
      && 0.0 <= a.surcharge
      && a.afterRebate <= a.relieved <= a.afterRebate + a.surcharge
      && a.finalTax - a.relieved == a.relieved * 0.04
      && 0.0 <= a.finalTax
  {
    var a := Assess(taxable, slabs, regime);
    SlabTaxNonNegative(taxable, slabs);
    MarginalReliefSpec(taxable, a.afterRebate, a.surcharge);
  }

  datatype Recommendation = OldRegime | NewRegime

  /** The cheaper regime and its tax; a tie goes to the old regime, the first
      of the two candidates. */
  function Recommend(oldFinal: real, newFinal: real): (best: (Recommendation, real))
    ensures best.0 == OldRegime <==> oldFinal <= newFinal
    ensures best.1 <= oldFinal && best.1 <= newFinal
    ensures best.1 == (if best.0 == OldRegime then oldFinal else newFinal)
  {
    if newFinal < oldFinal then (NewRegime, newFinal) else (OldRegime, oldFinal)
  }

  /** Both regimes computed side by side, and the recommendation. */
  datatype Comparison = Comparison(oldRegime: Assessment, newRegime: Assessment, best: Recommendation, payable: real)

  function Evaluate(d: Declaration): (c: Comparison)
    ensures c.oldRegime == Assess(OldTaxable(d), OldSlabs(d.age), Old)
    ensures c.newRegime == Assess(d.income, NewSlabs, New)
    ensures c.oldRegime.taxable == OldTaxable(d) && c.newRegime.taxable == d.income
    ensures c.payable == (if c.best == OldRegime then c.oldRegime.finalTax else c.newRegime.finalTax)
    ensures c.payable <= c.oldRegime.finalTax && c.payable <= c.newRegime.finalTax
    ensures c.best == OldRegime <==> c.oldRegime.finalTax <= c.newRegime.finalTax
  {
    var oldRegime := Assess(OldTaxable(d), OldSlabs(d.age), Old);
    var newRegime := Assess(NewTaxable(d), NewSlabs, New);
    var best := Recommend(oldRegime.finalTax, newRegime.finalTax);
    Comparison(oldRegime, newRegime, best.0, best.1)
  }

  /** Neither regime's tax payable is ever negative, whatever the inputs: a
      negative income is taxed at the new regime's 0% first band. */
  lemma EvaluateNonNegative(d: Declaration)
    ensures 0.0 <= Evaluate(d).oldRegime.finalTax
    ensures 0.0 <= Evaluate(d).newRegime.finalTax
    ensures 0.0 <= Evaluate(d).payable
  {
    TablesValid(d.age);
    AssessBounds(OldTaxable(d), OldSlabs(d.age), Old);
    if 0 <= d.income {
      AssessBounds(d.income, NewSlabs, New);
    } else {
      NewRegimeNoTaxUpTo700000(d.income);
    }
  }

  /** Up to a taxable income of 500,000 the old regime's rebate cancels the
      whole tax, whatever the age category. */
  lemma OldRegimeNoTaxUpTo500000(taxable: int, age: AgeBand)
    requires 0 <= taxable <= 500000
    ensures Assess(taxable, OldSlabs(age), Old).finalTax == 0.0
  {
    var t := OldSlabs(age);
    TablesValid(age);
    SlabTaxMonotone(taxable, 500000, t);
    match age
    case Below60 => OldBelow60At500000();
    case From60To79 => Old60To79At500000();
    case From80 => Old80At500000();
    var a := Assess(taxable, t, Old);
    SlabTaxNonNegative(taxable, t);
    assert a.afterRebate == 0.0;
    NoReliefUpTo5000000(taxable, 0.0, 0.0);
  }

  /** Up to a taxable income of 700,000 the new regime's rebate cancels the
      whole tax, for any income, negative ones included. */
  lemma NewRegimeNoTaxUpTo700000(taxable: int)
    requires taxable <= 700000
    ensures Assess(taxable, NewSlabs, New).finalTax == 0.0
  {
    var tax := SlabTax(taxable, NewSlabs);
    if taxable < 0 {
      WalkStopsInBand(taxable, NewSlabs, 0);
      var b := Breakdown(taxable, NewSlabs);
      assert b[0].amount == SegmentTax(taxable - 0, 0.0) == 0.0;
      assert b[1..] == [] && Total(b[1..]) == 0.0;
      assert tax == b[0].amount + Total(b[1..]);
    } else {
      TablesValid(Below60);
      SlabTaxMonotone(taxable, 700000, NewSlabs);
      NewAt700000();
      SlabTaxNonNegative(taxable, NewSlabs);
    }
    NoReliefUpTo5000000(taxable, 0.0, 0.0);
  }

  /** Old regime, below 60, taxable 500,000: tax 12,500, all of it rebated. */
  lemma OldRegimeExample()
    ensures var a := Assess(500000, OldSlabs(Below60), Old);
      a.baseTax == 12500.0 && a.rebate == 12500.0 && a.afterRebate == 0.0 && a.finalTax == 0.0
  {
    OldBelow60At500000();
    NoReliefUpTo5000000(500000, 0.0, 0.0);
  }

  /** New regime, taxable 1,200,000: tax 90,000, no rebate, no surcharge,
      93,600 with cess. */
  lemma NewRegimeExample()
    ensures var a := Assess(1200000, NewSlabs, New);
      a.baseTax == 90000.0 && a.rebate == 0.0 && a.surcharge == 0.0 && a.finalTax == 93600.0
  {
    NewAt1200000();
    NoReliefUpTo5000000(1200000, 90000.0, 0.0);
  }

  /** The form's default values: income 800,000, age below 60, 150,000 under
      80C, 25,000 under 80D and 50,000 of NPS. The old regime taxes 525,000 to
      18,200 payable, the new regime taxes 800,000 to 36,400 payable, and the
      old regime is recommended. */
  lemma DefaultFormExample()
    ensures var c := Evaluate(Declaration(800000, Below60, 150000, 25000, 50000, 0));
      && c.oldRegime.taxable == 525000 && c.oldRegime.finalTax == 18200.0
      && c.newRegime.taxable == 800000 && c.newRegime.finalTax == 36400.0
      && c.best == OldRegime && c.payable == 18200.0
  {
    var d := Declaration(800000, Below60, 150000, 25000, 50000, 0);
    assert OldTaxable(d) == 525000;
    OldBelow60At525000();
    NewAt800000();
    NoReliefUpTo5000000(525000, 17500.0, 0.0);
    NoReliefUpTo5000000(800000, 35000.0, 0.0);
  }
}
