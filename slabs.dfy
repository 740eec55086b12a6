/** Progressive slab tax: the slab tables of the old and new regimes and the
    walk over a table that taxes each band it reaches and records one
    breakdown entry per band. Incomes and limits are whole rupees; tax
    amounts are exact reals. */
module TaxSlabs {

  /** The upper limit of a slab. The last slab of every table has no limit. */
  datatype Limit = Finite(amount: int) | Unbounded

  /** A band of the table: income up to `limit` is taxed at `rate`. */
  datatype Slab = Slab(limit: Limit, rate: real)

  /** One line of the breakdown: the income in (lower, upper] is taxed at
      `rate`, which gives `amount`. */
  datatype Entry = Entry(lower: int, upper: int, rate: real, amount: real)

  /** The age categories that select an old-regime table. */
  datatype AgeBand = Below60 | From60To79 | From80

  function OldSlabs(age: AgeBand): seq<Slab>
  {
    match age
    case Below60 =>
      [Slab(Finite(250000), 0.0), Slab(Finite(500000), 0.05),
       Slab(Finite(1000000), 0.2), Slab(Unbounded, 0.3)]
    case From60To79 =>
      [Slab(Finite(300000), 0.0), Slab(Finite(500000), 0.05),
       Slab(Finite(1000000), 0.2), Slab(Unbounded, 0.3)]
    case From80 =>
      [Slab(Finite(500000), 0.0), Slab(Finite(1000000), 0.2), Slab(Unbounded, 0.3)]
  }

  const NewSlabs: seq<Slab> :=
    [Slab(Finite(300000), 0.0), Slab(Finite(600000), 0.05), Slab(Finite(900000), 0.1),
     Slab(Finite(1200000), 0.15), Slab(Finite(1500000), 0.2), Slab(Unbounded, 0.3)]

  /** Income lies beyond the slab's limit; nothing lies beyond an unbounded slab. */
  predicate Exceeds(income: int, limit: Limit)
  {
    limit.Finite? && income > limit.amount
  }

  /** A table whose bands start above `prev`: non-negative rates, strictly
      increasing finite limits, and an unbounded last slab. */
  predicate ValidFrom(prev: int, t: seq<Slab>)
    decreases |t|
  {
    |t| > 0 && 0.0 <= t[0].rate &&
    match t[0].limit
    case Unbounded => |t| == 1
    case Finite(l) => prev < l && ValidFrom(l, t[1..])
  }

  predicate ValidTable(t: seq<Slab>)
  {
    ValidFrom(0, t)
  }

  /** The tax on `width` rupees of income at `rate`. */
  function SegmentTax(width: int, rate: real): real
  {
    width as real * rate
  }

  /** The breakdown of `income` over the bands of `t`, the first of which
      starts at `prev`: each exceeded band is taxed in full, the band that
      holds the income is taxed up to the income, and the walk stops there. */
  function Walk(income: int, t: seq<Slab>, prev: int): seq<Entry>
    decreases |t|
  {
    if |t| == 0 then []
    else if Exceeds(income, t[0].limit) then
      var l := t[0].limit.amount;
      [Entry(prev, l, t[0].rate, SegmentTax(l - prev, t[0].rate))] + Walk(income, t[1..], l)
    else
      [Entry(prev, income, t[0].rate, SegmentTax(income - prev, t[0].rate))]
  }

  function Breakdown(income: int, t: seq<Slab>): seq<Entry>
  {
    Walk(income, t, 0)
  }

  /** The sum of the amounts of a breakdown. */
  function Total(b: seq<Entry>): real
  {
    if |b| == 0 then 0.0 else b[0].amount + Total(b[1..])
  }

  /** The tax on `income` under table `t`: the sum of its breakdown. */
  function SlabTax(income: int, t: seq<Slab>): real
  {
    Total(Breakdown(income, t))
  }

  lemma {:induction false} TotalAppend(b: seq<Entry>, e: Entry)
    ensures Total(b + [e]) == Total(b) + e.amount
  {
    if |b| > 0 {
      assert (b + [e])[1..] == b[1..] + [e];
      TotalAppend(b[1..], e);
    }
  }

  /** One step of the walk over a band the income exceeds: a full-band entry, then the rest. */
  lemma WalkPassesBand(income: int, t: seq<Slab>, prev: int)
    requires |t| > 0 && Exceeds(income, t[0].limit)
    ensures var l := t[0].limit.amount;
      Walk(income, t, prev) == [Entry(prev, l, t[0].rate, SegmentTax(l - prev, t[0].rate))] + Walk(income, t[1..], l)
  {
  }

  /** The last step of the walk, in the band that holds the income. */
  lemma WalkStopsInBand(income: int, t: seq<Slab>, prev: int)
    requires |t| > 0 && !Exceeds(income, t[0].limit)
    ensures Walk(income, t, prev) == [Entry(prev, income, t[0].rate, SegmentTax(income - prev, t[0].rate))]
  {
  }

  /** The slab walk: returns the tax and the breakdown, one entry per band
      reached, and the tax is the sum of the breakdown. */
  method CalculateTax(income: int, slabs: seq<Slab>) returns (tax: real, breakdown: seq<Entry>)
    ensures breakdown == Breakdown(income, slabs)
    ensures tax == Total(breakdown)
  {
    tax := 0.0;
    var prev := 0;
    breakdown := [];
    var i := 0;
    while i < |slabs|
      invariant 0 <= i <= |slabs|
      invariant breakdown + Walk(income, slabs[i..], prev) == Breakdown(income, slabs)
      invariant tax == Total(breakdown)
    {
      var slab := slabs[i];
      assert slabs[i..][0] == slab && slabs[i..][1..] == slabs[i + 1..];
      if Exceeds(income, slab.limit) {
        var segment := SegmentTax(slab.limit.amount - prev, slab.rate);
        var entry := Entry(prev, slab.limit.amount, slab.rate, segment);
        WalkPassesBand(income, slabs[i..], prev);
        assert breakdown + Walk(income, slabs[i..], prev)
            == (breakdown + [entry]) + Walk(income, slabs[i + 1..], slab.limit.amount);
        TotalAppend(breakdown, entry);
        breakdown := breakdown + [entry];
        tax := tax + segment;
        prev := slab.limit.amount;
      } else {
        var segment := SegmentTax(income - prev, slab.rate);
        var entry := Entry(prev, income, slab.rate, segment);
        WalkStopsInBand(income, slabs[i..], prev);
        assert Walk(income, slabs[i..], prev) == [entry];
        TotalAppend(breakdown, entry);
        breakdown := breakdown + [entry];
        tax := tax + segment;
        break;
      }
      i := i + 1;
    }
  }

  /** The walk reaches every band up to the first one that holds the income
      and stops there; the breakdown is contiguous from `prev`, each entry is
      its band's rate applied to its width, and the last one ends at the income. */
  lemma {:induction false} WalkShape(income: int, t: seq<Slab>, prev: int)
    requires |t| > 0 && t[|t| - 1].limit == Unbounded
    ensures var b := Walk(income, t, prev);
      && 1 <= |b| <= |t|
      && (forall j :: 0 <= j < |b| - 1 ==> Exceeds(income, t[j].limit) && b[j].upper == t[j].limit.amount)
      && !Exceeds(income, t[|b| - 1].limit)
      && b[0].lower == prev
      && b[|b| - 1].upper == income
      && (forall j :: 0 <= j < |b| - 1 ==> b[j + 1].lower == b[j].upper)
      && (forall j :: 0 <= j < |b| ==> b[j].rate == t[j].rate && b[j].amount == SegmentTax(b[j].upper - b[j].lower, b[j].rate))
  {
    if Exceeds(income, t[0].limit) {
      var l := t[0].limit.amount;
      WalkShape(income, t[1..], l);
      WalkPassesBand(income, t, prev);
    } else {
      WalkStopsInBand(income, t, prev);
    }
  }

  /** Calculating the tax on a table that ends with an unbounded slab records
      at least one entry and stops at the first slab whose limit is at least
      the income; the entries are contiguous from 0 up to the income. */
  lemma BreakdownShape(income: int, t: seq<Slab>)
    requires |t| > 0 && t[|t| - 1].limit == Unbounded
    ensures var b := Breakdown(income, t);
      && 1 <= |b| <= |t|
      && (forall j :: 0 <= j < |b| - 1 ==> Exceeds(income, t[j].limit) && b[j].upper == t[j].limit.amount)
      && !Exceeds(income, t[|b| - 1].limit)
      && b[0].lower == 0
      && b[|b| - 1].upper == income
      && (forall j :: 0 <= j < |b| - 1 ==> b[j + 1].lower == b[j].upper)
      && (forall j :: 0 <= j < |b| ==> b[j].rate == t[j].rate && b[j].amount == SegmentTax(b[j].upper - b[j].lower, b[j].rate))
  {
    WalkShape(income, t, 0);
  }

  /** A taxable income of 0 gives one entry of amount 0 and no tax. */
  lemma ZeroIncome(t: seq<Slab>)
    requires ValidTable(t)
    ensures Breakdown(0, t) == [Entry(0, 0, t[0].rate, 0.0)]
    ensures SlabTax(0, t) == 0.0
  {
    WalkStopsInBand(0, t, 0);
    var b := Breakdown(0, t);
    assert b[0].amount == SegmentTax(0, t[0].rate) == 0.0;
    assert b[1..] == [] && Total(b[1..]) == 0.0;
    assert Total(b) == b[0].amount + Total(b[1..]);
  }

  lemma SegmentTaxNonNegative(width: int, r: real)
    requires 0 <= width && 0.0 <= r
    ensures 0.0 <= SegmentTax(width, r)
  {
  }

  lemma {:induction false} WalkNonNegative(income: int, t: seq<Slab>, prev: int)
    requires ValidFrom(prev, t) && prev <= income
    ensures forall e :: e in Walk(income, t, prev) ==> e.lower <= e.upper && 0.0 <= e.amount
  {
    if Exceeds(income, t[0].limit) {
      var l := t[0].limit.amount;
      SegmentTaxNonNegative(l - prev, t[0].rate);
      WalkNonNegative(income, t[1..], l);
    } else {
      SegmentTaxNonNegative(income - prev, t[0].rate);
    }
  }

  /** On a valid table and a non-negative income, every band of the
      breakdown is non-empty or empty but never reversed, and every amount is
      non-negative. */
  lemma SegmentsNonNegative(income: int, t: seq<Slab>)
    requires ValidTable(t) && 0 <= income
    ensures forall j :: 0 <= j < |Breakdown(income, t)| ==>
      Breakdown(income, t)[j].lower <= Breakdown(income, t)[j].upper && 0.0 <= Breakdown(income, t)[j].amount
  {
    WalkNonNegative(income, t, 0);
  }

  function Min(a: int, b: int): int { if a <= b then a else b }
  function Max(a: int, b: int): int { if a <= b then b else a }

  /** An independent reference for the slab tax: the sum, over every band
      of the table, of the band's rate applied to the part of the income that
      falls inside the band. */
  function BandwiseTax(income: int, t: seq<Slab>, prev: int): real
    decreases |t|
  {
    if |t| == 0 then 0.0
    else
      match t[0].limit
      case Unbounded => SegmentTax(Max(income - prev, 0), t[0].rate) + BandwiseTax(income, t[1..], prev)
      case Finite(l) => SegmentTax(Max(Min(income, l) - prev, 0), t[0].rate) + BandwiseTax(income, t[1..], l)
  }

  lemma {:induction false} BandwiseBeyond(income: int, t: seq<Slab>, prev: int)
    requires ValidFrom(prev, t) && income <= prev
    ensures BandwiseTax(income, t, prev) == 0.0
  {
    match t[0].limit
    case Unbounded =>
    case Finite(l) => BandwiseBeyond(income, t[1..], l);
  }

  lemma {:induction false} WalkIsBandwise(income: int, t: seq<Slab>, prev: int)
    requires ValidFrom(prev, t) && prev <= income
    ensures Total(Walk(income, t, prev)) == BandwiseTax(income, t, prev)
  {
    var e := Walk(income, t, prev)[0];
    if Exceeds(income, t[0].limit) {
      var l := t[0].limit.amount;
      WalkIsBandwise(income, t[1..], l);
      assert Walk(income, t, prev)[1..] == Walk(income, t[1..], l);
    } else {
      match t[0].limit
      case Unbounded =>
      case Finite(l) => BandwiseBeyond(income, t[1..], l);
    }
  }

  /** For a non-negative income, the slab tax equals the band-by-band reference. */
  lemma SlabTaxIsBandwise(income: int, t: seq<Slab>)
    requires ValidTable(t) && 0 <= income
    ensures SlabTax(income, t) == BandwiseTax(income, t, 0)
  {
    WalkIsBandwise(income, t, 0);
  }

  lemma SegmentTaxMonotone(x: int, y: int, r: real)
    requires x <= y && 0.0 <= r
    ensures SegmentTax(x, r) <= SegmentTax(y, r)
  {
    SegmentTaxNonNegative(y - x, r);
  }

  lemma {:induction false} BandwiseMonotone(i1: int, i2: int, t: seq<Slab>, prev: int)
    requires ValidFrom(prev, t) && i1 <= i2
    ensures BandwiseTax(i1, t, prev) <= BandwiseTax(i2, t, prev)
  {
    var r := t[0].rate;
    match t[0].limit
    case Unbounded =>
      var p1, p2 := Max(i1 - prev, 0), Max(i2 - prev, 0);
      SegmentTaxMonotone(p1, p2, r);
      assert t[1..] == [];
      assert BandwiseTax(i1, t, prev) == SegmentTax(p1, r);
      assert BandwiseTax(i2, t, prev) == SegmentTax(p2, r);
    case Finite(l) =>
      var p1, p2 := Max(Min(i1, l) - prev, 0), Max(Min(i2, l) - prev, 0);
      SegmentTaxMonotone(p1, p2, r);
      BandwiseMonotone(i1, i2, t[1..], l);
      assert BandwiseTax(i1, t, prev) == SegmentTax(p1, r) + BandwiseTax(i1, t[1..], l);
      assert BandwiseTax(i2, t, prev) == SegmentTax(p2, r) + BandwiseTax(i2, t[1..], l);
  }

  /** More taxable income never means less slab tax. */
  lemma SlabTaxMonotone(i1: int, i2: int, t: seq<Slab>)
    requires ValidTable(t) && 0 <= i1 <= i2
    ensures SlabTax(i1, t) <= SlabTax(i2, t)
  {
    SlabTaxIsBandwise(i1, t);
    SlabTaxIsBandwise(i2, t);
    BandwiseMonotone(i1, i2, t, 0);
  }

  /** For a non-negative income the slab tax is non-negative. */
  lemma SlabTaxNonNegative(income: int, t: seq<Slab>)
    requires ValidTable(t) && 0 <= income
    ensures 0.0 <= SlabTax(income, t)
  {
    ZeroIncome(t);
    SlabTaxMonotone(0, income, t);
  }

  lemma TablesValid(age: AgeBand)
    ensures ValidTable(OldSlabs(age)) && ValidTable(NewSlabs)
  {
    var top := [Slab(Unbounded, 0.3)];
    assert ValidFrom(1000000, top);
    assert ValidFrom(500000, [Slab(Finite(1000000), 0.2)] + top);
    assert ValidFrom(250000, [Slab(Finite(500000), 0.05), Slab(Finite(1000000), 0.2)] + top);
    assert ValidFrom(300000, [Slab(Finite(500000), 0.05), Slab(Finite(1000000), 0.2)] + top);
    assert ValidFrom(1500000, top);
    assert ValidFrom(1200000, [Slab(Finite(1500000), 0.2)] + top);
    assert ValidFrom(900000, NewSlabs[3..]);
    assert ValidFrom(600000, NewSlabs[2..]);
    assert ValidFrom(300000, NewSlabs[1..]);
  }

  lemma TotalCons(e: Entry, rest: seq<Entry>)
    ensures Total([e] + rest) == e.amount + Total(rest)
  {
    assert ([e] + rest)[1..] == rest;
  }

  /** Old regime, age below 60, taxable income 500,000: 5% of the 250,000
      above the exempt band, i.e. 12,500. */
  lemma OldBelow60At500000()
    ensures Breakdown(500000, OldSlabs(Below60)) ==
      [Entry(0, 250000, 0.0, 0.0), Entry(250000, 500000, 0.05, 12500.0)]
    ensures SlabTax(500000, OldSlabs(Below60)) == 12500.0
  {
    var t := OldSlabs(Below60);
    WalkPassesBand(500000, t, 0);
    WalkStopsInBand(500000, t[1..], 250000);
    var e0, e1 := Entry(0, 250000, 0.0, 0.0), Entry(250000, 500000, 0.05, 12500.0);
    assert SegmentTax(250000 - 0, 0.0) == 0.0 && SegmentTax(500000 - 250000, 0.05) == 12500.0;
    TotalCons(e0, [e1]);
    TotalCons(e1, []);
  }

  /** Old regime, age 60 to 79, taxable income 500,000: 5% of 200,000. */
  lemma Old60To79At500000()
    ensures SlabTax(500000, OldSlabs(From60To79)) == 10000.0
  {
    var t := OldSlabs(From60To79);
    WalkPassesBand(500000, t, 0);
    WalkStopsInBand(500000, t[1..], 300000);
    var e0, e1 := Entry(0, 300000, 0.0, 0.0), Entry(300000, 500000, 0.05, 10000.0);
    assert SegmentTax(300000 - 0, 0.0) == 0.0 && SegmentTax(500000 - 300000, 0.05) == 10000.0;
    assert Breakdown(500000, t) == [e0] + [e1];
    TotalCons(e0, [e1]);
    TotalCons(e1, []);
  }

  /** Old regime, age 80 and above, taxable income 500,000: all exempt. */
  lemma Old80At500000()
    ensures SlabTax(500000, OldSlabs(From80)) == 0.0
  {
    var t := OldSlabs(From80);
    WalkStopsInBand(500000, t, 0);
    var e0 := Entry(0, 500000, 0.0, 0.0);
    assert SegmentTax(500000 - 0, 0.0) == 0.0;
    assert Breakdown(500000, t) == [e0] + [];
    TotalCons(e0, []);
  }

  /** Old regime, age below 60, taxable income 525,000: 12,500 + 5,000. */
  lemma OldBelow60At525000()
    ensures SlabTax(525000, OldSlabs(Below60)) == 17500.0
  {
    var t := OldSlabs(Below60);
    WalkPassesBand(525000, t, 0);
    WalkPassesBand(525000, t[1..], 250000);
    WalkStopsInBand(525000, t[1..][1..], 500000);
    var e0, e1, e2 := Entry(0, 250000, 0.0, 0.0), Entry(250000, 500000, 0.05, 12500.0), Entry(500000, 525000, 0.2, 5000.0);
    assert SegmentTax(250000 - 0, 0.0) == 0.0 && SegmentTax(500000 - 250000, 0.05) == 12500.0;
    assert SegmentTax(525000 - 500000, 0.2) == 5000.0;
    assert Breakdown(525000, t) == [e0] + ([e1] + [e2]);
    TotalCons(e0, [e1] + [e2]);
    TotalCons(e1, [e2]);
    TotalCons(e2, []);
  }

  /** Old regime, age below 60, any taxable income above 1,000,000: the
      three lower bands in full (0 + 12,500 + 100,000), then 30% of the rest. */
  lemma OldBelow60TopBand(income: int)
    requires income > 1000000
    ensures SlabTax(income, OldSlabs(Below60)) == 112500.0 + SegmentTax(income - 1000000, 0.3)
  {
    var t := OldSlabs(Below60);
    WalkPassesBand(income, t, 0);
    WalkPassesBand(income, t[1..], 250000);
    WalkPassesBand(income, t[1..][1..], 500000);
    WalkStopsInBand(income, t[1..][1..][1..], 1000000);
    var e0, e1 := Entry(0, 250000, 0.0, 0.0), Entry(250000, 500000, 0.05, 12500.0);
    var e2, e3 := Entry(500000, 1000000, 0.2, 100000.0), Entry(1000000, income, 0.3, SegmentTax(income - 1000000, 0.3));
    assert SegmentTax(250000 - 0, 0.0) == 0.0 && SegmentTax(500000 - 250000, 0.05) == 12500.0;
    assert SegmentTax(1000000 - 500000, 0.2) == 100000.0;
    assert Breakdown(income, t) == [e0] + ([e1] + ([e2] + [e3]));
    TotalCons(e0, [e1] + ([e2] + [e3]));
    TotalCons(e1, [e2] + [e3]);
    TotalCons(e2, [e3]);
    TotalCons(e3, []);
  }

  /** New regime, taxable income 700,000: 15,000 + 10,000. */
  lemma NewAt700000()
    ensures SlabTax(700000, NewSlabs) == 25000.0
  {
    var t := NewSlabs;
    WalkPassesBand(700000, t, 0);
    WalkPassesBand(700000, t[1..], 300000);
    WalkStopsInBand(700000, t[1..][1..], 600000);
    var e0, e1, e2 := Entry(0, 300000, 0.0, 0.0), Entry(300000, 600000, 0.05, 15000.0), Entry(600000, 700000, 0.1, 10000.0);
    assert SegmentTax(300000 - 0, 0.0) == 0.0 && SegmentTax(600000 - 300000, 0.05) == 15000.0;
    assert SegmentTax(700000 - 600000, 0.1) == 10000.0;
    assert Breakdown(700000, t) == [e0] + ([e1] + [e2]);
    TotalCons(e0, [e1] + [e2]);
    TotalCons(e1, [e2]);
    TotalCons(e2, []);
  }

  /** New regime, taxable income 800,000: 15,000 + 20,000. */
  lemma NewAt800000()
    ensures SlabTax(800000, NewSlabs) == 35000.0
  {
    var t := NewSlabs;
    WalkPassesBand(800000, t, 0);
    WalkPassesBand(800000, t[1..], 300000);
    WalkStopsInBand(800000, t[1..][1..], 600000);
    var e0, e1, e2 := Entry(0, 300000, 0.0, 0.0), Entry(300000, 600000, 0.05, 15000.0), Entry(600000, 800000, 0.1, 20000.0);
    assert SegmentTax(300000 - 0, 0.0) == 0.0 && SegmentTax(600000 - 300000, 0.05) == 15000.0;
    assert SegmentTax(800000 - 600000, 0.1) == 20000.0;
    assert Breakdown(800000, t) == [e0] + ([e1] + [e2]);
    TotalCons(e0, [e1] + [e2]);
    TotalCons(e1, [e2]);
    TotalCons(e2, []);
  }

  /** New regime, taxable income 1,200,000: 0 + 15,000 + 30,000 + 45,000. */
  lemma NewAt1200000()
    ensures Breakdown(1200000, NewSlabs) ==
      [Entry(0, 300000, 0.0, 0.0), Entry(300000, 600000, 0.05, 15000.0),
       Entry(600000, 900000, 0.1, 30000.0), Entry(900000, 1200000, 0.15, 45000.0)]
    ensures SlabTax(1200000, NewSlabs) == 90000.0
  {
    var t := NewSlabs;
    WalkPassesBand(1200000, t, 0);
    WalkPassesBand(1200000, t[1..], 300000);
    WalkPassesBand(1200000, t[1..][1..], 600000);
    WalkStopsInBand(1200000, t[1..][1..][1..], 900000);
    var e0, e1 := Entry(0, 300000, 0.0, 0.0), Entry(300000, 600000, 0.05, 15000.0);
    var e2, e3 := Entry(600000, 900000, 0.1, 30000.0), Entry(900000, 1200000, 0.15, 45000.0);
    assert SegmentTax(300000 - 0, 0.0) == 0.0 && SegmentTax(600000 - 300000, 0.05) == 15000.0;
    assert SegmentTax(900000 - 600000, 0.1) == 30000.0 && SegmentTax(1200000 - 900000, 0.15) == 45000.0;
    assert Breakdown(1200000, t) == [e0] + ([e1] + ([e2] + [e3]));
    TotalCons(e0, [e1] + ([e2] + [e3]));
    TotalCons(e1, [e2] + [e3]);
    TotalCons(e2, [e3]);
    TotalCons(e3, []);
  }
}
