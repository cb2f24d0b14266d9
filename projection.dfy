/** The revenue projection engine of the revenue calculator: two independent
    multiplicative pipelines over slider inputs, computed in exact reals.
    Rates are whole percentages, the flat fee and the box price are dollars. */
module Projection {

  /** The bounds and step of one `<input type="range">` widget. */
  datatype Slider = Slider(min: int, max: int, step: int)

  /** A value a range widget can produce: inside the bounds and on the step grid. */
  predicate OnSlider(v: int, s: Slider)
  {
    s.step > 0 && s.min <= v <= s.max && (v - s.min) % s.step == 0
  }

  const AnnualBoxesSlider: Slider := Slider(5000000, 50000000, 1000000)
  const ScanRateSlider: Slider := Slider(5, 40, 1)
  const ConversionRateSlider: Slider := Slider(2, 25, 1)
  const FlatFeeSlider: Slider := Slider(10, 50, 5)
  /** The quotes slider with the step the deck declares; its grid misses the
      deck's own initial quotes value (see DefaultQuotesOffDeclaredGrid). */
  const QuotesSliderAsWritten: Slider := Slider(100000, 1000000, 50000)
  /** The quotes slider on a grid that holds the initial value; used by the
      rest of the model. */
  const QuotesSlider: Slider := Slider(100000, 1000000, 10000)
  const PolicyRateSlider: Slider := Slider(1, 15, 1)
  const AvgBoxesSlider: Slider := Slider(2, 15, 1)

  /** The fixed retail price of one box, in dollars; not user-adjustable. */
  const BoxPrice: real := 36.99

  datatype ReferralInputs = ReferralInputs(annualBoxes: int, scanRate: int, conversionRate: int, flatFee: int)
  datatype ReferralProjection = ReferralProjection(scans: real, conversions: real, referralRevenue: real)

  datatype BoxInputs = BoxInputs(quotes: int, policyRate: int, avgBoxesPerPolicy: int)
  datatype BoxProjection = BoxProjection(policies: real, totalBoxesSold: real, boxRevenue: real)

  const DefaultReferral: ReferralInputs := ReferralInputs(8000000, 20, 10, 25)
  const DefaultBox: BoxInputs := BoxInputs(160000, 5, 8)

  predicate ReferralOnSliders(p: ReferralInputs)
  {
    && OnSlider(p.annualBoxes, AnnualBoxesSlider)
    && OnSlider(p.scanRate, ScanRateSlider)
    && OnSlider(p.conversionRate, ConversionRateSlider)
    && OnSlider(p.flatFee, FlatFeeSlider)
  }

  predicate BoxOnSliders(p: BoxInputs)
  {
    && OnSlider(p.quotes, QuotesSlider)
    && OnSlider(p.policyRate, PolicyRateSlider)
    && OnSlider(p.avgBoxesPerPolicy, AvgBoxesSlider)
  }

  /** A whole percentage as a fraction. */
  function Percent(rate: int): real
  {
    rate as real / 100.0
  }

  /** The referral pipeline: scans, then conversions, then flat fees. */
  function ProjectReferral(p: ReferralInputs): ReferralProjection
  {
    var scans := p.annualBoxes as real * Percent(p.scanRate);
    var conversions := scans * Percent(p.conversionRate);
    ReferralProjection(scans, conversions, conversions * p.flatFee as real)
  }

  /** The guaranteed-purchase pipeline: policies, then boxes, then dollars. */
  function ProjectBox(p: BoxInputs): BoxProjection
  {
    var policies := p.quotes as real * Percent(p.policyRate);
    var totalBoxesSold := policies * p.avgBoxesPerPolicy as real;
    BoxProjection(policies, totalBoxesSold, totalBoxesSold * BoxPrice)
  }

  /** The referral revenue in closed form: the product of the four inputs
      over 10,000 (two percentages). */
  lemma ReferralClosedForm(p: ReferralInputs)
    ensures ProjectReferral(p).referralRevenue * 10000.0
         == (p.annualBoxes * p.scanRate * p.conversionRate * p.flatFee) as real
  {
    CastProduct4(p.annualBoxes, p.scanRate, p.conversionRate, p.flatFee);
  }

  /** The box revenue in closed form: the product of the three inputs and
      3699 cents over 10,000 (a percentage and cents). */
  lemma BoxClosedForm(p: BoxInputs)
    ensures ProjectBox(p).boxRevenue * 10000.0
         == (p.quotes * p.policyRate * p.avgBoxesPerPolicy * 3699) as real
  {
    CastProduct4(p.quotes, p.policyRate, p.avgBoxesPerPolicy, 3699);
  }

  /** The int-to-real cast distributes over a product of four factors. */
  lemma CastProduct4(a: int, b: int, c: int, d: int)
    ensures (a * b * c * d) as real == a as real * b as real * c as real * d as real
  {
    assert (a * b) as real == a as real * b as real;
    assert (a * b * c) as real == (a * b) as real * c as real;
  }

  /** The value a range widget shows for `v`: the nearest point of its step
      grid, the upper one on a tie (value sanitisation of range inputs in the
      HTML standard, for a value already inside the bounds). */
  function SnapToStep(v: int, s: Slider): (shown: int)
    requires s.step > 0 && s.min <= v <= s.max && (s.max - s.min) % s.step == 0
    ensures OnSlider(shown, s)
    ensures v - shown < s.step - v + shown && shown - v <= v - shown + s.step
    ensures OnSlider(v, s) ==> shown == v
  {
    var k := ((v - s.min) * 2 + s.step) / (2 * s.step);
    SnapBounds(v - s.min, s.max - s.min, s.step, k);
    s.min + k * s.step
  }

  /** The grid index `k` picked for offset `d` lies on the grid, is nearest
      to `d`, and is `d`'s own index when `d` is on the grid. */
  lemma SnapBounds(d: int, span: int, t: int, k: int)
    requires t > 0 && 0 <= d <= span && span % t == 0
    requires k == (d * 2 + t) / (2 * t)
    ensures 0 <= k * t <= span && (k * t) % t == 0
    ensures d - k * t < t - d + k * t && k * t - d <= d - k * t + t
    ensures d % t == 0 ==> k * t == d
  {
    var rem := (d * 2 + t) % (2 * t);
    var kt := k * t;
    assert d * 2 + t == 2 * kt + rem && 0 <= rem < 2 * t by {
      assert d * 2 + t == (2 * t) * k + rem;
      assert (2 * t) * k == 2 * kt;
    }
    SnapIndexBounds(d, span, t, k, rem);
    DivModOfMultiple(k, t);
    if d % t == 0 {
      SnapExact(d, t, k);
    }
  }

  lemma SnapExact(d: int, t: int, k: int)
    requires t > 0 && 0 <= d && d % t == 0
    requires k == (d * 2 + t) / (2 * t)
    ensures k * t == d
  {
    var i := d / t;
    assert d == t * i;
    assert d * 2 + t == (2 * t) * i + t;
    DivModUnique(d * 2 + t, 2 * t, i, t);
  }

  lemma SnapIndexBounds(d: int, span: int, t: int, k: int, rem: int)
    requires t > 0 && 0 <= d <= span && span % t == 0
    requires d * 2 + t == 2 * (k * t) + rem && 0 <= rem < 2 * t
    ensures 0 <= k * t <= span
  {
    assert 0 <= k by {
      if k < 0 { MulMonotone(k, -1, t); }
    }
    var j := span / t;
    assert span == j * t;
    assert k <= j by {
      if k > j { MulMonotone(j + 1, k, t); }
    }
    MulMonotone(k, j, t);
  }

  lemma DivModOfMultiple(k: int, t: int)
    requires t > 0
    ensures (k * t) % t == 0
  {
    DivModUnique(k * t, t, k, 0);
  }

  /** Euclidean division is determined by quotient and remainder bounds. */
  lemma DivModUnique(x: int, t: int, q: int, r: int)
    requires t > 0 && x == t * q + r && 0 <= r < t
    ensures x / t == q && x % t == r
  {
    var q', r' := x / t, x % t;
    assert x == t * q' + r' && 0 <= r' < t;
    if q' < q { MulMonotone(q' + 1, q, t); }
    if q < q' { MulMonotone(q + 1, q', t); }
  }

  /** As written, the initial quotes value is not a point of the quotes
      slider's grid: the thumb is drawn at 150,000 while the label reads
      160K, and once the slider is moved 160,000 cannot be chosen again. */
  lemma DefaultQuotesOffDeclaredGrid()
    ensures !OnSlider(DefaultBox.quotes, QuotesSliderAsWritten)
    ensures SnapToStep(DefaultBox.quotes, QuotesSliderAsWritten) == 150000
  {
  }

  /** On the corrected grid the initial quotes value is a slider value, so
      the thumb and the label agree. */
  lemma DefaultQuotesOnGrid()
    ensures OnSlider(DefaultBox.quotes, QuotesSlider)
    ensures SnapToStep(DefaultBox.quotes, QuotesSlider) == DefaultBox.quotes
  {
  }

  // ---- Worked examples at the default slider positions ----

  lemma DefaultReferralProjection()
    ensures ReferralOnSliders(DefaultReferral)
    ensures ProjectReferral(DefaultReferral) == ReferralProjection(1600000.0, 160000.0, 4000000.0)
  {
  }

  lemma DefaultBoxProjection()
    ensures BoxOnSliders(DefaultBox)
    ensures ProjectBox(DefaultBox) == BoxProjection(8000.0, 64000.0, 2367360.0)
  {
  }

  // ---- Monotonicity ----

  /** Every referral input of `q` is at least that of `p`. */
  predicate ReferralAtMost(p: ReferralInputs, q: ReferralInputs)
  {
    && p.annualBoxes <= q.annualBoxes
    && p.scanRate <= q.scanRate
    && p.conversionRate <= q.conversionRate
    && p.flatFee <= q.flatFee
  }

  predicate BoxAtMost(p: BoxInputs, q: BoxInputs)
  {
    && p.quotes <= q.quotes
    && p.policyRate <= q.policyRate
    && p.avgBoxesPerPolicy <= q.avgBoxesPerPolicy
  }

  /** For positive factors, a product grows strictly when one factor grows
      and none shrinks. */
  lemma {:induction false} ProductStrictlyMonotone(a: int, b: int, c: int, d: int, a': int, b': int, c': int, d': int)
    requires 0 < a <= a' && 0 < b <= b' && 0 < c <= c' && 0 < d <= d'
    requires a < a' || b < b' || c < c' || d < d'
    ensures a * b * c * d < a' * b' * c' * d'
  {
    MulMonotone(a, a', b);
    MulMonotone(b, b', a');
    MulMonotone(a * b, a' * b', c);
    MulMonotone(c, c', a' * b');
    MulMonotone(a * b * c, a' * b' * c', d);
    MulMonotone(d, d', a' * b' * c');
  }

  /** Multiplying by a positive factor preserves (strict) order. */
  lemma MulMonotone(x: int, x': int, y: int)
    requires 0 < y && x <= x'
    ensures x * y <= x' * y && y * x <= y * x'
    ensures x < x' ==> x * y < x' * y && y * x < y * x'
  {
  }

  /** Raising any referral input (the others held or raised too) strictly
      increases the referral revenue; each of the four inputs alone is a
      special case. */
  lemma ReferralRevenueStrictlyIncreasing(p: ReferralInputs, q: ReferralInputs)
    requires ReferralOnSliders(p) && ReferralOnSliders(q)
    requires ReferralAtMost(p, q) && p != q
    ensures ProjectReferral(p).referralRevenue < ProjectReferral(q).referralRevenue
  {
    ReferralClosedForm(p);
    ReferralClosedForm(q);
    ProductStrictlyMonotone(p.annualBoxes, p.scanRate, p.conversionRate, p.flatFee,
                            q.annualBoxes, q.scanRate, q.conversionRate, q.flatFee);
  }

  /** Raising any guaranteed-purchase input strictly increases the box revenue. */
  lemma BoxRevenueStrictlyIncreasing(p: BoxInputs, q: BoxInputs)
    requires BoxOnSliders(p) && BoxOnSliders(q)
    requires BoxAtMost(p, q) && p != q
    ensures ProjectBox(p).boxRevenue < ProjectBox(q).boxRevenue
  {
    BoxClosedForm(p);
    BoxClosedForm(q);
    ProductStrictlyMonotone(p.quotes, p.policyRate, p.avgBoxesPerPolicy, 3699,
                            q.quotes, q.policyRate, q.avgBoxesPerPolicy, 3699);
  }

  // ---- Ranges reachable from the sliders ----

  lemma ReferralRevenueRange(p: ReferralInputs)
    requires ReferralOnSliders(p)
    ensures 50000.0 <= ProjectReferral(p).referralRevenue <= 250000000.0
  {
    var lo := ReferralInputs(5000000, 5, 2, 10);
    var hi := ReferralInputs(50000000, 40, 25, 50);
    if p != lo { ReferralRevenueStrictlyIncreasing(lo, p); }
    if p != hi { ReferralRevenueStrictlyIncreasing(p, hi); }
  }

  lemma BoxRevenueRange(p: BoxInputs)
    requires BoxOnSliders(p)
    ensures 73980.0 <= ProjectBox(p).boxRevenue <= 83227500.0
  {
    var lo := BoxInputs(100000, 1, 2);
    var hi := BoxInputs(1000000, 15, 15);
    if p != lo { BoxRevenueStrictlyIncreasing(lo, p); }
    if p != hi { BoxRevenueStrictlyIncreasing(p, hi); }
  }

  // ---- Whole numbers on the slider grid ----

  predicate IsWhole(x: real)
  {
    x == x.Floor as real
  }

  /** On the slider grid every referral metric is a whole number: the
      displayed scan and conversion counts are counts, and the revenue is
      whole dollars. */
  lemma ReferralWholeNumbers(p: ReferralInputs)
    requires ReferralOnSliders(p)
    ensures var r := ProjectReferral(p);
      IsWhole(r.scans) && IsWhole(r.conversions) && IsWhole(r.referralRevenue)
  {
    var r := ProjectReferral(p);
    var m := p.annualBoxes / 1000000;
    assert p.annualBoxes == 100 * (100 * (100 * m));
    var scans := WholePercent(p.annualBoxes as real, p.scanRate, 100 * (100 * m));
    assert scans == 100 * ((100 * m) * p.scanRate) by {
      RegroupHundred(100 * m, p.scanRate);
    }
    assert r.scans == scans as real;
    var conversions := WholePercent(r.scans, p.conversionRate, (100 * m) * p.scanRate);
    assert r.conversions == conversions as real;
    var revenue := conversions * p.flatFee;
    assert r.referralRevenue == revenue as real by {
      CastProduct2(conversions, p.flatFee);
    }
    WholeCast(scans);
    WholeCast(conversions);
    WholeCast(revenue);
  }

  /** On the slider grid policies and boxes are whole numbers and the box
      revenue is a whole number of cents. */
  lemma BoxWholeNumbers(p: BoxInputs)
    requires BoxOnSliders(p)
    ensures var r := ProjectBox(p);
      IsWhole(r.policies) && IsWhole(r.totalBoxesSold) && IsWhole(r.boxRevenue * 100.0)
  {
    var r := ProjectBox(p);
    var m := p.quotes / 10000;
    assert p.quotes == 100 * (100 * m);
    var policies := WholePercent(p.quotes as real, p.policyRate, 100 * m);
    assert r.policies == policies as real;
    var boxes := policies * p.avgBoxesPerPolicy;
    assert r.totalBoxesSold == boxes as real by {
      CastProduct2(policies, p.avgBoxesPerPolicy);
    }
    var cents := boxes * 3699;
    assert r.boxRevenue * 100.0 == cents as real by {
      CastProduct2(boxes, 3699);
    }
    WholeCast(policies);
    WholeCast(boxes);
    WholeCast(cents);
  }

  /** A whole percentage of a whole multiple of 100 is a whole number. */
  lemma WholePercent(x: real, rate: int, q: int) returns (n: int)
    requires x == (100 * q) as real
    ensures n == q * rate && x * Percent(rate) == n as real
  {
    n := q * rate;
    CastProduct2(q, rate);
  }

  lemma WholeCast(n: int)
    ensures IsWhole(n as real)
  {
  }

  lemma RegroupHundred(a: int, b: int)
    ensures (100 * a) * b == 100 * (a * b)
  {
  }

  lemma CastProduct2(a: int, b: int)
    ensures (a * b) as real == a as real * b as real
  {
  }
}
