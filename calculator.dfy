/** The revenue calculator component: two sub-calculator disclosure toggles
    and seven slider-driven inputs. Derived metrics are never stored; they
    are recomputed from the current inputs on every read. */
module Calculator {
  import opened Projection

  class RevenueCalculator {
    var showReferralCalc: bool
    var showBoxCalc: bool

    var annualBoxes: int
    var scanRate: int
    var conversionRate: int
    var flatFee: int

    var quotes: int
    var policyRate: int
    var avgBoxesPerPolicy: int

    function ReferralParams(): ReferralInputs
      reads this
    {
      ReferralInputs(annualBoxes, scanRate, conversionRate, flatFee)
    }

    function BoxParams(): BoxInputs
      reads this
    {
      BoxInputs(quotes, policyRate, avgBoxesPerPolicy)
    }

    /** Every input is a value its slider can produce. */
    ghost predicate Valid()
      reads this
    {
      ReferralOnSliders(ReferralParams()) && BoxOnSliders(BoxParams())
    }

    /** The state a freshly mounted calculator has. */
    ghost predicate Initial()
      reads this
    {
      && !showReferralCalc && !showBoxCalc
      && ReferralParams() == DefaultReferral
      && BoxParams() == DefaultBox
    }

    function Referral(): ReferralProjection
      reads this
    {
      ProjectReferral(ReferralParams())
    }

    function Box(): BoxProjection
      reads this
    {
      ProjectBox(BoxParams())
    }

    constructor ()
      ensures Valid() && Initial()
      ensures Referral() == ReferralProjection(1600000.0, 160000.0, 4000000.0)
      ensures Box() == BoxProjection(8000.0, 64000.0, 2367360.0)
    {
      showReferralCalc, showBoxCalc := false, false;
      annualBoxes, scanRate, conversionRate, flatFee := 8000000, 20, 10, 25;
      quotes, policyRate, avgBoxesPerPolicy := 160000, 5, 8;
      DefaultReferralProjection();
      DefaultBoxProjection();
    }

    /** The referral sub-calculator's header button. */
    method ToggleReferralCalc()
      modifies this`showReferralCalc
      ensures showReferralCalc == !old(showReferralCalc)
      ensures showBoxCalc == old(showBoxCalc)
    {
      showReferralCalc := !showReferralCalc;
    }

    /** The guaranteed-purchase sub-calculator's header button. */
    method ToggleBoxCalc()
      modifies this`showBoxCalc
      ensures showBoxCalc == !old(showBoxCalc)
      ensures showReferralCalc == old(showReferralCalc)
    {
      showBoxCalc := !showBoxCalc;
    }

    // ---- Slider change handlers (each slider is rendered, and so can
    // fire, only while its sub-calculator is open) ----

    method SetAnnualBoxes(v: int)
      requires Valid() && showReferralCalc && OnSlider(v, AnnualBoxesSlider)
      modifies this`annualBoxes
      ensures Valid()
      ensures ReferralParams() == old(ReferralParams()).(annualBoxes := v)
      ensures Box() == old(Box())
      ensures v > old(annualBoxes) ==> Referral().referralRevenue > old(Referral().referralRevenue)
      ensures v < old(annualBoxes) ==> Referral().referralRevenue < old(Referral().referralRevenue)
    {
      ghost var before := ReferralParams();
      annualBoxes := v;
      ReferralRevenueOrdered(before, ReferralParams());
    }

    method SetScanRate(v: int)
      requires Valid() && showReferralCalc && OnSlider(v, ScanRateSlider)
      modifies this`scanRate
      ensures Valid()
      ensures ReferralParams() == old(ReferralParams()).(scanRate := v)
      ensures Box() == old(Box())
      ensures v > old(scanRate) ==> Referral().referralRevenue > old(Referral().referralRevenue)
      ensures v < old(scanRate) ==> Referral().referralRevenue < old(Referral().referralRevenue)
    {
      ghost var before := ReferralParams();
      scanRate := v;
      ReferralRevenueOrdered(before, ReferralParams());
    }

    method SetConversionRate(v: int)
      requires Valid() && showReferralCalc && OnSlider(v, ConversionRateSlider)
      modifies this`conversionRate
      ensures Valid()
      ensures ReferralParams() == old(ReferralParams()).(conversionRate := v)
      ensures Box() == old(Box())
      ensures v > old(conversionRate) ==> Referral().referralRevenue > old(Referral().referralRevenue)
      ensures v < old(conversionRate) ==> Referral().referralRevenue < old(Referral().referralRevenue)
    {
      ghost var before := ReferralParams();
      conversionRate := v;
      ReferralRevenueOrdered(before, ReferralParams());
    }

    method SetFlatFee(v: int)
      requires Valid() && showReferralCalc && OnSlider(v, FlatFeeSlider)
      modifies this`flatFee
      ensures Valid()
      ensures ReferralParams() == old(ReferralParams()).(flatFee := v)
      ensures Box() == old(Box())
      ensures v > old(flatFee) ==> Referral().referralRevenue > old(Referral().referralRevenue)
      ensures v < old(flatFee) ==> Referral().referralRevenue < old(Referral().referralRevenue)
    {
      ghost var before := ReferralParams();
      flatFee := v;
      ReferralRevenueOrdered(before, ReferralParams());
    }

    method SetQuotes(v: int)
      requires Valid() && showBoxCalc && OnSlider(v, QuotesSlider)
      modifies this`quotes
      ensures Valid()
      ensures BoxParams() == old(BoxParams()).(quotes := v)
      ensures Referral() == old(Referral())
      ensures v > old(quotes) ==> Box().boxRevenue > old(Box().boxRevenue)
      ensures v < old(quotes) ==> Box().boxRevenue < old(Box().boxRevenue)
    {
      ghost var before := BoxParams();
      quotes := v;
      BoxRevenueOrdered(before, BoxParams());
    }

    method SetPolicyRate(v: int)
      requires Valid() && showBoxCalc && OnSlider(v, PolicyRateSlider)
      modifies this`policyRate
      ensures Valid()
      ensures BoxParams() == old(BoxParams()).(policyRate := v)
      ensures Referral() == old(Referral())
      ensures v > old(policyRate) ==> Box().boxRevenue > old(Box().boxRevenue)
      ensures v < old(policyRate) ==> Box().boxRevenue < old(Box().boxRevenue)
    {
      ghost var before := BoxParams();
      policyRate := v;
      BoxRevenueOrdered(before, BoxParams());
    }

    method SetAvgBoxesPerPolicy(v: int)
      requires Valid() && showBoxCalc && OnSlider(v, AvgBoxesSlider)
      modifies this`avgBoxesPerPolicy
      ensures Valid()
      ensures BoxParams() == old(BoxParams()).(avgBoxesPerPolicy := v)
      ensures Referral() == old(Referral())
      ensures v > old(avgBoxesPerPolicy) ==> Box().boxRevenue > old(Box().boxRevenue)
      ensures v < old(avgBoxesPerPolicy) ==> Box().boxRevenue < old(Box().boxRevenue)
    {
      ghost var before := BoxParams();
      avgBoxesPerPolicy := v;
      BoxRevenueOrdered(before, BoxParams());
    }
  }

  /** Two on-grid referral inputs ordered pointwise have revenues ordered
      the same way, strictly unless they are equal. */
  lemma ReferralRevenueOrdered(p: ReferralInputs, q: ReferralInputs)
    requires ReferralOnSliders(p) && ReferralOnSliders(q)
    ensures ReferralAtMost(p, q) && p != q ==> ProjectReferral(p).referralRevenue < ProjectReferral(q).referralRevenue
    ensures ReferralAtMost(q, p) && p != q ==> ProjectReferral(q).referralRevenue < ProjectReferral(p).referralRevenue
  {
    if ReferralAtMost(p, q) && p != q { ReferralRevenueStrictlyIncreasing(p, q); }
    if ReferralAtMost(q, p) && p != q { ReferralRevenueStrictlyIncreasing(q, p); }
  }

  lemma BoxRevenueOrdered(p: BoxInputs, q: BoxInputs)
    requires BoxOnSliders(p) && BoxOnSliders(q)
    ensures BoxAtMost(p, q) && p != q ==> ProjectBox(p).boxRevenue < ProjectBox(q).boxRevenue
    ensures BoxAtMost(q, p) && p != q ==> ProjectBox(q).boxRevenue < ProjectBox(p).boxRevenue
  {
    if BoxAtMost(p, q) && p != q { BoxRevenueStrictlyIncreasing(p, q); }
    if BoxAtMost(q, p) && p != q { BoxRevenueStrictlyIncreasing(q, p); }
  }
}
