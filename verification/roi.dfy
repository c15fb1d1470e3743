/**
 * The results dashboard: the ROI figures derived from the calculator's
 * settled inputs, the discount recommendations for stakeholder negotiations,
 * and the five-tier investment recommendation with its advice message.
 *
 * Numbers are exact reals. Every division whose divisor the user can make
 * zero yields an XReal, so a zero timeline, team size or tool cost produces
 * the same `Infinity` / `NaN` outcome the dashboard computes, instead of
 * being excluded by a precondition.
 */
module Roi {
  import opened Common
  import opened ExtendedReal

  /** Working hours in a week, the base of the productivity percentages. */
  const HoursPerWeek: real := 40.0
  const WeeksPerYear: real := 52.0
  /** The average number of weeks in a month, written 4.33 in the dashboard. */
  const WeeksPerMonth: real := 4.33
  const MonthsPerYear: real := 12.0

  /** What the calculator hands to the dashboard. */
  datatype RoiInputs = RoiInputs(
    teamSize: real,
    hoursSaved: real,
    hourlyCost: real,
    costPerUser: real,
    projectTimeline: real)

  /** Every figure the dashboard derives, in the order it derives them. */
  datatype RoiMetrics = RoiMetrics(
    annualEffortSaved: real,
    totalEffort: real,
    effortSavedPercentage: XReal,
    costSavingsPerWeek: real,
    totalCostSavings: real,
    timelinePercentageOfYear: real,
    totalToolCost: real,
    annualToolCost: real,
    weeklyToolCost: XReal,
    monthlyToolCost: real,
    netProjectSavings: real,
    netAnnualSavings: real,
    roiPercentage: XReal,
    monthlySavings: real,
    quarterlySavings: real,
    weeklySavings: XReal,
    breakEvenMonths: XReal,
    savingsPercentage: real,
    safeDiscount: real,
    moderateDiscount: real,
    aggressiveDiscount: real)

  function AnnualEffortSaved(i: RoiInputs): real { i.teamSize * i.hoursSaved * i.projectTimeline }
  function TotalEffort(i: RoiInputs): real { i.teamSize * HoursPerWeek * i.projectTimeline }
  function EffortSavedPercentage(i: RoiInputs): XReal { Scale(Quot(AnnualEffortSaved(i), TotalEffort(i)), 100.0) }
  function CostSavingsPerWeek(i: RoiInputs): real { i.hourlyCost * i.hoursSaved * i.teamSize }
  /** Savings over the whole timeline; the dashboard also uses them as its "annual" savings. */
  function TotalCostSavings(i: RoiInputs): real { i.projectTimeline * i.hourlyCost * i.hoursSaved * i.teamSize }
  function TimelinePercentageOfYear(i: RoiInputs): real { i.projectTimeline / WeeksPerYear * 100.0 }
  function TotalToolCost(i: RoiInputs): real { i.costPerUser * i.teamSize * (i.projectTimeline / WeeksPerMonth) }
  function AnnualToolCost(i: RoiInputs): real { i.costPerUser * i.teamSize * MonthsPerYear }
  function WeeklyToolCost(i: RoiInputs): XReal { Quot(TotalToolCost(i), i.projectTimeline) }
  function MonthlyToolCost(i: RoiInputs): real { i.costPerUser * i.teamSize }
  function NetProjectSavings(i: RoiInputs): real { TotalCostSavings(i) - TotalToolCost(i) }
  /** Project-timeline savings less a calendar year of tool cost, as the dashboard computes it. */
  function NetAnnualSavings(i: RoiInputs): real { TotalCostSavings(i) - AnnualToolCost(i) }
  function RoiPercentage(i: RoiInputs): XReal { Scale(Quot(NetProjectSavings(i), TotalToolCost(i)), 100.0) }
  function MonthlySavings(i: RoiInputs): real { NetAnnualSavings(i) / MonthsPerYear }
  function QuarterlySavings(i: RoiInputs): real { NetAnnualSavings(i) / 4.0 }
  function WeeklySavings(i: RoiInputs): XReal { Quot(NetAnnualSavings(i), i.projectTimeline) }
  function BreakEvenMonths(i: RoiInputs): XReal {
    if MonthlySavings(i) > 0.0 then Finite(0.0)
    else Abs(Quot(AnnualToolCost(i), TotalCostSavings(i) / MonthsPerYear))
  }
  /** The productivity gain of one person, as a percentage of a 40-hour week. */
  function SavingsPercentage(i: RoiInputs): real { i.hoursSaved / HoursPerWeek * 100.0 }
  function SafeDiscount(i: RoiInputs): real { Min(SavingsPercentage(i) * 0.3, 15.0) }
  function ModerateDiscount(i: RoiInputs): real { Min(SavingsPercentage(i) * 0.5, 25.0) }
  function AggressiveDiscount(i: RoiInputs): real { Min(SavingsPercentage(i) * 0.7, 35.0) }

  /** Every figure at once, as the dashboard renders them. */
  function Evaluate(i: RoiInputs): (m: RoiMetrics)
    ensures m.netProjectSavings + m.totalToolCost == m.totalCostSavings
    ensures m.quarterlySavings == 3.0 * m.monthlySavings
    ensures m.netAnnualSavings == MonthsPerYear * m.monthlySavings
    ensures m.roiPercentage.Finite? <==> m.totalToolCost != 0.0
    ensures m.effortSavedPercentage.Finite? <==> m.totalEffort != 0.0
    ensures m.weeklyToolCost.Finite? <==> i.projectTimeline != 0.0
    ensures m.weeklySavings.Finite? <==> i.projectTimeline != 0.0
    ensures m.safeDiscount <= 15.0 && m.moderateDiscount <= 25.0 && m.aggressiveDiscount <= 35.0
    ensures m.breakEvenMonths != NegInf
  {
    RoiMetrics(
      AnnualEffortSaved(i), TotalEffort(i), EffortSavedPercentage(i), CostSavingsPerWeek(i),
      TotalCostSavings(i), TimelinePercentageOfYear(i), TotalToolCost(i), AnnualToolCost(i),
      WeeklyToolCost(i), MonthlyToolCost(i), NetProjectSavings(i), NetAnnualSavings(i),
      RoiPercentage(i), MonthlySavings(i), QuarterlySavings(i), WeeklySavings(i), BreakEvenMonths(i),
      SavingsPercentage(i), SafeDiscount(i), ModerateDiscount(i), AggressiveDiscount(i))
  }

  /**
   * The share of the team's working hours that is saved equals the
   * single-person productivity gain whenever the team and the timeline are
   * nonzero; otherwise the dashboard divides zero by zero.
   */
  lemma EffortShareIsProductivityGain(i: RoiInputs)
    ensures var m := Evaluate(i);
      (i.teamSize != 0.0 && i.projectTimeline != 0.0 ==>
         m.effortSavedPercentage == Finite(m.savingsPercentage) &&
         m.savingsPercentage == i.hoursSaved / HoursPerWeek * 100.0)
    ensures var m := Evaluate(i);
      (i.teamSize == 0.0 || i.projectTimeline == 0.0) ==> m.effortSavedPercentage == NaN
  {
    if i.teamSize != 0.0 && i.projectTimeline != 0.0 {
      var n := i.teamSize * i.projectTimeline;
      assert AnnualEffortSaved(i) == n * i.hoursSaved;
      assert TotalEffort(i) == n * HoursPerWeek;
      CancelCommonFactor(n, i.hoursSaved, HoursPerWeek);
    }
  }

  /** The project savings are the weekly savings over the whole timeline, and the saved hours priced at the hourly cost. */
  lemma TotalSavingsAreWeeklySavingsOverTimeline(i: RoiInputs)
    ensures TotalCostSavings(i) == i.projectTimeline * CostSavingsPerWeek(i)
    ensures TotalCostSavings(i) == AnnualEffortSaved(i) * i.hourlyCost
  {
    var t, h, s, n := i.projectTimeline, i.hourlyCost, i.hoursSaved, i.teamSize;
    assert TotalCostSavings(i) == t * h * s * n;
    assert CostSavingsPerWeek(i) == h * s * n;
    assert AnnualEffortSaved(i) == n * s * t;
    ProductRegroup(t, h, s, n);
    ProductReorder(t, h, s, n);
  }

  /**
   * The tool cost scales the monthly subscription by the number of months in
   * the timeline (4.33 weeks each); per week it is the monthly cost spread
   * over 4.33 weeks, and over a year it is twelve monthly payments.
   */
  lemma ToolCostViews(i: RoiInputs)
    ensures TotalToolCost(i) == MonthlyToolCost(i) * i.projectTimeline / WeeksPerMonth
    ensures AnnualToolCost(i) == MonthsPerYear * MonthlyToolCost(i)
    ensures i.projectTimeline != 0.0 ==> WeeklyToolCost(i) == Finite(MonthlyToolCost(i) / WeeksPerMonth)
    ensures i.projectTimeline == 0.0 ==> WeeklyToolCost(i) == NaN
  {
    var monthly, t := MonthlyToolCost(i), i.projectTimeline;
    assert TotalToolCost(i) == monthly * (t / WeeksPerMonth);
    DivideAfterScaling(monthly, t, WeeksPerMonth);
    if t != 0.0 {
      SpreadOverTimeline(monthly, t, WeeksPerMonth);
      assert WeeklyToolCost(i) == Finite(TotalToolCost(i) / t);
    }
  }

  /**
   * With a positive tool cost the ROI is finite and has the sign of the net
   * project savings; it is zero exactly when savings and cost are equal.
   * With a zero tool cost it is `Infinity`, `NaN` or `-Infinity` according
   * to the sign of the savings.
   */
  lemma RoiHasSignOfNetSavings(i: RoiInputs)
    ensures var m := Evaluate(i);
      m.totalToolCost > 0.0 ==>
        && m.roiPercentage.Finite?
        && (m.roiPercentage.v > 0.0 <==> m.totalCostSavings > m.totalToolCost)
        && (m.roiPercentage.v == 0.0 <==> m.totalCostSavings == m.totalToolCost)
        && (m.roiPercentage.v < 0.0 <==> m.totalCostSavings < m.totalToolCost)
    ensures var m := Evaluate(i);
      m.totalToolCost == 0.0 ==>
        && (m.roiPercentage == PosInf <==> m.totalCostSavings > 0.0)
        && (m.roiPercentage == NaN <==> m.totalCostSavings == 0.0)
        && (m.roiPercentage == NegInf <==> m.totalCostSavings < 0.0)
  {
    var m := Evaluate(i);
    assert m.roiPercentage == Scale(Quot(m.netProjectSavings, m.totalToolCost), 100.0);
    if m.totalToolCost > 0.0 {
      PercentageHasSignOfNumerator(m.netProjectSavings, m.totalToolCost);
    }
  }

  /**
   * The weekly view divides the same net annual savings as the monthly one:
   * the weekly figure is twelve monthly figures spread over the timeline, so
   * (by the contract of `Quot`) it is finite exactly for a nonzero timeline
   * and then times the timeline gives back the twelve monthly figures.
   */
  lemma PeriodViewsAgree(i: RoiInputs)
    ensures var m := Evaluate(i); m.weeklySavings == Quot(MonthsPerYear * m.monthlySavings, i.projectTimeline)
  {
    var m := Evaluate(i);
    assert m.weeklySavings == Quot(m.netAnnualSavings, i.projectTimeline);
  }

  /**
   * Break-even is immediate when the monthly savings are positive. Otherwise
   * it is the absolute ratio of the annual tool cost to one twelfth of the
   * total (gross) cost savings, not to the net monthly savings; it is finite
   * exactly when the total savings are nonzero, and with no
   * savings at all it is `Infinity` (or `NaN` when the tool is free too).
   * It is never negative.
   */
  lemma BreakEvenMonthsRule(i: RoiInputs)
    ensures var m := Evaluate(i); m.monthlySavings > 0.0 ==> m.breakEvenMonths == Finite(0.0)
    ensures var m := Evaluate(i);
      m.monthlySavings <= 0.0 && m.totalCostSavings != 0.0 ==>
        m.breakEvenMonths == Finite(AbsReal(MonthsPerYear * m.annualToolCost / m.totalCostSavings))
    ensures var m := Evaluate(i);
      m.monthlySavings <= 0.0 && m.totalCostSavings == 0.0 ==>
        && (m.annualToolCost > 0.0 ==> m.breakEvenMonths == PosInf)
        && (m.annualToolCost == 0.0 ==> m.breakEvenMonths == NaN)
    ensures var m := Evaluate(i);
      m.breakEvenMonths != NegInf && (m.breakEvenMonths.Finite? ==> m.breakEvenMonths.v >= 0.0)
  {
    if MonthlySavings(i) <= 0.0 && TotalCostSavings(i) != 0.0 {
      DivideByRate(AnnualToolCost(i), TotalCostSavings(i), MonthsPerYear);
    }
  }

  /**
   * The three negotiation discounts are 30%, 50% and 70% of the productivity
   * gain, capped at 15, 25 and 35 points; for a non-negative number of saved
   * hours they are ordered safe <= moderate <= aggressive.
   */
  lemma DiscountsCappedAndOrdered(i: RoiInputs)
    ensures var m := Evaluate(i);
      m.safeDiscount <= 15.0 && m.moderateDiscount <= 25.0 && m.aggressiveDiscount <= 35.0
    ensures var m := Evaluate(i);
      && (m.savingsPercentage * 0.3 <= 15.0 ==> m.safeDiscount == m.savingsPercentage * 0.3)
      && (m.savingsPercentage * 0.5 <= 25.0 ==> m.moderateDiscount == m.savingsPercentage * 0.5)
      && (m.savingsPercentage * 0.7 <= 35.0 ==> m.aggressiveDiscount == m.savingsPercentage * 0.7)
    ensures var m := Evaluate(i);
      i.hoursSaved >= 0.0 ==>
        0.0 <= m.safeDiscount <= m.moderateDiscount <= m.aggressiveDiscount
  {
  }

  /** The investment grade shown on the dashboard. */
  datatype Recommendation =
    | ReviewRequired
    | PositiveRoi
    | GoodInvestment
    | StrongRoi
    | ExcellentInvestment
  {
    /** Position in the ladder from worst (0) to best (4). */
    function Rank(): nat {
      match this
      case ReviewRequired => 0
      case PositiveRoi => 1
      case GoodInvestment => 2
      case StrongRoi => 3
      case ExcellentInvestment => 4
    }

    function Text(): string {
      match this
      case ReviewRequired => "Review Required"
      case PositiveRoi => "Positive ROI"
      case GoodInvestment => "Good Investment"
      case StrongRoi => "Strong ROI"
      case ExcellentInvestment => "Excellent Investment"
    }

    function Icon(): Icon {
      match this
      case ReviewRequired => AlertCircle
      case PositiveRoi => AlertCircle
      case _ => CheckCircle
    }
  }

  datatype Icon = CheckCircle | AlertCircle

  /** The grade ladder, tried from the top; every threshold is a strict `>`. */
  function GetRecommendation(roi: XReal): (r: Recommendation)
    ensures r.Rank() == ThresholdsExceeded(roi)
  {
    ExceedsDownwardClosed(roi, 500.0, 200.0);
    ExceedsDownwardClosed(roi, 200.0, 100.0);
    ExceedsDownwardClosed(roi, 100.0, 0.0);
    if Exceeds(roi, 500.0) then ExcellentInvestment
    else if Exceeds(roi, 200.0) then StrongRoi
    else if Exceeds(roi, 100.0) then GoodInvestment
    else if Exceeds(roi, 0.0) then PositiveRoi
    else ReviewRequired
  }

  /** The advice paragraph under the grade, without the ROI figure and the words that frame it ("X% of", "of X%"). */
  datatype Advice = ExcellentValue | PositiveAdvice | NegativeAdvice {
    function Text(): string {
      match this
      case ExcellentValue => "This investment will return its cost annually, representing excellent value."
      case PositiveAdvice => "Positive ROI. Consider team size and usage optimization."
      case NegativeAdvice => "Current parameters show negative ROI. Consider increasing usage or team size."
    }
  }

  function GetAdvice(roi: XReal): (a: Advice)
    ensures a == ExcellentValue <==> GetRecommendation(roi).Rank() >= 2
    ensures a == PositiveAdvice <==> GetRecommendation(roi) == PositiveRoi
    ensures a == NegativeAdvice <==> GetRecommendation(roi) == ReviewRequired
  {
    if Exceeds(roi, 100.0) then ExcellentValue
    else if Exceeds(roi, 0.0) then PositiveAdvice
    else NegativeAdvice
  }

  /** How many of the four thresholds 0, 100, 200 and 500 the ROI strictly exceeds. */
  function ThresholdsExceeded(roi: XReal): nat {
    (if Exceeds(roi, 0.0) then 1 else 0)
    + (if Exceeds(roi, 100.0) then 1 else 0)
    + (if Exceeds(roi, 200.0) then 1 else 0)
    + (if Exceeds(roi, 500.0) then 1 else 0)
  }

  /** A larger finite ROI never gets a lower grade, and `Infinity` gets the top grade. */
  lemma RecommendationMonotone(a: real, b: real)
    requires a <= b
    ensures GetRecommendation(Finite(a)).Rank() <= GetRecommendation(Finite(b)).Rank()
    ensures GetRecommendation(Finite(b)).Rank() <= GetRecommendation(PosInf).Rank()
    ensures GetRecommendation(NaN) == ReviewRequired && GetRecommendation(NegInf) == ReviewRequired
  {
  }

  /** The thresholds are strict: each boundary value falls to the grade below it. */
  lemma BoundariesFallToLowerGrade()
    ensures GetRecommendation(Finite(500.0)) == StrongRoi
    ensures GetRecommendation(Finite(200.0)) == GoodInvestment
    ensures GetRecommendation(Finite(100.0)) == PositiveRoi
    ensures GetRecommendation(Finite(0.0)) == ReviewRequired
  {
  }

  /** The advice says "excellent value" exactly when the grade carries the check-mark icon. */
  lemma AdviceAgreesWithRecommendation(roi: XReal)
    ensures GetRecommendation(roi).Icon() == CheckCircle <==> GetAdvice(roi) == ExcellentValue
  {
    ExceedsDownwardClosed(roi, 500.0, 100.0);
    ExceedsDownwardClosed(roi, 200.0, 100.0);
    ExceedsDownwardClosed(roi, 100.0, 0.0);
  }

  // Arithmetic steps the solver does not find on its own inside the larger proofs above.

  lemma PercentageHasSignOfNumerator(n: real, d: real)
    requires d > 0.0
    ensures Scale(Quot(n, d), 100.0).Finite?
    ensures Scale(Quot(n, d), 100.0).v > 0.0 <==> n > 0.0
    ensures Scale(Quot(n, d), 100.0).v == 0.0 <==> n == 0.0
    ensures Scale(Quot(n, d), 100.0).v < 0.0 <==> n < 0.0
  {
    var q := n / d;
    assert q * d == n;
  }

  lemma CancelCommonFactor(n: real, x: real, y: real)
    requires n != 0.0 && y != 0.0
    ensures (n * x) / (n * y) == x / y
  {
  }

  lemma ProductRegroup(a: real, b: real, c: real, d: real)
    ensures a * b * c * d == a * (b * c * d)
  {
  }

  lemma ProductReorder(t: real, h: real, s: real, n: real)
    ensures t * h * s * n == n * s * t * h
  {
  }

  lemma DivideAfterScaling(a: real, b: real, c: real)
    requires c != 0.0
    ensures a * (b / c) == a * b / c
  {
  }

  lemma SpreadOverTimeline(a: real, t: real, c: real)
    requires t != 0.0 && c != 0.0
    ensures a * (t / c) / t == a / c
  {
  }

  lemma DivideByRate(a: real, s: real, k: real)
    requires s != 0.0 && k != 0.0
    ensures a / (s / k) == k * a / s
  {
  }
}
