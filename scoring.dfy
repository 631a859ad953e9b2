/**
 * The business-health scoring engine: five component scorers built from threshold ladders, the
 * grade bands, the weighted overall score, the cash-flow trend, and the insights, recommendations,
 * loan eligibility and benchmark derived from them. Money and ratios are `real`.
 */
module Scoring {
  import opened Wrappers
  import Seqs

  /** The engine's input, flattened: financial, operational and growth figures. */
  datatype BusinessData = BusinessData(
    revenue: real, expenses: real, ebitda: real,
    currentAssets: real, currentLiabilities: real, totalAssets: real, totalLiabilities: real,
    cashFlow: seq<real>,
    customerCount: int, invoiceCount: int, averageInvoiceValue: real, paymentTerms: real,
    industryCode: string, businessAge: int,
    revenueGrowthRate: real, customerGrowthRate: real, profitGrowthRate: real)

  // ---------------------------------------------------------------- JavaScript division

  /**
   * The value of a JavaScript division of two finite numbers, rounding aside: the quotient, or,
   * for a zero divisor (always a positive zero here), plus or minus Infinity or NaN by the sign of the dividend.
   */
  datatype Quotient = Finite(value: real) | PlusInfinity | MinusInfinity | NaN

  function Divide(x: real, y: real): Quotient
  {
    if y != 0.0 then Finite(x / y)
    else if x > 0.0 then PlusInfinity
    else if x < 0.0 then MinusInfinity
    else NaN
  }

  /** `q >= c`; false for NaN. */
  predicate AtLeast(q: Quotient, c: real)
  {
    match q
    case Finite(v) => v >= c
    case PlusInfinity => true
    case MinusInfinity => false
    case NaN => false
  }

  /** `q < c`; false for NaN. */
  predicate Below(q: Quotient, c: real)
  {
    match q
    case Finite(v) => v < c
    case PlusInfinity => false
    case MinusInfinity => true
    case NaN => false
  }

  /** `q > c`; false for NaN. */
  predicate Above(q: Quotient, c: real)
  {
    match q
    case Finite(v) => v > c
    case PlusInfinity => true
    case MinusInfinity => false
    case NaN => false
  }

  lemma DivideMonotone(a: real, b: real, y: real)
    requires a <= b && y > 0.0
    ensures a / y <= b / y
  {
    assert b / y - a / y == (b - a) / y;
  }

  lemma DivideAntitone(x: real, y: real, z: real)
    requires x > 0.0 && 0.0 < y <= z
    ensures x / z <= x / y
  {
    assert x / y - x / z == x * (z - y) / (y * z);
  }

  /** Dividing by a positive number and comparing is comparing with the scaled bound. */
  lemma DivideCompare(x: real, y: real, c: real)
    requires y > 0.0
    ensures x / y > c <==> x > c * y
    ensures x / y < c <==> x < c * y
  {
    assert x == (x / y) * y;
  }

  // ---------------------------------------------------------------- grades

  datatype Grade = APlus | A | BPlus | B | CPlus | C | D | F

  /** The position of a grade, `F` lowest. */
  function Rank(g: Grade): nat
  {
    match g
    case F => 0
    case D => 1
    case C => 2
    case CPlus => 3
    case B => 4
    case BPlus => 5
    case A => 6
    case APlus => 7
  }

  /** `getGrade`. */
  function GradeOf(score: int): Grade
  {
    if score >= 95 then APlus
    else if score >= 85 then A
    else if score >= 80 then BPlus
    else if score >= 75 then B
    else if score >= 70 then CPlus
    else if score >= 60 then C
    else if score >= 50 then D
    else F
  }

  /** The lower bounds of the grade bands, from `D` up to `A+`. */
  const Bands: seq<int> := [50, 60, 70, 75, 80, 85, 95]

  /** How many of the bounds the score reaches. */
  function Passed(bounds: seq<int>, score: int): nat
  {
    if bounds == [] then 0 else (if score >= bounds[0] then 1 else 0) + Passed(bounds[1..], score)
  }

  lemma {:induction false} PassedMonotone(bounds: seq<int>, a: int, b: int)
    requires a <= b
    ensures Passed(bounds, a) <= Passed(bounds, b)
  {
    if bounds != [] {
      PassedMonotone(bounds[1..], a, b);
    }
  }

  /** A grade is as high as the number of band bounds the score reaches. */
  lemma GradeCountsBands(score: int)
    ensures Rank(GradeOf(score)) == Passed(Bands, score)
  {
    var one := if score >= 95 then 1 else 0;
    assert Passed([95], score) == one by { assert [95][1..] == []; }
    var two := one + if score >= 85 then 1 else 0;
    assert Passed([85, 95], score) == two by { assert [85, 95][1..] == [95]; }
    var three := two + if score >= 80 then 1 else 0;
    assert Passed([80, 85, 95], score) == three by { assert [80, 85, 95][1..] == [85, 95]; }
    var four := three + if score >= 75 then 1 else 0;
    assert Passed([75, 80, 85, 95], score) == four by { assert [75, 80, 85, 95][1..] == [80, 85, 95]; }
    var five := four + if score >= 70 then 1 else 0;
    assert Passed([70, 75, 80, 85, 95], score) == five by { assert [70, 75, 80, 85, 95][1..] == [75, 80, 85, 95]; }
    var six := five + if score >= 60 then 1 else 0;
    assert Passed([60, 70, 75, 80, 85, 95], score) == six by { assert [60, 70, 75, 80, 85, 95][1..] == [70, 75, 80, 85, 95]; }
    assert Bands[1..] == [60, 70, 75, 80, 85, 95];
  }

  /** A higher score never gets a lower grade. */
  lemma GradeMonotone(a: int, b: int)
    requires a <= b
    ensures Rank(GradeOf(a)) <= Rank(GradeOf(b))
  {
    GradeCountsBands(a);
    GradeCountsBands(b);
    PassedMonotone(Bands, a, b);
  }

  function Distance(a: int, b: int): nat
  {
    if a <= b then b - a else a - b
  }

  /** `Math.max(0, Math.min(100, score))`: the point of [0, 100] nearest the score. */
  function Clamp(score: int): (r: int)
    ensures 0 <= r <= 100
    ensures forall t :: 0 <= t <= 100 ==> Distance(r, score) <= Distance(t, score)
  {
    if score < 0 then 0 else if score > 100 then 100 else score
  }

  /** Grading the unclamped score gives the grade of the clamped one. */
  lemma ClampKeepsGrade(score: int)
    ensures GradeOf(Clamp(score)) == GradeOf(score)
  {
  }

  // ---------------------------------------------------------------- component scores

  datatype ComponentScore = ComponentScore(score: int, grade: Grade, factors: seq<string>, insights: seq<string>)

  /** One rung of a ladder that fired: the points it adds, the factor it names, and the insight it adds, if any. */
  datatype Step = Step(points: int, factor: string, insight: Option<string>)

  function Gain(s: Option<Step>): int
  {
    if s.Some? then s.value.points else 0
  }

  /** The points of the rungs that fired. */
  function Points(steps: seq<Option<Step>>): int
  {
    if steps == [] then 0 else Points(steps[..|steps| - 1]) + Gain(steps[|steps| - 1])
  }

  /** The factors of the rungs that fired, in order. */
  function Factors(steps: seq<Option<Step>>): seq<string>
  {
    if steps == [] then []
    else
      var last := steps[|steps| - 1];
      Factors(steps[..|steps| - 1]) + (if last.Some? then [last.value.factor] else [])
  }

  /** The insights of the rungs that fired, in order. */
  function Insights(steps: seq<Option<Step>>): seq<string>
  {
    if steps == [] then []
    else
      var last := steps[|steps| - 1];
      Insights(steps[..|steps| - 1]) + (if last.Some? && last.value.insight.Some? then [last.value.insight.value] else [])
  }

  lemma PointsTwo(a: Option<Step>, b: Option<Step>)
    ensures Points([a, b]) == Gain(a) + Gain(b)
  {
    assert [a][..0] == [];
    assert Points([a]) == Gain(a);
    assert [a, b][..1] == [a];
  }

  lemma PointsThree(a: Option<Step>, b: Option<Step>, c: Option<Step>)
    ensures Points([a, b, c]) == Gain(a) + Gain(b) + Gain(c)
  {
    assert [a, b, c][..2] == [a, b];
    PointsTwo(a, b);
  }

  lemma PointsFour(a: Option<Step>, b: Option<Step>, c: Option<Step>, e: Option<Step>)
    ensures Points([a, b, c, e]) == Gain(a) + Gain(b) + Gain(c) + Gain(e)
  {
    assert [a, b, c, e][..3] == [a, b, c];
    PointsThree(a, b, c);
  }

  /**
   * The body shared by the scorers: `let score = base`, then for every rung that fires `score += points`,
   * `factors.push(factor)` and, when it has one, `insights.push(insight)`; the score returned is clamped,
   * the grade is taken from the unclamped score.
   */
  method Apply(base: int, steps: seq<Option<Step>>) returns (c: ComponentScore)
    ensures c.score == Clamp(base + Points(steps))
    ensures 0 <= c.score <= 100 && c.grade == GradeOf(c.score) && c.grade == GradeOf(base + Points(steps))
    ensures c.factors == Factors(steps) && c.insights == Insights(steps)
  {
    var score := base;
    var factors: seq<string> := [];
    var insights: seq<string> := [];
    for i := 0 to |steps|
      invariant score == base + Points(steps[..i])
      invariant factors == Factors(steps[..i]) && insights == Insights(steps[..i])
    {
      assert steps[..i + 1][..i] == steps[..i];
      match steps[i] {
        case None =>
        case Some(s) =>
          score := score + s.points;
          factors := factors + [s.factor];
          if s.insight.Some? {
            insights := insights + [s.insight.value];
          }
      }
    }
    assert steps[..|steps|] == steps;
    ClampKeepsGrade(score);
    c := ComponentScore(Clamp(score), GradeOf(score), factors, insights);
  }

  /** What a scorer returns for a ladder run from `base`: the clamped total, its grade, and the rungs' factors and insights. */
  predicate Scored(c: ComponentScore, base: int, steps: seq<Option<Step>>)
  {
    && c.score == Clamp(base + Points(steps)) && c.grade == GradeOf(c.score)
    && c.factors == Factors(steps) && c.insights == Insights(steps)
  }

  // ---------------------------------------------------------------- cash-flow trend

  datatype Trend = Improving | Declining | Stable

  function Abs(x: real): real
  {
    if x < 0.0 then -x else x
  }

  function Mean(xs: seq<real>): real
    requires xs != []
  {
    Seqs.Sum(xs) / (|xs| as real)
  }

  /** Where `slice(-6, -3)` starts. */
  function EarlierStart(n: nat): nat
  {
    if n >= 6 then n - 6 else 0
  }

  /**
   * `analyzeCashFlowTrend`: the mean of the last three months against the mean of the (up to) three
   * months before them, as a change relative to the earlier mean.
   */
  function CashFlowTrend(cashFlow: seq<real>): Trend
  {
    if |cashFlow| < 3 then Stable
    else
      var n := |cashFlow|;
      var recent := cashFlow[n - 3..];
      var earlier := cashFlow[EarlierStart(n)..n - 3];
      if earlier == [] then Stable
      else
        var change := Divide(Mean(recent) - Mean(earlier), Abs(Mean(earlier)));
        if Above(change, 0.1) then Improving
        else if Below(change, -0.1) then Declining
        else Stable
  }

  /**
   * Fewer than four months are always stable; otherwise the trend is improving exactly when the recent
   * mean exceeds the earlier one by more than a tenth of the earlier mean's size, and declining exactly
   * when it falls short of it by more than that (a zero earlier mean included).
   */
  lemma TrendSpec(cashFlow: seq<real>)
    ensures |cashFlow| < 4 ==> CashFlowTrend(cashFlow) == Stable
    ensures |cashFlow| >= 4 ==>
              var n := |cashFlow|;
              var recent, earlier := cashFlow[n - 3..], cashFlow[EarlierStart(n)..n - 3];
              && 1 <= |earlier| <= 3 && |recent| == 3
              && (CashFlowTrend(cashFlow) == Improving <==> Mean(recent) - Mean(earlier) > 0.1 * Abs(Mean(earlier)))
              && (CashFlowTrend(cashFlow) == Declining <==> Mean(recent) - Mean(earlier) < -0.1 * Abs(Mean(earlier)))
  {
    var n := |cashFlow|;
    if n >= 4 {
      var recent, earlier := cashFlow[n - 3..], cashFlow[EarlierStart(n)..n - 3];
      var diff, size := Mean(recent) - Mean(earlier), Abs(Mean(earlier));
      if size > 0.0 {
        DivideCompare(diff, size, 0.1);
        DivideCompare(diff, size, -0.1);
      }
    }
  }

  // ---------------------------------------------------------------- the ladders

  /** Current ratio (lines 168-186). */
  function CurrentRatioRule(ratio: real): (r: Step)
    ensures -20 <= r.points <= 25
  {
    if ratio >= 2.0 then Step(25, "Strong current ratio", Some("Excellent short-term liquidity position"))
    else if ratio >= 1.5 then Step(15, "Good current ratio", None)
    else if ratio >= 1.0 then Step(5, "Adequate current ratio", Some("Monitor cash flow closely"))
    else Step(-20, "Poor current ratio", Some("Critical liquidity concern - immediate attention needed"))
  }

  function TrendRule(trend: Trend): (r: Option<Step>)
    ensures -15 <= Gain(r) <= 15
  {
    match trend
    case Improving => Some(Step(15, "Improving cash flow trend", Some("Cash flow is trending positively")))
    case Declining => Some(Step(-15, "Declining cash flow trend", Some("Cash flow decline requires attention")))
    case Stable => None
  }

  function WorkingCapitalRule(ratio: Quotient): (r: Option<Step>)
    ensures -15 <= Gain(r) <= 10
  {
    if AtLeast(ratio, 0.15) then Some(Step(10, "Healthy working capital", None))
    else if Below(ratio, 0.0) then Some(Step(-15, "Negative working capital", Some("Working capital needs improvement")))
    else None
  }

  function LiquiditySteps(d: BusinessData): seq<Option<Step>>
  {
    [ if d.currentLiabilities > 0.0 then Some(CurrentRatioRule(d.currentAssets / d.currentLiabilities)) else None,
      TrendRule(CashFlowTrend(d.cashFlow)),
      WorkingCapitalRule(Divide(d.currentAssets - d.currentLiabilities, d.revenue)) ]
  }

  function GrossMarginRule(margin: real): (r: Option<Step>)
    ensures -25 <= Gain(r) <= 20
  {
    if margin >= 0.4 then Some(Step(20, "Excellent profit margins", Some("Strong pricing power and cost control")))
    else if margin >= 0.2 then Some(Step(10, "Good profit margins", None))
    else if margin >= 0.1 then Some(Step(5, "Adequate profit margins", None))
    else if margin <= 0.0 then Some(Step(-25, "Operating at a loss", Some("Urgent need to address profitability")))
    else None
  }

  function EbitdaMarginRule(margin: real): (r: Option<Step>)
    ensures -20 <= Gain(r) <= 15
  {
    if margin >= 0.15 then Some(Step(15, "Strong EBITDA margins", None))
    else if margin >= 0.05 then Some(Step(5, "Moderate EBITDA margins", None))
    else if margin < 0.0 then Some(Step(-20, "Negative EBITDA", Some("Business is not generating positive earnings")))
    else None
  }

  function GrowthRule(rate: real): (r: Option<Step>)
    ensures -15 <= Gain(r) <= 10
  {
    if rate >= 0.2 then Some(Step(10, "Strong revenue growth", Some("Business is expanding rapidly")))
    else if rate >= 0.1 then Some(Step(5, "Moderate revenue growth", None))
    else if rate < -0.1 then Some(Step(-15, "Declining revenue", Some("Revenue decline needs immediate attention")))
    else None
  }

  function ProfitabilitySteps(d: BusinessData): seq<Option<Step>>
  {
    [ if d.revenue > 0.0 then GrossMarginRule((d.revenue - d.expenses) / d.revenue) else None,
      if d.revenue > 0.0 then EbitdaMarginRule(d.ebitda / d.revenue) else None,
      GrowthRule(d.revenueGrowthRate) ]
  }

  function DebtRule(ratio: real): (r: Step)
    ensures -20 <= r.points <= 20
  {
    if ratio <= 0.3 then Step(20, "Low debt burden", Some("Conservative debt management"))
    else if ratio <= 0.5 then Step(10, "Moderate debt levels", None)
    else if ratio <= 0.7 then Step(-5, "High debt levels", Some("Monitor debt servicing carefully"))
    else Step(-20, "Excessive debt burden", Some("Debt levels may be unsustainable"))
  }

  function CoverageRule(coverage: Quotient): (r: Option<Step>)
    ensures -20 <= Gain(r) <= 15
  {
    if AtLeast(coverage, 5.0) then Some(Step(15, "Strong debt service capability", None))
    else if AtLeast(coverage, 2.5) then Some(Step(5, "Adequate debt service capability", None))
    else if Below(coverage, 1.5) then Some(Step(-20, "Poor debt service capability", Some("Difficulty meeting debt obligations")))
    else None
  }

  /** The interest is estimated at 5% of the total liabilities. */
  function LeverageSteps(d: BusinessData): seq<Option<Step>>
  {
    [ if d.totalAssets > 0.0 then Some(DebtRule(d.totalLiabilities / d.totalAssets)) else None,
      if d.ebitda > 0.0 then CoverageRule(Divide(d.ebitda, d.totalLiabilities * 0.05)) else None ]
  }

  function CustomerRule(customers: int): (r: Option<Step>)
    ensures -15 <= Gain(r) <= 15
  {
    if customers >= 50 then Some(Step(15, "Well-diversified customer base", None))
    else if customers >= 20 then Some(Step(10, "Moderate customer diversification", None))
    else if customers < 5 then Some(Step(-15, "High customer concentration risk", Some("Consider diversifying customer base")))
    else None
  }

  /** Business age in months. */
  function AgeRule(months: int): (r: Step)
    ensures -5 <= r.points <= 10
  {
    if months >= 60 then Step(10, "Established business", None)
    else if months >= 24 then Step(5, "Growing business", None)
    else Step(-5, "Early-stage business", Some("Build track record over time"))
  }

  /** The invoice count over twelve is the monthly frequency. */
  function InvoicingRule(invoiceCount: int, averageValue: real): (r: Option<Step>)
    ensures 0 <= Gain(r) <= 10
  {
    var frequency := invoiceCount as real / 12.0;
    if frequency >= 10.0 && averageValue >= 1000.0 then Some(Step(10, "Efficient invoicing operations", None))
    else if frequency >= 5.0 then Some(Step(5, "Regular invoicing activity", None))
    else None
  }

  function TermsRule(days: real): (r: Option<Step>)
    ensures -10 <= Gain(r) <= 5
  {
    if days <= 30.0 then Some(Step(5, "Reasonable payment terms", None))
    else if days > 60.0 then Some(Step(-10, "Extended payment terms", Some("Consider reducing payment terms to improve cash flow")))
    else None
  }

  function OperationalSteps(d: BusinessData): seq<Option<Step>>
  {
    [ CustomerRule(d.customerCount),
      Some(AgeRule(d.businessAge)),
      InvoicingRule(d.invoiceCount, d.averageInvoiceValue),
      TermsRule(d.paymentTerms) ]
  }

  function ReportingRule(invoiceCount: int): (r: Step)
    ensures r.points == (if invoiceCount > 0 then 0 else -20)
  {
    if invoiceCount > 0 then Step(0, "Active financial reporting", None)
    else Step(-20, "No recent financial activity", Some("Ensure regular business activity reporting"))
  }

  function StructureRule(months: int): (r: Option<Step>)
    ensures Gain(r) == 0
  {
    if months >= 12 then Some(Step(0, "Established business structure", None)) else None
  }

  /** 60000 is the GST registration threshold. */
  function GstRule(revenue: real): (r: Option<Step>)
    ensures Gain(r) == 0
  {
    if revenue >= 60000.0 then Some(Step(0, "Above GST registration threshold", Some("Ensure GST compliance if not already registered")))
    else None
  }

  function ComplianceSteps(d: BusinessData): seq<Option<Step>>
  {
    [ Some(ReportingRule(d.invoiceCount)), StructureRule(d.businessAge), GstRule(d.revenue) ]
  }

  // ---------------------------------------------------------------- the scorers

  /** The liquidity ladders can only reach 0 to 100, so clamping never changes the liquidity score. */
  method LiquidityScore(d: BusinessData) returns (c: ComponentScore)
    ensures Scored(c, 50, LiquiditySteps(d))
    ensures c.score == 50 + Points(LiquiditySteps(d))
    ensures 0 <= c.score <= 100 && c.grade == GradeOf(c.score)
    ensures c.factors == Factors(LiquiditySteps(d)) && c.insights == Insights(LiquiditySteps(d))
  {
    var steps := LiquiditySteps(d);
    PointsThree(steps[0], steps[1], steps[2]);
    c := Apply(50, steps);
  }

  /** The profitability ladders reach -10 to 95; below 0 the score is clamped to 0. */
  method ProfitabilityScore(d: BusinessData) returns (c: ComponentScore)
    ensures Scored(c, 50, ProfitabilitySteps(d))
    ensures -10 <= 50 + Points(ProfitabilitySteps(d)) <= 95
    ensures c.score == Clamp(50 + Points(ProfitabilitySteps(d))) && 0 <= c.score <= 95
    ensures c.grade == GradeOf(c.score)
    ensures c.factors == Factors(ProfitabilitySteps(d)) && c.insights == Insights(ProfitabilitySteps(d))
  {
    var steps := ProfitabilitySteps(d);
    PointsThree(steps[0], steps[1], steps[2]);
    c := Apply(50, steps);
  }

  /** The leverage ladders reach 10 to 85, never clamped. */
  method LeverageScore(d: BusinessData) returns (c: ComponentScore)
    ensures Scored(c, 50, LeverageSteps(d))
    ensures c.score == 50 + Points(LeverageSteps(d)) && 10 <= c.score <= 85
    ensures c.grade == GradeOf(c.score)
    ensures c.factors == Factors(LeverageSteps(d)) && c.insights == Insights(LeverageSteps(d))
  {
    var steps := LeverageSteps(d);
    PointsTwo(steps[0], steps[1]);
    c := Apply(50, steps);
  }

  /** The operational ladders reach 20 to 90, never clamped; the age rung always fires. */
  method OperationalScore(d: BusinessData) returns (c: ComponentScore)
    ensures Scored(c, 50, OperationalSteps(d))
    ensures c.score == 50 + Points(OperationalSteps(d)) && 20 <= c.score <= 90
    ensures c.grade == GradeOf(c.score)
    ensures c.factors == Factors(OperationalSteps(d)) && c.insights == Insights(OperationalSteps(d))
  {
    var steps := OperationalSteps(d);
    PointsFour(steps[0], steps[1], steps[2], steps[3]);
    c := Apply(50, steps);
  }

  /** Compliance starts at 80 and only the reporting rung deducts: the score is 80 with invoices, else 60. */
  method ComplianceScore(d: BusinessData) returns (c: ComponentScore)
    ensures Scored(c, 80, ComplianceSteps(d))
    ensures c.score == (if d.invoiceCount > 0 then 80 else 60)
    ensures c.grade == (if d.invoiceCount > 0 then BPlus else C)
    ensures c.factors == Factors(ComplianceSteps(d)) && c.insights == Insights(ComplianceSteps(d))
  {
    var steps := ComplianceSteps(d);
    PointsThree(steps[0], steps[1], steps[2]);
    c := Apply(80, steps);
  }

  // ---------------------------------------------------------------- monotonicity of the ladders

  lemma CurrentRatioMonotone(x: real, y: real)
    requires x <= y
    ensures CurrentRatioRule(x).points <= CurrentRatioRule(y).points
  {
  }

  /** For a non-negative revenue, the working-capital rung never falls as the working capital grows. */
  lemma WorkingCapitalMonotone(a: real, b: real, revenue: real)
    requires a <= b && revenue >= 0.0
    ensures Gain(WorkingCapitalRule(Divide(a, revenue))) <= Gain(WorkingCapitalRule(Divide(b, revenue)))
  {
    if revenue > 0.0 {
      DivideMonotone(a, b, revenue);
    }
  }

  /** More current assets never lower the liquidity score, unless the revenue is negative. */
  lemma LiquidityRisesWithAssets(d: BusinessData, extra: real)
    requires extra >= 0.0 && d.revenue >= 0.0
    ensures Points(LiquiditySteps(d)) <= Points(LiquiditySteps(d.(currentAssets := d.currentAssets + extra)))
  {
    var e := d.(currentAssets := d.currentAssets + extra);
    var s, t := LiquiditySteps(d), LiquiditySteps(e);
    PointsThree(s[0], s[1], s[2]);
    PointsThree(t[0], t[1], t[2]);
    if d.currentLiabilities > 0.0 {
      DivideMonotone(d.currentAssets, e.currentAssets, d.currentLiabilities);
      CurrentRatioMonotone(d.currentAssets / d.currentLiabilities, e.currentAssets / d.currentLiabilities);
    }
    WorkingCapitalMonotone(d.currentAssets - d.currentLiabilities, e.currentAssets - e.currentLiabilities, d.revenue);
  }

  /** Higher expenses never raise the profitability score. */
  lemma ProfitabilityFallsWithExpenses(d: BusinessData, extra: real)
    requires extra >= 0.0
    ensures Points(ProfitabilitySteps(d.(expenses := d.expenses + extra))) <= Points(ProfitabilitySteps(d))
  {
    var e := d.(expenses := d.expenses + extra);
    var s, t := ProfitabilitySteps(d), ProfitabilitySteps(e);
    PointsThree(s[0], s[1], s[2]);
    PointsThree(t[0], t[1], t[2]);
    if d.revenue > 0.0 {
      DivideMonotone(e.revenue - e.expenses, d.revenue - d.expenses, d.revenue);
      assert Gain(t[0]) <= Gain(s[0]);
    }
  }

  /** More liabilities never raise the leverage score, for non-negative liabilities. */
  lemma LeverageFallsWithLiabilities(d: BusinessData, extra: real)
    requires extra >= 0.0 && d.totalLiabilities >= 0.0
    ensures Points(LeverageSteps(d.(totalLiabilities := d.totalLiabilities + extra))) <= Points(LeverageSteps(d))
  {
    var e := d.(totalLiabilities := d.totalLiabilities + extra);
    var s, t := LeverageSteps(d), LeverageSteps(e);
    PointsTwo(s[0], s[1]);
    PointsTwo(t[0], t[1]);
    if d.totalAssets > 0.0 {
      DivideMonotone(d.totalLiabilities, e.totalLiabilities, d.totalAssets);
    }
    if d.ebitda > 0.0 && d.totalLiabilities > 0.0 {
      DivideAntitone(d.ebitda, d.totalLiabilities * 0.05, e.totalLiabilities * 0.05);
    }
    assert Gain(t[1]) <= Gain(s[1]);
  }

  /** More customers never lower the operational score. */
  lemma OperationalRisesWithCustomers(d: BusinessData, more: int)
    requires more >= d.customerCount
    ensures Points(OperationalSteps(d)) <= Points(OperationalSteps(d.(customerCount := more)))
  {
    var e := d.(customerCount := more);
    var s, t := OperationalSteps(d), OperationalSteps(e);
    PointsFour(s[0], s[1], s[2], s[3]);
    PointsFour(t[0], t[1], t[2], t[3]);
  }

  // ---------------------------------------------------------------- overall score

  datatype Components = Components(
    liquidity: ComponentScore, profitability: ComponentScore, leverage: ComponentScore,
    operational: ComponentScore, compliance: ComponentScore)

  const LiquidityWeight: real := 0.25
  const ProfitabilityWeight: real := 0.25
  const LeverageWeight: real := 0.20
  const OperationalWeight: real := 0.20
  const ComplianceWeight: real := 0.10

  predicate InRange(c: Components)
  {
    && 0 <= c.liquidity.score <= 100 && 0 <= c.profitability.score <= 100 && 0 <= c.leverage.score <= 100
    && 0 <= c.operational.score <= 100 && 0 <= c.compliance.score <= 100
  }

  function Weighted(c: Components): real
  {
    c.liquidity.score as real * LiquidityWeight + c.profitability.score as real * ProfitabilityWeight
    + c.leverage.score as real * LeverageWeight + c.operational.score as real * OperationalWeight
    + c.compliance.score as real * ComplianceWeight
  }

  /** `Math.round`: halves round up. */
  function Round(x: real): int
  {
    (x + 0.5).Floor
  }

  /**
   * The rounded weighted score; as the weights sum to 1 it stays within [0, 100], within a half of the
   * weighted sum, and it is the common score when all five agree.
   */
  function Overall(c: Components): (r: int)
    requires InRange(c)
    ensures 0 <= r <= 100
    ensures Weighted(c) - 0.5 < r as real <= Weighted(c) + 0.5
  {
    assert LiquidityWeight + ProfitabilityWeight + LeverageWeight + OperationalWeight + ComplianceWeight == 1.0;
    Round(Weighted(c))
  }

  /** When all five components score the same, so does the business. */
  lemma OverallOfEqualScores(c: Components)
    requires InRange(c)
    requires c.profitability.score == c.leverage.score == c.operational.score == c.compliance.score == c.liquidity.score
    ensures Overall(c) == c.liquidity.score
  {
    assert Weighted(c) == c.liquidity.score as real;
  }

  // ---------------------------------------------------------------- insights and recommendations

  const CashInsight := "Strong profits but cash flow management needs attention"
  const RiskInsight := "High debt combined with low profitability poses significant risk"

  /** `Object.values(components)`: in the order the components were added. */
  function Values(c: Components): seq<ComponentScore>
  {
    [c.liquidity, c.profitability, c.leverage, c.operational, c.compliance]
  }

  function Gathered(cs: seq<ComponentScore>): seq<string>
  {
    if cs == [] then [] else Gathered(cs[..|cs| - 1]) + cs[|cs| - 1].insights
  }

  lemma {:induction false} GatheredHas(cs: seq<ComponentScore>)
    ensures forall i, y :: 0 <= i < |cs| && y in cs[i].insights ==> y in Gathered(cs)
    ensures forall y :: y in Gathered(cs) ==> exists i :: 0 <= i < |cs| && y in cs[i].insights
  {
    if cs != [] {
      var init := cs[..|cs| - 1];
      GatheredHas(init);
      forall y | y in Gathered(cs) ensures exists i :: 0 <= i < |cs| && y in cs[i].insights {
        if y in Gathered(init) {
          var i :| 0 <= i < |init| && y in init[i].insights;
          assert cs[i] == init[i];
        } else {
          assert y in cs[|cs| - 1].insights;
        }
      }
    }
  }

  predicate CashWarning(c: Components)
  {
    c.liquidity.score < 60 && c.profitability.score > 75
  }

  predicate RiskWarning(c: Components)
  {
    c.leverage.score < 50 && c.profitability.score < 60
  }

  /** Everything pushed before de-duplication. */
  function Pushed(c: Components): seq<string>
  {
    Gathered(Values(c)) + (if CashWarning(c) then [CashInsight] else []) + (if RiskWarning(c) then [RiskInsight] else [])
  }

  /**
   * `generateInsights`: every component's insights, then the two combined warnings when they apply,
   * each message once, in the order of its first appearance.
   */
  method GenerateInsights(c: Components) returns (r: seq<string>)
    ensures forall i, y :: 0 <= i < 5 && y in Values(c)[i].insights ==> y in r
    ensures CashWarning(c) ==> CashInsight in r
    ensures RiskWarning(c) ==> RiskInsight in r
    ensures forall y :: y in r ==>
              (exists i :: 0 <= i < 5 && y in Values(c)[i].insights)
              || (y == CashInsight && CashWarning(c)) || (y == RiskInsight && RiskWarning(c))
    ensures forall a, b :: 0 <= a < b < |r| ==> r[a] != r[b]
    ensures forall y :: y in r <==> y in Pushed(c)
    ensures forall a, b :: 0 <= a < b < |r| ==> Seqs.IndexOf(Pushed(c), r[a]) < Seqs.IndexOf(Pushed(c), r[b])
    ensures r == Seqs.KeepFirst(Pushed(c))
  {
    var all := Values(c);
    var insights: seq<string> := [];
    for i := 0 to |all|
      invariant insights == Gathered(all[..i])
    {
      assert all[..i + 1][..i] == all[..i];
      insights := insights + all[i].insights;
    }
    assert all[..|all|] == all;
    if CashWarning(c) {
      insights := insights + [CashInsight];
    }
    if RiskWarning(c) {
      insights := insights + [RiskInsight];
    }
    assert insights == Pushed(c);
    r := Seqs.KeepFirst(insights);
    Seqs.KeepFirstSpec(insights);
    GatheredHas(all);
  }

  datatype Priority = High | Medium | Low

  datatype Recommendation = Recommendation(kind: string, priority: Priority, title: string, description: string, impact: int)

  const CashFlowAdvice := Recommendation("cash_flow", High, "Improve Cash Flow Management",
                                         "Focus on reducing payment terms and improving collection processes", 15)
  const ProfitabilityAdvice := Recommendation("profitability", High, "Enhance Profitability",
                                              "Review pricing strategy and cost structure optimization", 20)

  /** `generateRecommendations`: one high-priority recommendation for each of liquidity and profitability below 60. */
  function Recommendations(c: Components): (r: seq<Recommendation>)
    ensures forall i :: 0 <= i < |r| ==> r[i].priority == High
    ensures CashFlowAdvice in r <==> c.liquidity.score < 60
    ensures ProfitabilityAdvice in r <==> c.profitability.score < 60
    ensures |r| <= 2
  {
    (if c.liquidity.score < 60 then [CashFlowAdvice] else []) + (if c.profitability.score < 60 then [ProfitabilityAdvice] else [])
  }

  // ---------------------------------------------------------------- eligibility and benchmark

  datatype Eligibility = Eligibility(secured: bool, unsecured: bool, growth: bool, estimatedAmount: real, confidenceLevel: real)

  function Min(a: real, b: real): real
  {
    if a <= b then a else b
  }

  function Max(a: real, b: real): real
  {
    if a >= b then a else b
  }

  /** `assessLoanEligibility`; the EBITDA stands for the cash flow. */
  function LoanEligibility(d: BusinessData, overall: int): (e: Eligibility)
    ensures e.secured <==> overall >= 60 && d.revenue >= 100000.0
    ensures e.unsecured <==> overall >= 70 && d.ebitda > 0.0
    ensures e.growth <==> overall >= 80 && d.revenueGrowthRate > 0.1
    ensures e.estimatedAmount <= d.revenue * 0.25 && e.estimatedAmount <= d.ebitda * 5.0
    ensures e.estimatedAmount == d.revenue * 0.25 || e.estimatedAmount == d.ebitda * 5.0
    ensures e.confidenceLevel >= 0.3 && (overall <= 100 ==> e.confidenceLevel <= 1.0)
  {
    Eligibility(
      overall >= 60 && d.revenue >= 100000.0,
      overall >= 70 && d.ebitda > 0.0,
      overall >= 80 && d.revenueGrowthRate > 0.1,
      Min(d.revenue * 0.25, d.ebitda * 5.0),
      Max(0.3, overall as real / 100.0))
  }

  /** A better overall score never withdraws an offer nor lowers the confidence; the amount does not depend on it. */
  lemma EligibilityMonotone(d: BusinessData, a: int, b: int)
    requires a <= b
    ensures LoanEligibility(d, a).secured ==> LoanEligibility(d, b).secured
    ensures LoanEligibility(d, a).unsecured ==> LoanEligibility(d, b).unsecured
    ensures LoanEligibility(d, a).growth ==> LoanEligibility(d, b).growth
    ensures LoanEligibility(d, a).confidenceLevel <= LoanEligibility(d, b).confidenceLevel
    ensures LoanEligibility(d, a).estimatedAmount == LoanEligibility(d, b).estimatedAmount
  {
  }

  datatype Benchmark = Benchmark(percentile: int, industry: string, peerComparison: string, keyStrengths: seq<string>)

  const DefaultIndustry := "General Business"

  function PeerComparison(overall: int): string
  {
    if overall >= 75 then "Above Average" else if overall >= 50 then "Average" else "Below Average"
  }

  /** The position of a peer comparison, "Below Average" lowest. */
  function PeerRank(comparison: string): nat
  {
    if comparison == "Above Average" then 2 else if comparison == "Average" then 1 else 0
  }

  /** `generateBenchmarkComparison`: the score as a percentile kept within [10, 90], and a peer label. */
  function BenchmarkComparison(d: BusinessData, overall: int): (b: Benchmark)
    ensures 10 <= b.percentile <= 90
    ensures 10 <= overall <= 90 ==> b.percentile == overall
    ensures b.industry != "" && (d.industryCode != "" ==> b.industry == d.industryCode)
  {
    Benchmark(
      if overall > 90 then 90 else if overall < 10 then 10 else overall,
      if d.industryCode == "" then DefaultIndustry else d.industryCode,
      PeerComparison(overall),
      ["Financial Management", "Operational Efficiency"])
  }

  /** A better score never lowers the percentile or the peer label. */
  lemma BenchmarkMonotone(d: BusinessData, a: int, b: int)
    requires a <= b
    ensures BenchmarkComparison(d, a).percentile <= BenchmarkComparison(d, b).percentile
    ensures PeerRank(BenchmarkComparison(d, a).peerComparison) <= PeerRank(BenchmarkComparison(d, b).peerComparison)
  {
  }

  // ---------------------------------------------------------------- the whole score

  datatype HealthScore = HealthScore(
    overall: int, grade: Grade, components: Components, loanEligibility: Eligibility,
    benchmark: Benchmark, insights: seq<string>, recommendations: seq<Recommendation>)

  /**
   * `performHealthScoreCalculation`, without the timestamp: the five scorers run on the data, the
   * rounded weighted score and its grade, and the insights, recommendations, loan eligibility and
   * benchmark derived from them.
   */
  method Calculate(d: BusinessData) returns (h: HealthScore)
    ensures Scored(h.components.liquidity, 50, LiquiditySteps(d))
    ensures Scored(h.components.profitability, 50, ProfitabilitySteps(d))
    ensures Scored(h.components.leverage, 50, LeverageSteps(d))
    ensures Scored(h.components.operational, 50, OperationalSteps(d))
    ensures Scored(h.components.compliance, 80, ComplianceSteps(d))
    ensures InRange(h.components) && h.overall == Overall(h.components)
    ensures 0 <= h.overall <= 100 && h.grade == GradeOf(h.overall)
    ensures h.components.compliance.score == 60 || h.components.compliance.score == 80
    ensures 10 <= h.benchmark.percentile <= 90
    ensures 0.3 <= h.loanEligibility.confidenceLevel <= 1.0
    ensures forall a, b :: 0 <= a < b < |h.insights| ==> h.insights[a] != h.insights[b]
    ensures forall i, y :: 0 <= i < 5 && y in Values(h.components)[i].insights ==> y in h.insights
    ensures h.insights == Seqs.KeepFirst(Pushed(h.components))
    ensures h.recommendations == Recommendations(h.components)
    ensures h.loanEligibility == LoanEligibility(d, h.overall)
    ensures h.benchmark == BenchmarkComparison(d, h.overall)
  {
    var liquidity := LiquidityScore(d);
    var profitability := ProfitabilityScore(d);
    var leverage := LeverageScore(d);
    var operational := OperationalScore(d);
    var compliance := ComplianceScore(d);
    var components := Components(liquidity, profitability, leverage, operational, compliance);
    var overall := Overall(components);
    var insights := GenerateInsights(components);
    h := HealthScore(overall, GradeOf(overall), components, LoanEligibility(d, overall),
                     BenchmarkComparison(d, overall), insights, Recommendations(components));
  }
}
