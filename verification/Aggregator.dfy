/** The signal aggregator (backend/app/ai/aggregator.py). */
module Aggregator {
  import opened Common
  import opened RiskAgent

  datatype RiskResult = RiskResult(status: Status, output: RiskOutput)

  /** Results by agent name; a missing one counts as degraded. */
  datatype Results = Results(llm: map<Name, AgentResult>, risk: Option<RiskResult>)

  datatype Settings = Settings(buy: real, sell: real, minConfidence: real)

  /** The shipped settings (backend/app/core/config.py). */
  const DEFAULTS := Settings(0.68, 0.32, 0.65)

  datatype Action = Buy | Sell | Hold

  datatype Signal = Signal(action: Action, confidence: real, raw: real, level: Option<Level>, degraded: seq<Name>)

  function OutputOf(r: Results, n: Name): Option<Analysis> {
    if n in r.llm then r.llm[n].output else None
  }

  function RiskOutputOf(r: Results): RiskOutput {
    if r.risk.Some? then r.risk.value.output else RiskOutput(false, None, None, None)
  }

  // ----- Scores -----

  predicate IsDegraded(o: Option<Analysis>) { o.Some? && o.value.degraded }

  function Measure(o: Option<Analysis>, default: real): real {
    if o.Some? && o.value.measure.Some? then o.value.measure.value else default
  }

  function Confidence(o: Option<Analysis>): real {
    if o.Some? && o.value.confidence.Some? then o.value.confidence.value else 0.5
  }

  /** Only the short-term agent knows AVOID, and to it SELL is worth a little more. */
  function ViewValue(o: Option<Analysis>, n: Name): real {
    match if o.Some? then o.value.view else Middle
    case Good => 1.0
    case Middle => 0.5
    case Bad => if n == Shortterm then 0.1 else 0.0
    case Avoid => if n == Shortterm then 0.0 else 0.5
  }

  function TrendScore(o: Option<Analysis>): real {
    if IsDegraded(o) then 0.5
    else (ViewValue(o, Trend) * 0.6 + Measure(o, 0.5) * 0.4) * (0.5 + Confidence(o) * 0.5)
  }

  function FundamentalScore(o: Option<Analysis>): real {
    if IsDegraded(o) then 0.5 else Measure(o, 50.0) / 100.0 * 0.7 + ViewValue(o, Fundamental) * 0.3
  }

  function SentimentScore(o: Option<Analysis>): real {
    if IsDegraded(o) then 0.5 else ViewValue(o, Sentiment) * 0.7 + Measure(o, 50.0) / 100.0 * 0.3
  }

  function ShorttermScore(o: Option<Analysis>): real {
    if IsDegraded(o) then 0.5 else ViewValue(o, Shortterm) * 0.7 + Confidence(o) * 0.3
  }

  function RiskToScore(o: RiskOutput): real {
    (if o.score.Some? then o.score.value else 50.0) / 100.0
  }

  function Weight(n: Name): real {
    match n case Trend => 0.30 case Fundamental => 0.25 case Sentiment => 0.20 case Shortterm => 0.15 case Risk => 0.10
  }

  function Composite(r: Results): real {
    TrendScore(OutputOf(r, Trend)) * 0.30 + FundamentalScore(OutputOf(r, Fundamental)) * 0.25
    + SentimentScore(OutputOf(r, Sentiment)) * 0.20 + ShorttermScore(OutputOf(r, Shortterm)) * 0.15
    + RiskToScore(RiskOutputOf(r)) * 0.10
  }

  predicate AnalysisInRange(o: Option<Analysis>, top: real) {
    0.0 <= Measure(o, 0.5 * top) <= top && 0.0 <= Confidence(o) <= 1.0
  }

  /** The agents' numbers are in their documented ranges. */
  predicate InRange(r: Results) {
    && AnalysisInRange(OutputOf(r, Trend), 1.0) && AnalysisInRange(OutputOf(r, Fundamental), 100.0)
    && AnalysisInRange(OutputOf(r, Sentiment), 100.0) && AnalysisInRange(OutputOf(r, Shortterm), 1.0)
    && 0.0 <= RiskToScore(RiskOutputOf(r)) <= 1.0
  }

  lemma ProductBounds(a: real, b: real, c: real, d: real)
    requires 0.0 <= a <= c && 0.0 <= b <= d
    ensures 0.0 <= a * b <= c * d
  {
    assert a * b <= c * b;
    assert c * b <= c * d;
  }

  /** Every score stays in [0, 1], and so does their weighted sum. */
  lemma CompositeInRange(r: Results)
    requires InRange(r)
    ensures 0.0 <= Composite(r) <= 1.0
  {
    TrendBounds(OutputOf(r, Trend));
    OtherBounds(OutputOf(r, Fundamental), OutputOf(r, Sentiment), OutputOf(r, Shortterm));
  }

  lemma TrendBounds(o: Option<Analysis>)
    requires AnalysisInRange(o, 1.0)
    ensures 0.0 <= TrendScore(o) <= 1.0
  {
    if !IsDegraded(o) {
      ProductBounds(ViewValue(o, Trend) * 0.6 + Measure(o, 0.5) * 0.4, 0.5 + Confidence(o) * 0.5, 1.0, 1.0);
    }
  }

  lemma OtherBounds(f: Option<Analysis>, s: Option<Analysis>, t: Option<Analysis>)
    requires AnalysisInRange(f, 100.0) && AnalysisInRange(s, 100.0) && AnalysisInRange(t, 1.0)
    ensures 0.0 <= FundamentalScore(f) <= 1.0 && 0.0 <= SentimentScore(s) <= 1.0 && 0.0 <= ShorttermScore(t) <= 1.0
  {
  }

  /** p is at least as favourable as o, field by field, and equally degraded. */
  predicate NoWorse(o: Option<Analysis>, p: Option<Analysis>, n: Name, default: real) {
    && IsDegraded(o) == IsDegraded(p)
    && ViewValue(o, n) <= ViewValue(p, n)
    && Measure(o, default) <= Measure(p, default)
    && Confidence(o) <= Confidence(p)
  }

  /** The composite score rises with every agent's view, measure and confidence and with the risk score. */
  lemma CompositeMonotone(r: Results, t: Results)
    requires InRange(r) && InRange(t)
    requires NoWorse(OutputOf(r, Trend), OutputOf(t, Trend), Trend, 0.5)
    requires NoWorse(OutputOf(r, Fundamental), OutputOf(t, Fundamental), Fundamental, 50.0)
    requires NoWorse(OutputOf(r, Sentiment), OutputOf(t, Sentiment), Sentiment, 50.0)
    requires NoWorse(OutputOf(r, Shortterm), OutputOf(t, Shortterm), Shortterm, 0.5)
    requires RiskToScore(RiskOutputOf(r)) <= RiskToScore(RiskOutputOf(t))
    ensures Composite(r) <= Composite(t)
  {
    TrendMonotone(OutputOf(r, Trend), OutputOf(t, Trend));
    FundamentalMonotone(OutputOf(r, Fundamental), OutputOf(t, Fundamental));
    SentimentMonotone(OutputOf(r, Sentiment), OutputOf(t, Sentiment));
    ShorttermMonotone(OutputOf(r, Shortterm), OutputOf(t, Shortterm));
  }

  lemma TrendMonotone(o: Option<Analysis>, p: Option<Analysis>)
    requires AnalysisInRange(o, 1.0) && NoWorse(o, p, Trend, 0.5)
    ensures TrendScore(o) <= TrendScore(p)
  {
    if !IsDegraded(o) {
      ProductBounds(ViewValue(o, Trend) * 0.6 + Measure(o, 0.5) * 0.4, 0.5 + Confidence(o) * 0.5,
                    ViewValue(p, Trend) * 0.6 + Measure(p, 0.5) * 0.4, 0.5 + Confidence(p) * 0.5);
    }
  }

  lemma FundamentalMonotone(o: Option<Analysis>, p: Option<Analysis>)
    requires NoWorse(o, p, Fundamental, 50.0)
    ensures FundamentalScore(o) <= FundamentalScore(p)
  {
  }

  lemma SentimentMonotone(o: Option<Analysis>, p: Option<Analysis>)
    requires NoWorse(o, p, Sentiment, 50.0)
    ensures SentimentScore(o) <= SentimentScore(p)
  {
  }

  lemma ShorttermMonotone(o: Option<Analysis>, p: Option<Analysis>)
    requires NoWorse(o, p, Shortterm, 0.5)
    ensures ShorttermScore(o) <= ShorttermScore(p)
  {
  }

  function ScoreOf(r: Results, n: Name): real {
    match n
    case Trend => TrendScore(OutputOf(r, Trend))
    case Fundamental => FundamentalScore(OutputOf(r, Fundamental))
    case Sentiment => SentimentScore(OutputOf(r, Sentiment))
    case Shortterm => ShorttermScore(OutputOf(r, Shortterm))
    case Risk => RiskToScore(RiskOutputOf(r))
  }

  /** Replacing one agent's result moves the composite by that agent's weight times the change of its score. */
  lemma WeightIsInfluence(r: Results, t: Results, n: Name)
    requires forall k: Name :: k != n ==> ScoreOf(t, k) == ScoreOf(r, k)
    ensures Composite(t) - Composite(r) == Weight(n) * (ScoreOf(t, n) - ScoreOf(r, n))
  {
    assert Composite(r) == ScoreOf(r, Trend) * 0.30 + ScoreOf(r, Fundamental) * 0.25 + ScoreOf(r, Sentiment) * 0.20
                           + ScoreOf(r, Shortterm) * 0.15 + ScoreOf(r, Risk) * 0.10;
    assert Composite(t) == ScoreOf(t, Trend) * 0.30 + ScoreOf(t, Fundamental) * 0.25 + ScoreOf(t, Sentiment) * 0.20
                           + ScoreOf(t, Shortterm) * 0.15 + ScoreOf(t, Risk) * 0.10;
  }

  predicate Healthy(o: Option<Analysis>) { o.Some? && !o.value.degraded }

  /** A positive sentiment outscores a neutral one, and a neutral one a negative one, whatever the heat. */
  lemma SentimentDominatesHeat(o: Option<Analysis>, p: Option<Analysis>)
    requires Healthy(o) && Healthy(p) && AnalysisInRange(o, 100.0) && AnalysisInRange(p, 100.0)
    requires ViewValue(o, Sentiment) > ViewValue(p, Sentiment)
    ensures SentimentScore(o) >= SentimentScore(p) + 0.05
  {
  }

  /** At equal confidence a rising trend outscores a falling one, whatever the strengths, by at least 0.1; without
      confidence a trend counts half. */
  lemma TrendDominatesStrength(o: Option<Analysis>, p: Option<Analysis>)
    requires Healthy(o) && Healthy(p) && AnalysisInRange(o, 1.0) && AnalysisInRange(p, 1.0)
    requires o.value.view == Good && p.value.view == Bad && Confidence(o) == Confidence(p)
    ensures TrendScore(o) >= TrendScore(p) + 0.1
    ensures Confidence(o) == 1.0 ==>
      TrendScore(Some(o.value.(confidence := Some(0.0)))) == TrendScore(o) / 2.0
  {
    var base, base' := ViewValue(o, Trend) * 0.6 + Measure(o, 0.5) * 0.4, Measure(p, 0.5) * 0.4;
    var c := 0.5 + Confidence(o) * 0.5;
    assert base >= 0.6 && base' <= 0.4;
    ProductBounds(0.2, 0.5, base - base', c);
    assert base * c - base' * c == (base - base') * c;
  }

  /** 43 points of overall score outweigh any growth outlook, 42 do not. */
  lemma ScoreAgainstGrowth(o: Option<Analysis>, p: Option<Analysis>)
    requires Healthy(o) && Healthy(p)
    ensures Measure(o, 50.0) >= Measure(p, 50.0) + 43.0 ==> FundamentalScore(o) > FundamentalScore(p)
    ensures Measure(o, 50.0) == Measure(p, 50.0) + 42.0 && o.value.view == Bad && p.value.view == Good ==>
      FundamentalScore(o) < FundamentalScore(p)
  {
  }

  /** BUY outscores HOLD and HOLD outscores AVOID whatever the confidences; SELL can outscore HOLD, but only when
      its confidence exceeds the other's by more than 0.93. */
  lemma ShorttermOrder(o: Option<Analysis>, p: Option<Analysis>)
    requires Healthy(o) && Healthy(p) && AnalysisInRange(o, 1.0) && AnalysisInRange(p, 1.0)
    ensures o.value.view == Good && p.value.view != Good ==> ShorttermScore(o) > ShorttermScore(p)
    ensures o.value.view == Middle && p.value.view == Avoid ==> ShorttermScore(o) > ShorttermScore(p)
    ensures o.value.view == Bad && p.value.view == Middle ==>
      (ShorttermScore(o) > ShorttermScore(p) <==> Confidence(o) - Confidence(p) > 14.0 / 15.0)
  {
  }

  /** What is missing or degraded counts as neutral: half for every agent, but for a trend without confidence, which
      counts three quarters of that. */
  lemma NeutralScores(o: Option<Analysis>)
    ensures TrendScore(None) == 0.375 && FundamentalScore(None) == 0.5 && SentimentScore(None) == 0.5
    ensures ShorttermScore(None) == 0.5 && RiskToScore(RiskOutput(false, None, None, None)) == 0.5
    ensures o.Some? && o.value.degraded ==>
      TrendScore(o) == FundamentalScore(o) == SentimentScore(o) == ShorttermScore(o) == 0.5
    ensures Healthy(o) && o.value.view == Middle && o.value.measure == None && o.value.confidence == None ==>
      TrendScore(o) == 0.375 && FundamentalScore(o) == SentimentScore(o) == ShorttermScore(o) == 0.5
    ensures Healthy(o) && o.value.view == Avoid && o.value.measure == None && o.value.confidence == None ==>
      FundamentalScore(o) == SentimentScore(o) == 0.5 && ShorttermScore(o) == 0.15
  {
  }

  // ----- Degraded agents -----

  predicate DegradedAgent(r: Results, n: Name) {
    if n == Risk then r.risk.None? || r.risk.value.output.degraded || r.risk.value.status != Ok
    else n !in r.llm || IsDegraded(r.llm[n].output) || r.llm[n].status != Ok
  }

  const NAMES := [Trend, Fundamental, Sentiment, Shortterm, Risk]

  function DegradedOf(r: Results, names: seq<Name>): (d: seq<Name>)
    ensures forall n :: n in d <==> n in names && DegradedAgent(r, n)
  {
    if names == [] then []
    else DegradedOf(r, names[..|names| - 1])
         + (if DegradedAgent(r, names[|names| - 1]) then [names[|names| - 1]] else [])
  }

  method FindDegradedAgents(r: Results) returns (degraded: seq<Name>)
    ensures degraded == DegradedOf(r, NAMES)
  {
    degraded := [];
    for i := 0 to 5
      invariant degraded == DegradedOf(r, NAMES[..i])
    {
      assert NAMES[..i + 1][..i] == NAMES[..i];
      if DegradedAgent(r, NAMES[i]) {
        degraded := degraded + [NAMES[i]];
      }
    }
    assert NAMES[..5] == NAMES;
  }

  // ----- The spread of the confidences -----

  function Sum(xs: seq<real>): real { if xs == [] then 0.0 else Sum(xs[..|xs| - 1]) + xs[|xs| - 1] }

  function SumSquares(xs: seq<real>): real {
    if xs == [] then 0.0 else SumSquares(xs[..|xs| - 1]) + xs[|xs| - 1] * xs[|xs| - 1]
  }

  function SquaredDeviations(xs: seq<real>, mean: real): real {
    if xs == [] then 0.0
    else SquaredDeviations(xs[..|xs| - 1], mean) + (xs[|xs| - 1] - mean) * (xs[|xs| - 1] - mean)
  }

  /** `statistics.pstdev(xs) > 0.25` without the square root. */
  predicate Wide(xs: seq<real>) { Spread(|xs| as real, SumSquares(xs), Sum(xs)) }

  predicate Spread(n: real, squares: real, sum: real) { 16.0 * (n * squares - sum * sum) > n * n }

  function Mixed(xs: seq<real>, m: real): real {
    if xs == [] then 0.0 else Mixed(xs[..|xs| - 1], m) + m * xs[|xs| - 1]
  }

  function Repeated(n: nat, x: real): real { if n == 0 then 0.0 else Repeated(n - 1, x) + x }

  lemma {:induction false} DeviationsExpand(xs: seq<real>, m: real)
    ensures SquaredDeviations(xs, m) == SumSquares(xs) - 2.0 * Mixed(xs, m) + Repeated(|xs|, m * m)
  {
    if xs != [] {
      DeviationsExpand(xs[..|xs| - 1], m);
      Binomial(xs[|xs| - 1], m);
    }
  }

  lemma Binomial(x: real, m: real)
    ensures (x - m) * (x - m) == x * x - 2.0 * (m * x) + m * m
  {
  }

  lemma {:induction false} MixedIsProduct(xs: seq<real>, m: real)
    ensures Mixed(xs, m) == m * Sum(xs)
  {
    if xs != [] {
      MixedIsProduct(xs[..|xs| - 1], m);
      Distributes(m, Sum(xs[..|xs| - 1]), xs[|xs| - 1]);
    }
  }

  lemma Distributes(m: real, a: real, b: real)
    ensures m * (a + b) == m * a + m * b
  {
  }

  lemma {:induction false} RepeatedIsProduct(n: nat, x: real)
    ensures Repeated(n, x) == n as real * x
  {
    if n > 0 {
      RepeatedIsProduct(n - 1, x);
      Distributes(x, (n - 1) as real, 1.0);
    }
  }

  /** The population standard deviation, any non-negative s whose square is the mean of the squared
      deviations from the mean m, exceeds 0.25 exactly when `Wide` holds. */
  lemma {:induction false} PstdevTest(xs: seq<real>, m: real, s: real)
    requires xs != [] && m * (|xs| as real) == Sum(xs)
    requires s >= 0.0 && s * s * (|xs| as real) == SquaredDeviations(xs, m)
    ensures s > 0.25 <==> Wide(xs)
  {
    DeviationsExpand(xs, m);
    MixedIsProduct(xs, m);
    RepeatedIsProduct(|xs|, m * m);
    TestCore(|xs| as real, m, s, SumSquares(xs), Sum(xs), SquaredDeviations(xs, m));
  }

  lemma TestCore(n: real, m: real, s: real, squares: real, sum: real, deviations: real)
    requires n > 0.0 && s >= 0.0 && m * n == sum
    requires deviations == squares - 2.0 * (m * sum) + n * (m * m) && s * s * n == deviations
    ensures s > 0.25 <==> Spread(n, squares, sum)
  {
    MeanTimesSum(n, m, sum);
    VarianceForm(n, s * s, deviations, squares, n * (m * m), sum * sum);
    SquareOrder(s);
  }

  lemma MeanTimesSum(n: real, m: real, sum: real)
    requires m * n == sum
    ensures m * sum == n * (m * m) && sum * sum == n * (n * (m * m))
  {
    assert m * sum == m * (m * n);
    assert sum * sum == (m * n) * (m * n);
  }

  lemma VarianceForm(n: real, v: real, deviations: real, squares: real, correction: real, square: real)
    requires n > 0.0 && v * n == deviations == squares - correction && square == n * correction
    ensures v > 0.0625 <==> 16.0 * (n * squares - square) > n * n
  {
    Scaled(n, v, 0.0625);
    Scaled(n, deviations, 0.0625 * n);
    Distribute(squares, correction, n);
  }

  lemma Distribute(a: real, b: real, n: real)
    ensures (a - b) * n == n * a - n * b
  {
  }

  lemma SquareOrder(s: real)
    requires s >= 0.0
    ensures s > 0.25 <==> s * s > 0.0625
  {
    if s > 0.25 {
      assert s * s > 0.25 * s;
    } else {
      assert s * s <= 0.25 * s;
    }
  }

  function ConfidencesOf(r: Results, names: seq<Name>): seq<real> {
    if names == [] then []
    else
      var o := OutputOf(r, names[|names| - 1]);
      ConfidencesOf(r, names[..|names| - 1]) + if o.Some? && !o.value.degraded then [Confidence(o)] else []
  }

  // ----- Calibration -----

  function Clamp(x: real): real { if x < 0.0 then 0.0 else if x > 1.0 then 1.0 else x }

  function Scale(a: real, factor: real): (s: real)
    ensures a >= 0.0 && 0.0 <= factor <= 1.0 ==> 0.0 <= s <= a
    ensures factor == 1.0 ==> s == a
  {
    if a >= 0.0 && 0.0 <= factor <= 1.0 then
      ProductBounds(a, factor, a, 1.0);
      a * factor
    else
      a * factor
  }

  function DegradedFactor(n: nat): (f: real)
    ensures 0.5 <= f <= 1.0
  {
    if n == 0 then 1.0 else if 1.0 - 0.08 * (n as real) > 0.5 then 1.0 - 0.08 * (n as real) else 0.5
  }

  function Disagree(r: Results): bool {
    var cs := ConfidencesOf(r, LLM_NAMES);
    |cs| >= 2 && Wide(cs)
  }

  function Calibrated(raw: real, r: Results, degraded: nat): real {
    var o := RiskOutputOf(r);
    var scaled := Scale(raw, DegradedFactor(degraded));
    var agreed := if Disagree(r) then scaled * 0.85 else scaled;
    var passed := if o.pass == Some(false) then agreed * 0.75 else agreed;
    Clamp(if o.level == Some(High) then passed * 0.9 else passed)
  }

  method CalibrateConfidence(raw: real, r: Results, degraded: seq<Name>, risk: RiskOutput) returns (calibrated: real)
    requires risk == RiskOutputOf(r)
    ensures calibrated == Calibrated(raw, r, |degraded|)
  {
    calibrated := raw;
    if degraded != [] {
      var factor := 1.0 - 0.08 * (|degraded| as real);
      calibrated := Scale(calibrated, if factor > 0.5 then factor else 0.5);
    }
    var confidences := [];
    for i := 0 to 4
      invariant confidences == ConfidencesOf(r, LLM_NAMES[..i])
    {
      assert LLM_NAMES[..i + 1][..i] == LLM_NAMES[..i];
      var output := OutputOf(r, LLM_NAMES[i]);
      if output.Some? && !output.value.degraded {
        confidences := confidences + [Confidence(output)];
      }
    }
    assert LLM_NAMES[..4] == LLM_NAMES;
    if |confidences| >= 2 && Wide(confidences) {
      calibrated := calibrated * 0.85;
    }
    if risk.pass == Some(false) {
      calibrated := calibrated * 0.75;
    }
    if risk.level == Some(High) {
      calibrated := calibrated * 0.9;
    }
    calibrated := Clamp(calibrated);
  }

  /** Calibration only ever lowers a score, with healthy agents to no less than 0.57375 of it; a failed HIGH
      risk check alone takes it to at most 0.675 of it. */
  lemma CalibratedBounds(raw: real, r: Results, degraded: nat)
    requires 0.0 <= raw <= 1.0
    ensures 0.0 <= Calibrated(raw, r, degraded) <= raw
    ensures Calibrated(raw, r, 0) >= raw * 0.57375
    ensures RiskOutputOf(r).pass == Some(false) && RiskOutputOf(r).level == Some(High) ==>
      Calibrated(raw, r, degraded) <= raw * 0.675
    ensures RiskOutputOf(r).pass != Some(false) && RiskOutputOf(r).level != Some(High) ==>
      Calibrated(raw, r, 0) == if Disagree(r) then raw * 0.85 else raw
    ensures RiskOutputOf(r).pass == Some(false) && !Disagree(r) ==>
      Calibrated(raw, r, 0) == if RiskOutputOf(r).level == Some(High) then raw * 0.675 else raw * 0.75
  {
    var d := DegradedFactor(degraded);
    var scaled := Scale(raw, d);
    var agreed := if Disagree(r) then scaled * 0.85 else scaled;
    var passed := if RiskOutputOf(r).pass == Some(false) then agreed * 0.75 else agreed;
    var final := if RiskOutputOf(r).level == Some(High) then passed * 0.9 else passed;
    assert Calibrated(raw, r, degraded) == Clamp(final);
    assert 0.0 <= agreed <= scaled <= raw && 0.0 <= final <= passed <= agreed;
  }

  /** Each degraded agent takes 8 points off, down to half. */
  lemma DegradedTakeEight(raw: real, r: Results, n: nat)
    requires 0.0 <= raw <= 1.0 && RiskOutputOf(r).pass != Some(false) && RiskOutputOf(r).level != Some(High)
    requires !Disagree(r)
    ensures Calibrated(raw, r, n) == raw * if n <= 6 then 1.0 - 0.08 * n as real else 0.5
  {
    assert n <= 6 <==> 0.08 * n as real < 0.5;
    CalibratedBounds(raw, r, n);
  }

  /** The confidences compared are those of the healthy LLM agents. */
  lemma ConfidencesOfAll(r: Results)
    requires Healthy(OutputOf(r, Trend)) && Healthy(OutputOf(r, Fundamental)) && Healthy(OutputOf(r, Sentiment))
    requires Healthy(OutputOf(r, Shortterm))
    ensures ConfidencesOf(r, LLM_NAMES) == [Confidence(OutputOf(r, Trend)), Confidence(OutputOf(r, Fundamental)),
                                            Confidence(OutputOf(r, Sentiment)), Confidence(OutputOf(r, Shortterm))]
  {
    assert LLM_NAMES[..3][..2] == LLM_NAMES[..2] && LLM_NAMES[..2][..1] == LLM_NAMES[..1];
    assert LLM_NAMES[..1][..0] == [];
    assert ConfidencesOf(r, LLM_NAMES[..1]) == [Confidence(OutputOf(r, Trend))];
    assert ConfidencesOf(r, LLM_NAMES[..2])
        == [Confidence(OutputOf(r, Trend)), Confidence(OutputOf(r, Fundamental))];
  }

  // ----- Aggregation -----

  function SignalOf(r: Results, s: Settings): Signal {
    var risk := RiskOutputOf(r);
    var degraded := DegradedOf(r, NAMES);
    if risk.level == Some(Extreme) then Signal(Hold, 0.1, 0.1, Some(Extreme), [])
    else if degraded != [] then Signal(Hold, 0.0, 0.5, risk.level, degraded)
    else
      var raw := Composite(r);
      var calibrated := Calibrated(raw, r, 0);
      var action := if raw >= s.buy then (if calibrated < s.minConfidence then Hold else Buy)
                    else if raw <= s.sell then Sell else Hold;
      Signal(action, calibrated, raw, Some(if risk.level.Some? then risk.level.value else Medium), [])
  }

  method Aggregate(r: Results, s: Settings) returns (signal: Signal)
    ensures signal == SignalOf(r, s)
  {
    var risk := RiskOutputOf(r);
    if risk.level == Some(Extreme) {
      return Signal(Hold, 0.1, 0.1, Some(Extreme), []);
    }
    var degraded := FindDegradedAgents(r);
    if degraded != [] {
      return Signal(Hold, 0.0, 0.5, risk.level, degraded);
    }
    var raw := Composite(r);
    var action := Hold;
    if raw >= s.buy {
      action := Buy;
    } else if raw <= s.sell {
      action := Sell;
    }
    var calibrated := CalibrateConfidence(raw, r, degraded, risk);
    if action == Buy && calibrated < s.minConfidence {
      action := Hold;
    }
    signal := Signal(action, calibrated, raw, Some(if risk.level.Some? then risk.level.value else Medium), degraded);
  }

  predicate AllHealthy(r: Results) { forall n: Name :: !DegradedAgent(r, n) }

  /** BUY and SELL exactly when all five agents succeeded undegraded, risk is not EXTREME and the scores
      pass; only BUY is subject to the calibrated confidence. */
  lemma ActionIff(r: Results, s: Settings)
    ensures var free := AllHealthy(r) && RiskOutputOf(r).level != Some(Extreme);
      && (SignalOf(r, s).action == Buy <==>
           free && Composite(r) >= s.buy && Calibrated(Composite(r), r, 0) >= s.minConfidence)
      && (SignalOf(r, s).action == Sell <==> free && Composite(r) < s.buy && Composite(r) <= s.sell)
  {
    var d := DegradedOf(r, NAMES);
    if d != [] {
      assert d[0] in d;
    }
    if !AllHealthy(r) {
      var n: Name :| DegradedAgent(r, n);
      assert n in NAMES && n in d;
    }
  }

  /** Healthy means: every agent is there, answered in time, and does not call its answer degraded. */
  lemma HealthyByFields(r: Results)
    ensures AllHealthy(r) <==>
      && (forall n | n == Trend || n == Fundamental || n == Sentiment || n == Shortterm ::
           && n in r.llm && r.llm[n].status == Ok
           && (r.llm[n].output.Some? ==> !r.llm[n].output.value.degraded))
      && r.risk.Some? && r.risk.value.status == Ok && !r.risk.value.output.degraded
  {
    assert AllHealthy(r) <==> !DegradedAgent(r, Trend) && !DegradedAgent(r, Fundamental)
                              && !DegradedAgent(r, Sentiment) && !DegradedAgent(r, Shortterm)
                              && !DegradedAgent(r, Risk);
  }

  lemma NamesAreAll(n: Name)
    ensures n in NAMES
  {
    match n
    case Trend => assert NAMES[0] == n;
    case Fundamental => assert NAMES[1] == n;
    case Sentiment => assert NAMES[2] == n;
    case Shortterm => assert NAMES[3] == n;
    case Risk => assert NAMES[4] == n;
  }

  /** What the signal reports beside its action. Extreme risk silences it before anything else is looked at, and a
      degraded agent before anything is scored. */
  lemma SignalFields(r: Results, s: Settings)
    ensures var signal, risk := SignalOf(r, s), RiskOutputOf(r);
      if risk.level == Some(Extreme) then
        signal.confidence == signal.raw == 0.1 && signal.level == Some(Extreme) && signal.degraded == []
      else if !AllHealthy(r) then
        && signal.confidence == 0.0 && signal.raw == 0.5 && signal.level == risk.level
        && signal.degraded != [] && forall n :: n in signal.degraded <==> DegradedAgent(r, n)
      else
        && signal.raw == Composite(r) && signal.confidence == Calibrated(Composite(r), r, 0)
        && signal.level == (if risk.level == None then Some(Medium) else risk.level) && signal.degraded == []
  {
    var d := DegradedOf(r, NAMES);
    forall n: Name ensures n in NAMES {
      NamesAreAll(n);
    }
    if d != [] {
      assert d[0] in d;
    }
    if !AllHealthy(r) {
      var n: Name :| DegradedAgent(r, n);
      assert n in d;
    }
  }

  /** Confidence never exceeds the raw score: in [0, composite] when all agents are healthy. */
  lemma ConfidenceInRange(r: Results, s: Settings)
    requires InRange(r)
    ensures 0.0 <= SignalOf(r, s).confidence <= SignalOf(r, s).raw <= 1.0
  {
    CompositeInRange(r);
    CalibratedBounds(Composite(r), r, 0);
  }

  // ----- Weights -----

  function LostWeight(degraded: seq<Name>): real {
    if degraded == [] then 0.0 else LostWeight(degraded[..|degraded| - 1]) + Weight(degraded[|degraded| - 1])
  }

  function ActiveNames(degraded: seq<Name>, names: seq<Name>): seq<Name> {
    if names == [] then []
    else ActiveNames(degraded, names[..|names| - 1])
         + (if names[|names| - 1] in degraded then [] else [names[|names| - 1]])
  }

  /** The weight of a name after redistribution. */
  function Adjusted(degraded: seq<Name>, n: Name): real {
    var active := ActiveNames(degraded, NAMES);
    if n in degraded then 0.0
    else Weight(n) + if active == [] then 0.0 else LostWeight(degraded) / (|active| as real)
  }

  function TotalAdjusted(degraded: seq<Name>): real {
    Adjusted(degraded, Trend) + Adjusted(degraded, Fundamental) + Adjusted(degraded, Sentiment)
    + Adjusted(degraded, Shortterm) + Adjusted(degraded, Risk)
  }

  function Count(degraded: seq<Name>, n: Name): (k: nat)
    ensures k > 0 <==> n in degraded
  {
    if degraded == [] then 0
    else
      assert degraded == degraded[..|degraded| - 1] + [degraded[|degraded| - 1]];
      Count(degraded[..|degraded| - 1], n) + if degraded[|degraded| - 1] == n then 1 else 0
  }

  lemma {:induction false} LostByCount(d: seq<Name>)
    ensures LostWeight(d) == 0.30 * Count(d, Trend) as real + 0.25 * Count(d, Fundamental) as real
                             + 0.20 * Count(d, Sentiment) as real + 0.15 * Count(d, Shortterm) as real
                             + 0.10 * Count(d, Risk) as real
  {
    if d != [] {
      LostByCount(d[..|d| - 1]);
    }
  }

  lemma {:induction false} ActiveCount(d: seq<Name>)
    ensures |ActiveNames(d, NAMES)| == One(Trend !in d) + One(Fundamental !in d) + One(Sentiment !in d)
                                       + One(Shortterm !in d) + One(Risk !in d)
  {
    assert NAMES[..4][..3] == NAMES[..3] && NAMES[..3][..2] == NAMES[..2];
    assert NAMES[..2][..1] == NAMES[..1] && NAMES[..1][..0] == [];
    assert |ActiveNames(d, NAMES[..1])| == One(Trend !in d);
    assert |ActiveNames(d, NAMES[..2])| == One(Trend !in d) + One(Fundamental !in d);
    assert |ActiveNames(d, NAMES[..3])| == One(Trend !in d) + One(Fundamental !in d) + One(Sentiment !in d);
    assert |ActiveNames(d, NAMES[..4])|
        == One(Trend !in d) + One(Fundamental !in d) + One(Sentiment !in d) + One(Shortterm !in d);
  }

  /** Redistribution keeps the total weight of 1 exactly when some agent is left and none is listed twice:
      a repeated name loses its weight twice. */
  lemma {:induction false} RedistributionConserves(d: seq<Name>)
    ensures TotalAdjusted(d) == 1.0 <==>
      (exists n: Name :: Count(d, n) == 0) && forall n: Name :: Count(d, n) <= 1
  {
    if |ActiveNames(d, NAMES)| > 0 {
      TotalByCount(d);
    }
    ActiveCount(d);
  }

  function AtLeastOne(k: nat): real { if k == 0 then 1.0 else k as real }

  lemma {:induction false} TotalByCount(d: seq<Name>)
    requires |ActiveNames(d, NAMES)| > 0
    ensures TotalAdjusted(d) == 0.30 * AtLeastOne(Count(d, Trend)) + 0.25 * AtLeastOne(Count(d, Fundamental))
                                + 0.20 * AtLeastOne(Count(d, Sentiment)) + 0.15 * AtLeastOne(Count(d, Shortterm))
                                + 0.10 * AtLeastOne(Count(d, Risk))
  {
    SharesOfAll(d);
    LostByCount(d);
    TotalOfShares(d);
  }

  lemma {:induction false} TotalOfShares(d: seq<Name>)
    requires |ActiveNames(d, NAMES)| > 0
    ensures TotalAdjusted(d)
         == ShareOf(d, Trend) + ShareOf(d, Fundamental) + ShareOf(d, Sentiment) + ShareOf(d, Shortterm)
            + ShareOf(d, Risk)
            + 0.30 * AtLeastOne(Count(d, Trend)) + 0.25 * AtLeastOne(Count(d, Fundamental))
            + 0.20 * AtLeastOne(Count(d, Sentiment)) + 0.15 * AtLeastOne(Count(d, Shortterm))
            + 0.10 * AtLeastOne(Count(d, Risk))
            - (0.30 * Count(d, Trend) as real + 0.25 * Count(d, Fundamental) as real
               + 0.20 * Count(d, Sentiment) as real + 0.15 * Count(d, Shortterm) as real
               + 0.10 * Count(d, Risk) as real)
  {
    AdjustedShare(d, Trend, 0.30);
    AdjustedShare(d, Fundamental, 0.25);
    AdjustedShare(d, Sentiment, 0.20);
    AdjustedShare(d, Shortterm, 0.15);
    AdjustedShare(d, Risk, 0.10);
  }

  function ShareOf(d: seq<Name>, n: Name): real
    requires |ActiveNames(d, NAMES)| > 0
  {
    Share(LostWeight(d), |ActiveNames(d, NAMES)| as real, One(n !in d))
  }

  lemma {:induction false} SharesOfAll(d: seq<Name>)
    requires |ActiveNames(d, NAMES)| > 0
    ensures ShareOf(d, Trend) + ShareOf(d, Fundamental) + ShareOf(d, Sentiment) + ShareOf(d, Shortterm)
            + ShareOf(d, Risk) == LostWeight(d)
  {
    ActiveCount(d);
    SharesAddUp(LostWeight(d), |ActiveNames(d, NAMES)| as real, One(Trend !in d), One(Fundamental !in d),
                One(Sentiment !in d), One(Shortterm !in d), One(Risk !in d));
  }

  /** A name's equal share of the lost weight, if it takes part. */
  function Share(lost: real, k: real, takes: nat): real
    requires k > 0.0
  {
    if takes == 0 then 0.0 else lost / k
  }

  lemma SharesAddUp(lost: real, k: real, a: nat, b: nat, c: nat, d: nat, e: nat)
    requires a <= 1 && b <= 1 && c <= 1 && d <= 1 && e <= 1
    requires k == (a + b + c + d + e) as real > 0.0
    ensures Share(lost, k, a) + Share(lost, k, b) + Share(lost, k, c) + Share(lost, k, d) + Share(lost, k, e) == lost
  {
    var x := lost / k;
    assert x * k == lost;
    if k == 1.0 { assert x == lost; }
    else if k == 2.0 { assert 2.0 * x == lost; }
    else if k == 3.0 { assert 3.0 * x == lost; }
    else if k == 4.0 { assert 4.0 * x == lost; }
    else { assert 5.0 * x == lost; }
  }

  lemma {:induction false} AdjustedShare(d: seq<Name>, n: Name, weight: real)
    requires |ActiveNames(d, NAMES)| > 0 && weight == Weight(n)
    ensures Adjusted(d, n) == ShareOf(d, n) + weight * AtLeastOne(Count(d, n)) - weight * (Count(d, n) as real)
  {
  }

  method AdjustWeights(degraded: seq<Name>) returns (weights: map<Name, real>)
    ensures weights.Keys == {Trend, Fundamental, Sentiment, Shortterm, Risk}
    ensures forall n | n in weights :: weights[n] == Adjusted(degraded, n)
  {
    weights := map[Trend := 0.30, Fundamental := 0.25, Sentiment := 0.20, Shortterm := 0.15, Risk := 0.10];
    if degraded == [] {
      return;
    }
    var lost := LostWeight(degraded);
    var active := ActiveNames(degraded, NAMES);
    var extra := if active == [] then 0.0 else lost / (|active| as real);
    weights := map n | n in weights :: if n in degraded then 0.0 else weights[n] + extra;
  }
}
