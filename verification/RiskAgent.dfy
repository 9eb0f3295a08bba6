/** Agent results, `run_safe` (backend/app/ai/base_agent.py) and the rule-based risk agent
    (backend/app/ai/risk_agent.py). */
module RiskAgent {
  import opened Common

  datatype Name = Trend | Fundamental | Sentiment | Shortterm | Risk

  const LLM_NAMES := [Trend, Fundamental, Sentiment, Shortterm]

  datatype Status = Ok | TimedOut | Errored | Degraded

  /** The categorical answer of an agent, best first: UP / POSITIVE / BUY, anything neutral or unknown,
      DOWN / NEGATIVE / SELL, and AVOID, which only the short-term agent knows. */
  datatype View = Good | Middle | Bad | Avoid

  /** One LLM agent's output; `measure` is trend_strength, overall_score or heat_score. */
  datatype Analysis = Analysis(degraded: bool, view: View, measure: Option<real>, confidence: Option<real>)

  /** No output stands for the empty dictionary. */
  datatype AgentResult = AgentResult(status: Status, output: Option<Analysis>)

  predicate Usable(r: AgentResult) { r.status == Ok && !(r.output.Some? && r.output.value.degraded) }

  // ----- run_safe -----

  datatype Answer = Answered(output: Option<Analysis>) | NoAnswerInTime | Raised

  /** `neutral` is the agent's `get_neutral_result`. Whatever the agent does there is a result; only an
      answer in time counts as a success. */
  method RunSafe(answer: Answer, neutral: Analysis) returns (r: AgentResult)
    ensures r == Safe(answer, neutral)
    ensures r.status == Ok <==> answer.Answered?
    ensures r.status == TimedOut <==> answer.NoAnswerInTime?
    ensures r.status == Errored <==> answer.Raised?
    ensures r.output == if answer.Answered? then answer.output else Some(neutral)
  {
    match answer {
      case Answered(output) => r := AgentResult(Ok, output);
      case NoAnswerInTime => r := AgentResult(TimedOut, Some(neutral));
      case Raised => r := AgentResult(Errored, Some(neutral));
    }
  }

  function Safe(answer: Answer, neutral: Analysis): AgentResult {
    match answer
    case Answered(output) => AgentResult(Ok, output)
    case NoAnswerInTime => AgentResult(TimedOut, Some(neutral))
    case Raised => AgentResult(Errored, Some(neutral))
  }

  // ----- The risk rules -----

  /** The fields the rules read; a missing or zero number takes its default. */
  datatype Context = Context(rsi: Option<real>, change5d: Option<real>, volumeRatio: Option<real>, isSt: bool,
                             price: Option<real>, prevClose: Option<real>, amount: Option<real>)

  function OrElse(x: Option<real>, default: real): real {
    if x.Some? && x.value != 0.0 then x.value else default
  }

  datatype RsiZone = Calm | Oversold | Overbought

  datatype Factors = Factors(rsi: RsiZone, surge: bool, divergence: bool, st: bool, nearLimit: bool,
                             fewAgents: bool, illiquid: bool)

  datatype Level = Low | Medium | High | Extreme

  datatype RiskOutput = RiskOutput(degraded: bool, level: Option<Level>, pass: Option<bool>, score: Option<real>)

  function UsableCount(results: seq<AgentResult>): nat {
    if results == [] then 0
    else UsableCount(results[..|results| - 1]) + if Usable(results[|results| - 1]) then 1 else 0
  }

  /** Less than 2% below the daily price limit. */
  predicate NearLimit(price: real, prevClose: real) {
    prevClose > 0.0 && price > 0.0 && 0.0 < (prevClose * 1.10 - price) / price * 100.0 < 2.0
  }

  /** The same without division: the limit is above the price, but less than 2% of the price away. */
  lemma NearLimitRange(price: real, prevClose: real)
    requires price > 0.0 && prevClose > 0.0
    ensures NearLimit(price, prevClose) <==> price < prevClose * 1.10 < price * 1.02
  {
    var gap := prevClose * 1.10 - price;
    var share := gap / price;
    assert share * price == gap;
    ShareAgainst(share, price, gap, 0.0);
    ShareAgainst(share, price, gap, 0.02);
    assert NearLimit(price, prevClose) <==> 0.0 < share && share < 0.02;
  }

  lemma ShareAgainst(share: real, price: real, gap: real, bound: real)
    requires price > 0.0 && share * price == gap
    ensures share < bound <==> gap < bound * price
    ensures share > bound <==> gap > bound * price
  {
    Scaled(price, bound, share);
    Scaled(price, share, bound);
  }

  function FactorsOf(c: Context, trendUp: bool, usable: nat): Factors {
    var rsi := OrElse(c.rsi, 50.0);
    var price := OrElse(c.price, 0.0);
    var prevClose := OrElse(c.prevClose, price);
    var amount := OrElse(c.amount, 0.0);
    Factors(if rsi > 75.0 then Overbought else if rsi < 25.0 then Oversold else Calm,
            OrElse(c.change5d, 0.0) > 20.0,
            trendUp && OrElse(c.volumeRatio, 1.0) < 0.7,
            c.isSt,
            NearLimit(price, prevClose),
            usable < 2,
            0.0 < amount < 30000000.0)
  }

  /** The factors over the fields of the context: what is missing or zero is no risk. */
  lemma FactorsByFields(c: Context, trendUp: bool, usable: nat)
    ensures var f := FactorsOf(c, trendUp, usable);
      && (f.rsi == Overbought <==> c.rsi.Some? && c.rsi.value > 75.0)
      && (f.rsi == Oversold <==> c.rsi.Some? && c.rsi.value != 0.0 && c.rsi.value < 25.0)
      && (f.surge <==> c.change5d.Some? && c.change5d.value > 20.0)
      && (f.divergence <==> trendUp && c.volumeRatio.Some? && c.volumeRatio.value != 0.0 && c.volumeRatio.value < 0.7)
      && (f.st <==> c.isSt)
      && (f.nearLimit <==> c.price.Some? && c.prevClose.Some? && 0.0 < c.price.value < c.prevClose.value * 1.10
                           && c.prevClose.value * 1.10 < c.price.value * 1.02)
      && (f.fewAgents <==> usable < 2)
      && (f.illiquid <==> c.amount.Some? && 0.0 < c.amount.value < 30000000.0)
  {
    var price := OrElse(c.price, 0.0);
    var prevClose := OrElse(c.prevClose, price);
    if price > 0.0 && prevClose > 0.0 {
      NearLimitRange(price, prevClose);
    }
  }

  /** Agents count that answered in time and did not call their answer degraded. */
  lemma {:induction false} UsableCountExact(results: seq<AgentResult>)
    ensures UsableCount(results) == |set i | 0 <= i < |results| && results[i].status == Ok
                                            && (results[i].output.Some? ==> !results[i].output.value.degraded)|
  {
    var all := set i | 0 <= i < |results| && results[i].status == Ok
                       && (results[i].output.Some? ==> !results[i].output.value.degraded);
    if results != [] {
      var n := |results| - 1;
      var before := results[..n];
      UsableCountExact(before);
      var some := set i | 0 <= i < n && before[i].status == Ok
                          && (before[i].output.Some? ==> !before[i].output.value.degraded);
      assert all == some + if n in all then {n} else {};
      assert |before| == n;
    }
  }

  /** The penalties; a special-treatment stock is capped at 20 before the last three are taken off. */
  function RiskScore(f: Factors): int { LateScore(f, EarlyScore(f)) }

  function EarlyScore(f: Factors): int {
    var score := 100
      - (match f.rsi case Overbought => 20 case Oversold => 10 case Calm => 0)
      - (if f.surge then 25 else 0) - (if f.divergence then 15 else 0);
    if f.st && score > 20 then 20 else score
  }

  function LateScore(f: Factors, early: int): int {
    var score := early - (if f.nearLimit then 20 else 0) - (if f.fewAgents then 10 else 0)
                     - (if f.illiquid then 15 else 0);
    if score < 0 then 0 else score
  }

  function LevelOf(score: int): Level {
    if score >= 80 then Low else if score >= 60 then Medium else if score >= 40 then High else Extreme
  }

  method CountUsable(results: seq<AgentResult>) returns (usable: nat)
    ensures usable == UsableCount(results)
  {
    usable := 0;
    for i := 0 to |results|
      invariant usable == UsableCount(results[..i])
    {
      assert results[..i + 1][..i] == results[..i];
      if Usable(results[i]) {
        usable := usable + 1;
      }
    }
    assert results[..|results|] == results;
  }

  /** `trend` is the output of the first result named "trend", if any. */
  method Evaluate(c: Context, results: seq<AgentResult>, trend: Option<Analysis>) returns (r: RiskOutput, issues: nat)
    ensures var f := FactorsOf(c, trend.Some? && trend.value.view == Good, UsableCount(results));
      r == RiskOutput(false, Some(LevelOf(RiskScore(f))), Some(RiskScore(f) >= 60), Some(RiskScore(f) as real))
      && issues == FactorCount(f)
  {
    var score;
    score, issues := EvaluateEarly(c, trend.Some? && trend.value.view == Good, UsableCount(results));
    var price := OrElse(c.price, 0.0);
    if NearLimit(price, OrElse(c.prevClose, price)) {
      score, issues := score - 20, issues + 1;
    }
    var usable := CountUsable(results);
    if usable < 2 {
      score, issues := score - 10, issues + 1;
    }
    var amount := OrElse(c.amount, 0.0);
    if 0.0 < amount < 30000000.0 {
      score, issues := score - 15, issues + 1;
    }
    score := if score < 0 then 0 else score;
    var level := LevelOf(score);
    r := RiskOutput(false, Some(level), Some(level != High && level != Extreme), Some(score as real));
  }

  /** The rules up to the cap for special-treatment stocks. */
  method EvaluateEarly(c: Context, trendUp: bool, ghost usable: nat) returns (score: int, issues: nat)
    ensures score == EarlyScore(FactorsOf(c, trendUp, usable))
    ensures issues == EarlyCount(FactorsOf(c, trendUp, usable))
  {
    score, issues := 100, 0;
    var rsi := OrElse(c.rsi, 50.0);
    if rsi > 75.0 {
      score, issues := score - 20, issues + 1;
    } else if rsi < 25.0 {
      score, issues := score - 10, issues + 1;
    }
    if OrElse(c.change5d, 0.0) > 20.0 {
      score, issues := score - 25, issues + 1;
    }
    if trendUp && OrElse(c.volumeRatio, 1.0) < 0.7 {
      score, issues := score - 15, issues + 1;
    }
    if c.isSt {
      score, issues := if score < 20 then score else 20, issues + 1;
    }
  }

  function EarlyCount(f: Factors): nat {
    (if f.rsi == Calm then 0 else 1) + (if f.surge then 1 else 0) + (if f.divergence then 1 else 0)
    + (if f.st then 1 else 0)
  }

  function FactorCount(f: Factors): nat {
    EarlyCount(f) + (if f.nearLimit then 1 else 0) + (if f.fewAgents then 1 else 0) + (if f.illiquid then 1 else 0)
  }

  /** g has every risk factor f has, and possibly more. */
  predicate NoLessRisky(f: Factors, g: Factors) {
    && (f.rsi == Calm || g.rsi == f.rsi || g.rsi == Overbought)
    && (f.surge ==> g.surge) && (f.divergence ==> g.divergence) && (f.st ==> g.st)
    && (f.nearLimit ==> g.nearLimit) && (f.fewAgents ==> g.fewAgents) && (f.illiquid ==> g.illiquid)
  }

  /** The score stays in its range, never rises with more factors, and is perfect exactly without any;
      a special-treatment stock is always EXTREME. */
  lemma RiskScoreProperties(f: Factors, g: Factors)
    ensures 0 <= RiskScore(f) <= 100
    ensures NoLessRisky(f, g) ==> RiskScore(g) <= RiskScore(f)
    ensures RiskScore(f) == 100 <==> FactorCount(f) == 0
    ensures f.st ==> LevelOf(RiskScore(f)) == Extreme
    ensures LevelOf(RiskScore(f)) in {High, Extreme} <==> RiskScore(f) < 60
  {
  }

  /** One factor other than the ST flag leaves a stock at MEDIUM or better; two make it HIGH only if they are the
      surge and either the overbought RSI or the near limit. The cap matters for ST stocks only. */
  lemma FactorsByLevel(f: Factors)
    ensures FactorCount(f) == 1 && !f.st ==> 75 <= RiskScore(f) <= 90
    ensures FactorCount(f) == 2 && !f.st ==>
      55 <= RiskScore(f) && (RiskScore(f) < 60 <==> f.surge && (f.nearLimit || f.rsi == Overbought))
    ensures !f.st ==> RiskScore(f) == if Penalty(f) < 100 then 100 - Penalty(f) else 0
    ensures !f.st ==> LevelOf(RiskScore(f)) == if Penalty(f) <= 20 then Low else if Penalty(f) <= 40 then Medium
                                              else if Penalty(f) <= 60 then High else Extreme
    ensures f.st ==>
      var late := (if f.nearLimit then 20 else 0) + (if f.fewAgents then 10 else 0) + (if f.illiquid then 15 else 0);
      RiskScore(f) == if late < 20 then 20 - late else 0
  {
  }

  /** The points the factors other than the ST flag cost. */
  function Penalty(f: Factors): nat {
    (match f.rsi case Overbought => 20 case Oversold => 10 case Calm => 0)
    + (if f.surge then 25 else 0) + (if f.divergence then 15 else 0)
    + (if f.nearLimit then 20 else 0) + (if f.fewAgents then 10 else 0) + (if f.illiquid then 15 else 0)
  }

  /** Factors added to a context: each can only come from a change in its own field. */
  lemma AddedRiskNeverHelps(c: Context, trendUp: bool, n: nat, k: nat)
    requires n <= k
    ensures RiskScore(FactorsOf(c, trendUp, n)) <= RiskScore(FactorsOf(c, trendUp, k))
    ensures RiskScore(FactorsOf(c, true, n)) <= RiskScore(FactorsOf(c, trendUp, n))
    ensures RiskScore(FactorsOf(c.(isSt := true), trendUp, n)) <= RiskScore(FactorsOf(c, trendUp, n))
  {
    RiskScoreProperties(FactorsOf(c, trendUp, k), FactorsOf(c, trendUp, n));
    RiskScoreProperties(FactorsOf(c, trendUp, n), FactorsOf(c, true, n));
    RiskScoreProperties(FactorsOf(c, trendUp, n), FactorsOf(c.(isSt := true), trendUp, n));
  }
}
