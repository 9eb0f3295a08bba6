/** The analysis run from agents to signal (backend/app/ai/orchestrator.py). */
module Orchestrator {
  import opened Common
  import opened RiskAgent
  import opened Aggregator

  /** What the four LLM agents do, in the order they are asked. */
  type Answers = a: seq<Answer> | |a| == 4 witness [Raised, Raised, Raised, Raised]

  type Neutrals = n: seq<Analysis> | |n| == 4
    witness seq(4, _ => Analysis(true, Middle, None, None))

  datatype Outcome = Outcome(signal: Signal, results: Results)

  const BLOCKED_RISK := RiskOutput(true, None, None, None)

  /** The results of a run that was not allowed to call any model. */
  function BlockedResults(): Results {
    var blocked := AgentResult(Degraded, Some(Analysis(true, Middle, None, None)));
    Results(map[Trend := blocked, Fundamental := blocked, Sentiment := blocked, Shortterm := blocked],
            Some(RiskResult(Degraded, BLOCKED_RISK)))
  }

  function LlmResults(answers: Answers, neutrals: Neutrals): seq<AgentResult> {
    [Safe(answers[0], neutrals[0]), Safe(answers[1], neutrals[1]),
     Safe(answers[2], neutrals[2]), Safe(answers[3], neutrals[3])]
  }

  function RiskOf(c: Context, llm: seq<AgentResult>): RiskOutput
    requires |llm| == 4
  {
    var trend := llm[0].output;
    var score := RiskScore(FactorsOf(c, trend.Some? && trend.value.view == Good, UsableCount(llm)));
    RiskOutput(false, Some(LevelOf(score)), Some(score >= 60), Some(score as real))
  }

  /** What the aggregator is given. */
  function ResultsOf(ready: bool, c: Context, answers: Answers, neutrals: Neutrals): Results {
    if !ready then BlockedResults()
    else
      var llm := LlmResults(answers, neutrals);
      Results(map[Trend := llm[0], Fundamental := llm[1], Sentiment := llm[2], Shortterm := llm[3]],
              Some(RiskResult(Ok, RiskOf(c, llm))))
  }

  function RunSignal(ready: bool, c: Context, answers: Answers, neutrals: Neutrals, s: Settings): Signal {
    var signal := SignalOf(ResultsOf(ready, c, answers, neutrals), s);
    if ready then signal else signal.(confidence := 0.0)
  }

  method Run(ready: bool, c: Context, answers: Answers, neutrals: Neutrals, s: Settings) returns (outcome: Outcome)
    ensures outcome == Outcome(RunSignal(ready, c, answers, neutrals, s), ResultsOf(ready, c, answers, neutrals))
  {
    if !ready {
      var blocked := BlockedResults();
      var signal := Aggregate(blocked, s);
      return Outcome(signal.(confidence := 0.0), blocked);
    }
    var llm: seq<AgentResult> := [];
    for i := 0 to 4
      invariant |llm| == i
      invariant forall k | 0 <= k < i :: llm[k] == Safe(answers[k], neutrals[k])
    {
      var result := RunSafe(answers[i], neutrals[i]);
      llm := llm + [result];
    }
    assert llm == LlmResults(answers, neutrals);
    var risk, _ := Evaluate(c, llm, llm[0].output);
    var results := Results(map[Trend := llm[0], Fundamental := llm[1], Sentiment := llm[2], Shortterm := llm[3]],
                           Some(RiskResult(Ok, risk)));
    var signal := Aggregate(results, s);
    outcome := Outcome(signal, results);
  }

  /** The k-th LLM agent gave an answer in time and did not mark it degraded. */
  predicate Answered(answers: Answers, k: nat)
    requires k < 4
  {
    answers[k].Answered? && !IsDegraded(answers[k].output)
  }

  predicate AllAnswered(answers: Answers) { forall k | 0 <= k < 4 :: Answered(answers, k) }

  lemma HealthyIff(ready: bool, c: Context, answers: Answers, neutrals: Neutrals)
    ensures AllHealthy(ResultsOf(ready, c, answers, neutrals)) <==> ready && AllAnswered(answers)
  {
    var r := ResultsOf(ready, c, answers, neutrals);
    if !ready {
      assert DegradedAgent(r, Trend);
    } else {
      assert DegradedAgent(r, Trend) <==> !Answered(answers, 0);
      assert DegradedAgent(r, Fundamental) <==> !Answered(answers, 1);
      assert DegradedAgent(r, Sentiment) <==> !Answered(answers, 2);
      assert DegradedAgent(r, Shortterm) <==> !Answered(answers, 3);
      if AllAnswered(answers) {
        forall n: Name ensures !DegradedAgent(r, n) {
          match n {
            case Trend => assert Answered(answers, 0);
            case Fundamental => assert Answered(answers, 1);
            case Sentiment => assert Answered(answers, 2);
            case Shortterm => assert Answered(answers, 3);
            case Risk =>
          }
        }
      }
    }
  }

  /** The k-th answer, with its agent's neutral result for want of one. */
  ghost predicate ResultOf(result: AgentResult, answer: Answer, neutral: Analysis) {
    match answer
    case Answered(output) => result.status == Ok && result.output == output
    case NoAnswerInTime => result.status == TimedOut && result.output == Some(neutral)
    case Raised => result.status == Errored && result.output == Some(neutral)
  }

  /** Which answer goes where: the four agents are asked in order, the risk agent sees the trend and how many of the
      four succeeded, and a context that is not ready gets no result at all. */
  lemma ResultsByInputs(ready: bool, c: Context, answers: Answers, neutrals: Neutrals)
    ensures var r := ResultsOf(ready, c, answers, neutrals);
      && r.llm.Keys == {Trend, Fundamental, Sentiment, Shortterm} && r.risk.Some?
      && (!ready ==> r.risk.value.status == Degraded && forall n | n in r.llm :: r.llm[n].status == Degraded)
      && (ready ==>
           && ResultOf(r.llm[Trend], answers[0], neutrals[0]) && ResultOf(r.llm[Fundamental], answers[1], neutrals[1])
           && ResultOf(r.llm[Sentiment], answers[2], neutrals[2])
           && ResultOf(r.llm[Shortterm], answers[3], neutrals[3])
           && r.risk.value.status == Ok
           && var trend, healthy := r.llm[Trend].output,
                                    One(Answered(answers, 0)) + One(Answered(answers, 1)) + One(Answered(answers, 2))
                                    + One(Answered(answers, 3));
              var score := RiskScore(FactorsOf(c, trend.Some? && trend.value.view == Good, healthy));
              && r.risk.value.output.score == Some(score as real) && r.risk.value.output.level == Some(LevelOf(score))
              && r.risk.value.output.pass == Some(score >= 60) && !r.risk.value.output.degraded)
  {
    CountOfFour(LlmResults(answers, neutrals));
  }

  lemma CountOfFour(llm: seq<AgentResult>)
    requires |llm| == 4
    ensures UsableCount(llm) == One(Usable(llm[0])) + One(Usable(llm[1])) + One(Usable(llm[2])) + One(Usable(llm[3]))
  {
    assert llm[..3][..2] == llm[..2] && llm[..2][..1] == llm[..1] && llm[..1][..0] == [];
    assert UsableCount(llm[..1]) == One(Usable(llm[0]));
    assert UsableCount(llm[..2]) == One(Usable(llm[0])) + One(Usable(llm[1]));
    assert UsableCount(llm[..3]) == One(Usable(llm[0])) + One(Usable(llm[1])) + One(Usable(llm[2]));
  }

  /** Fail-closed, whatever the settings and the other outputs: a context that is not ready, an agent that
      timed out, raised or answered degraded, or a special-treatment stock ends in HOLD. */
  lemma FailClosed(ready: bool, c: Context, answers: Answers, neutrals: Neutrals, s: Settings)
    requires !ready || c.isSt || !AllAnswered(answers)
    ensures RunSignal(ready, c, answers, neutrals, s).action == Hold
    ensures !ready ==> RunSignal(ready, c, answers, neutrals, s).confidence == 0.0
  {
    HealthyIff(ready, c, answers, neutrals);
    var r := ResultsOf(ready, c, answers, neutrals);
    ActionIff(r, s);
    if ready && c.isSt {
      var llm := LlmResults(answers, neutrals);
      var f := FactorsOf(c, llm[0].output.Some? && llm[0].output.value.view == Good, UsableCount(llm));
      RiskScoreProperties(f, f);
    }
  }

  /** Exactly when a run ends in BUY. */
  lemma BuyIff(ready: bool, c: Context, answers: Answers, neutrals: Neutrals, s: Settings)
    ensures var r := ResultsOf(ready, c, answers, neutrals);
      RunSignal(ready, c, answers, neutrals, s).action == Buy <==>
        (ready && AllAnswered(answers) && RiskOutputOf(r).level != Some(Extreme)
         && Composite(r) >= s.buy && Calibrated(Composite(r), r, 0) >= s.minConfidence)
  {
    HealthyIff(ready, c, answers, neutrals);
    ActionIff(ResultsOf(ready, c, answers, neutrals), s);
  }

  /** The agents' answers carry numbers in their documented ranges. */
  predicate AnswersInRange(answers: Answers) {
    forall k | 0 <= k < 4 && answers[k].Answered? ::
      AnalysisInRange(answers[k].output, if k == 1 || k == 2 then 100.0 else 1.0)
  }

  lemma ScoresBelowOne(o: Option<Analysis>, f: Option<Analysis>, s: Option<Analysis>, t: Option<Analysis>)
    requires AnalysisInRange(o, 1.0) && AnalysisInRange(f, 100.0) && AnalysisInRange(s, 100.0)
    requires AnalysisInRange(t, 1.0)
    ensures TrendScore(o) * 0.30 + FundamentalScore(f) * 0.25 + SentimentScore(s) * 0.20
        + ShorttermScore(t) * 0.15 <= 0.9
  {
    TrendBounds(o);
    OtherBounds(f, s, t);
  }

  /** With the shipped settings no run buys on HIGH risk either, although only EXTREME is blocked outright:
      a risk score below 60 caps the composite at 0.96, and the two penalties take that below 0.65. */
  lemma BuyNeedsModerateRisk(c: Context, answers: Answers, neutrals: Neutrals)
    requires AnswersInRange(answers)
    requires RunSignal(true, c, answers, neutrals, DEFAULTS).action == Buy
    ensures var r := ResultsOf(true, c, answers, neutrals);
      RiskOutputOf(r).level in {Some(Low), Some(Medium)} && RiskOutputOf(r).score.value >= 60.0
  {
    BuyIff(true, c, answers, neutrals, DEFAULTS);
    var r := ResultsOf(true, c, answers, neutrals);
    var llm := LlmResults(answers, neutrals);
    var f := FactorsOf(c, llm[0].output.Some? && llm[0].output.value.view == Good, UsableCount(llm));
    RiskScoreProperties(f, f);
    if RiskScore(f) < 60 {
      assert Answered(answers, 0) && Answered(answers, 1) && Answered(answers, 2) && Answered(answers, 3);
      ScoresBelowOne(answers[0].output, answers[1].output, answers[2].output, answers[3].output);
      assert OutputOf(r, Trend) == answers[0].output && OutputOf(r, Fundamental) == answers[1].output;
      assert OutputOf(r, Sentiment) == answers[2].output && OutputOf(r, Shortterm) == answers[3].output;
      assert Composite(r) <= 0.96;
      CalibratedBounds(Composite(r), r, 0);
      assert false;
    }
  }
}
