/** The risk manager: the portfolio's tickers and weights go to the risk engine in allocation
    order, the language model (an oracle) decides on the computed figures, the assessment joins
    the computed metrics and stress results with the model's verdict, and one feedback line is
    emitted; and the gate that sends the portfolio back while the verdict asks for revision and
    the limit is not reached. */
module RiskManager {
  import opened Common
  import opened Schemas
  import opened State
  import opened RiskCalculations

  /** What the risk manager shows the model: which model, the portfolio, the computed figures
      and the revision note. */
  datatype RiskRequest = RiskRequest(provider: string, model: string, portfolio: Portfolio,
                                     data: RiskData, note: string)

  type RiskJudge = RiskRequest -> RiskManagerDecision

  /** Market inputs the risk engine would download: two years of prices and their correlation
      matrix for a ticker list, the stress-scenario windows, and the sample standard deviation. */
  datatype Market = Market(prices: seq<string> -> Frame, corr: seq<string> -> CorrMatrix,
                           download: Downloader, std: StdDev)

  /** The market inputs for `tickers` are shaped as the engine expects. */
  predicate MarketReady(m: Market, tickers: seq<string>)
  {
    WellFormed(m.prices(tickers)) && Square(m.corr(tickers))
  }

  const RISK_NOTE_HEAD := "\nNOTE: This is "
  const RISK_NOTE_TAIL := ". The Portfolio Manager has adjusted allocations\nbased on previous risk feedback. " +
    "Evaluate if the changes adequately address prior concerns.\nBe more lenient if significant " +
    "improvements were made, but maintain risk standards.\n"

  /** The extra paragraph of the system message on a revision pass. */
  function RiskNote(revisionCount: int): (note: string)
    ensures note != "" <==> revisionCount > 0
    ensures revisionCount > 0 ==> Contains(note, "revision #" + IntToString(revisionCount))
  {
    if revisionCount > 0 then
      var mid := "revision #" + IntToString(revisionCount);
      ContainsMiddle(RISK_NOTE_HEAD, mid, RISK_NOTE_TAIL);
      assert |RISK_NOTE_HEAD + mid + RISK_NOTE_TAIL| > 0;
      RISK_NOTE_HEAD + mid + RISK_NOTE_TAIL
    else ""
  }

  function AllocationTickers(p: Portfolio): (ts: seq<string>)
    ensures |ts| == |p.allocations|
    ensures forall i :: 0 <= i < |ts| ==> ts[i] == p.allocations[i].ticker
  {
    seq(|p.allocations|, i requires 0 <= i < |p.allocations| => p.allocations[i].ticker)
  }

  function AllocationWeights(p: Portfolio): (ws: seq<real>)
    ensures |ws| == |p.allocations|
    ensures forall i :: 0 <= i < |ws| ==> ws[i] == p.allocations[i].weight
  {
    seq(|p.allocations|, i requires 0 <= i < |p.allocations| => p.allocations[i].weight)
  }

  /** The engine's stress entries as assessment records, one for one and in order. */
  function StressResults(es: seq<StressEntry>): (r: seq<StressTestResult>)
    ensures |r| == |es|
    ensures forall i :: 0 <= i < |es| ==>
      r[i].scenario == es[i].scenario && r[i].portfolioImpact == es[i].portfolioImpact
  {
    seq(|es|, i requires 0 <= i < |es| => StressTestResult(es[i].scenario, es[i].portfolioImpact))
  }

  /** The feedback line for the portfolio manager. */
  function RiskFeedback(a: RiskAssessment): string
  {
    if a.decision == RiskNeedsRevision then
      "[RISK REVISION REQUIRED]\nConcerns: " + Join(a.concerns, ", ") + "\nFeedback: " + a.feedback
    else
      "[RISK APPROVED] " + Take(a.feedback, 100) + "..."
  }

  /** The computed figures for the state's portfolio. */
  function DataFor(s: AgentState, m: Market, now: string): RiskData
    requires s.portfolio.Some?
    requires MarketReady(m, AllocationTickers(s.portfolio.value))
  {
    var p := s.portfolio.value;
    var tickers := AllocationTickers(p);
    FullRiskSpec(tickers, AllocationWeights(p), m.prices(tickers), m.corr(tickers), m.download, m.std, now)
  }

  function RequestOf(s: AgentState, m: Market, now: string): RiskRequest
    requires s.portfolio.Some?
    requires MarketReady(m, AllocationTickers(s.portfolio.value))
  {
    RiskRequest(OrDefault(s.modelProvider, DEFAULT_CONFIG.llmProvider),
      OrDefault(s.modelNameDeep, DEFAULT_CONFIG.deepThinkLlm), s.portfolio.value,
      DataFor(s, m, now), RiskNote(RiskRevisionCount(s)))
  }

  /** The assessment: metrics and stress results from the computation, verdict, concerns and
      feedback from the model. */
  function AssessmentOf(data: RiskData, verdict: RiskManagerDecision, now: string): RiskAssessment
  {
    RiskAssessment(verdict.decision, data.metrics, StressResults(data.stressTests), verdict.concerns,
      verdict.feedback, now)
  }

  /** The update a risk pass returns for assessment `a`. */
  function PassUpdate(s: AgentState, a: RiskAssessment): Update
  {
    NO_UPDATE.(
      riskAssessment := Some(a),
      riskFeedback := [RiskFeedback(a)],
      riskRevisionCount := Some(RiskRevisionCount(s) + 1),
      prompts := [PromptLog("RiskManager")])
  }

  /** The update one risk pass returns. */
  function RiskManagerDelta(s: AgentState, m: Market, judge: RiskJudge, now: string): Update
    requires s.portfolio.Some?
    requires MarketReady(m, AllocationTickers(s.portfolio.value))
  {
    PassUpdate(s, AssessmentOf(DataFor(s, m, now), judge(RequestOf(s, m, now)), now))
  }

  /** The risk manager node. The source reads the portfolio unconditionally, so it needs one. */
  method RiskManagerNode(s: AgentState, m: Market, judge: RiskJudge, now: string) returns (u: Update)
    requires s.portfolio.Some?
    requires MarketReady(m, AllocationTickers(s.portfolio.value))
    ensures u == RiskManagerDelta(s, m, judge, now)
  {
    var riskRevisionCount := RiskRevisionCount(s);
    var assessment := Assess(s, m, judge, now);
    var feedbackList: seq<string> := [];
    if assessment.decision == RiskNeedsRevision {
      feedbackList := feedbackList + ["[RISK REVISION REQUIRED]\nConcerns: " +
        Join(assessment.concerns, ", ") + "\nFeedback: " + assessment.feedback];
    } else {
      feedbackList := feedbackList + ["[RISK APPROVED] " + Take(assessment.feedback, 100) + "..."];
    }
    assert feedbackList == [RiskFeedback(assessment)];
    u := NO_UPDATE.(riskAssessment := Some(assessment), riskFeedback := feedbackList,
      riskRevisionCount := Some(riskRevisionCount + 1), prompts := [PromptLog("RiskManager")]);
  }

  /** The first half of the node: run the engine on the allocations, ask the model, and build
      the assessment from both. */
  method Assess(s: AgentState, m: Market, judge: RiskJudge, now: string) returns (assessment: RiskAssessment)
    requires s.portfolio.Some?
    requires MarketReady(m, AllocationTickers(s.portfolio.value))
    ensures assessment == AssessmentOf(DataFor(s, m, now), judge(RequestOf(s, m, now)), now)
  {
    var portfolio := s.portfolio.value;
    var tickers := AllocationTickers(portfolio);
    var weights := AllocationWeights(portfolio);
    var riskData := FullRiskAssessment(tickers, weights, m.prices(tickers), m.corr(tickers),
      m.download, m.std, now);
    assert riskData == DataFor(s, m, now);
    var prompt := RiskRequest(OrDefault(s.modelProvider, DEFAULT_CONFIG.llmProvider),
      OrDefault(s.modelNameDeep, DEFAULT_CONFIG.deepThinkLlm), portfolio, riskData,
      RiskNote(RiskRevisionCount(s)));
    assert prompt == RequestOf(s, m, now);
    var verdict := judge(prompt);
    assessment := RiskAssessment(verdict.decision, riskData.metrics,
      StressResults(riskData.stressTests), verdict.concerns, verdict.feedback, now);
  }

  /** One pass: the engine gets the allocations' tickers and weights in order; the stored
      metrics are the computed ones and the stress results map one for one; the verdict,
      concerns and feedback are the model's; exactly one feedback line is appended and one log
      entry; the risk counter moves on by one and nothing else changes. */
  lemma RiskManagerPass(s: AgentState, m: Market, judge: RiskJudge, now: string)
    requires s.portfolio.Some?
    requires MarketReady(m, AllocationTickers(s.portfolio.value))
    ensures var data := DataFor(s, m, now);
      var verdict := judge(RequestOf(s, m, now));
      var t := Merge(s, RiskManagerDelta(s, m, judge, now));
      t.riskAssessment.Some? &&
      t.riskAssessment.value.riskMetrics == data.metrics &&
      t.riskAssessment.value.stressTests == StressResults(data.stressTests) &&
      t.riskAssessment.value.decision == verdict.decision &&
      t.riskAssessment.value.concerns == verdict.concerns &&
      t.riskAssessment.value.feedback == verdict.feedback &&
      t.riskFeedback == s.riskFeedback + [RiskFeedback(t.riskAssessment.value)] &&
      t.prompts == s.prompts + [PromptLog("RiskManager")] &&
      RiskRevisionCount(t) == RiskRevisionCount(s) + 1 &&
      RevisionCount(t) == RevisionCount(s) && t.portfolio == s.portfolio &&
      t.reports == s.reports && t.reviewFeedback == s.reviewFeedback
  {
    PassEffects(s, AssessmentOf(DataFor(s, m, now), judge(RequestOf(s, m, now)), now));
  }

  /** The revision note goes into the request exactly when the counter is positive. */
  lemma RiskNoteInRequest(s: AgentState, m: Market, now: string)
    requires s.portfolio.Some?
    requires MarketReady(m, AllocationTickers(s.portfolio.value))
    ensures RequestOf(s, m, now).note != "" <==> RiskRevisionCount(s) > 0
  {
    var n := RiskNote(RiskRevisionCount(s));
    assert RequestOf(s, m, now).note == n;
  }

  /** Merging a pass's update sets the assessment, appends one feedback line and one log entry,
      moves the risk counter on by one, and leaves every other field as it was. */
  lemma PassEffects(s: AgentState, a: RiskAssessment)
    ensures var t := Merge(s, PassUpdate(s, a));
      t.riskAssessment == Some(a) &&
      t.riskFeedback == s.riskFeedback + [RiskFeedback(a)] &&
      t.prompts == s.prompts + [PromptLog("RiskManager")] &&
      RiskRevisionCount(t) == RiskRevisionCount(s) + 1 &&
      RevisionCount(t) == RevisionCount(s) && t.portfolio == s.portfolio &&
      t.reports == s.reports && t.reviewFeedback == s.reviewFeedback && t.tickers == s.tickers
  {
  }

  /** With the stored metrics coming from the engine, the assessment keeps the engine's bounds. */
  lemma AssessmentBounds(s: AgentState, m: Market, judge: RiskJudge, now: string)
    requires s.portfolio.Some?
    requires MarketReady(m, AllocationTickers(s.portfolio.value))
    requires IsSampleStd(m.std)
    ensures var a := RiskManagerDelta(s, m, judge, now).riskAssessment.value;
      a.riskMetrics.cvar95 >= a.riskMetrics.var95 &&
      a.riskMetrics.annualizedVolatility >= 0.0 &&
      0.0 <= a.riskMetrics.diversificationScore <= 1.0 &&
      |a.stressTests| <= 3
  {
    var p := s.portfolio.value;
    var tickers := AllocationTickers(p);
    FullRiskBounds(tickers, AllocationWeights(p), m.prices(tickers), m.corr(tickers), m.download, m.std, now);
  }

  /** A rejection line names the concerns and carries the feedback in full; an approval keeps
      at most the first 100 characters of the feedback. */
  lemma RiskFeedbackShape(a: RiskAssessment)
    ensures a.decision == RiskNeedsRevision ==>
      var pre := "[RISK REVISION REQUIRED]\nConcerns: " + Join(a.concerns, ", ") + "\nFeedback: ";
      IsPrefix(pre, RiskFeedback(a)) && RiskFeedback(a)[|pre|..] == a.feedback
    ensures a.decision == RiskApproved ==>
      IsPrefix("[RISK APPROVED] ", RiskFeedback(a)) &&
      |RiskFeedback(a)| <= |"[RISK APPROVED] "| + 100 + 3 &&
      IsPrefix("[RISK APPROVED] " + Take(a.feedback, 100), RiskFeedback(a))
  {
  }

  /** `should_revise_portfolio`. */
  predicate ShouldRevisePortfolio(s: AgentState, cfg: Config)
  {
    if s.riskAssessment.None? then false
    else if RiskRevisionCount(s) >= MaxRiskRevisions(cfg) then false
    else s.riskAssessment.value.decision == RiskNeedsRevision
  }

  /** The gate is closed without an assessment and once the counter reaches the limit; below it,
      it is open exactly when the stored verdict asks for revision. */
  lemma ShouldRevisePortfolioCases(s: AgentState, cfg: Config)
    ensures s.riskAssessment.None? ==> !ShouldRevisePortfolio(s, cfg)
    ensures RiskRevisionCount(s) >= MaxRiskRevisions(cfg) ==> !ShouldRevisePortfolio(s, cfg)
    ensures s.riskAssessment.Some? && RiskRevisionCount(s) < MaxRiskRevisions(cfg) ==>
      (ShouldRevisePortfolio(s, cfg) <==> s.riskAssessment.value.decision == RiskNeedsRevision)
  {
  }

  /** Right after a pass the gate follows that pass's verdict, unless the counter has now reached
      the limit; with the default limit two passes from a fresh state always close it. */
  lemma GateAfterPass(s: AgentState, m: Market, judge: RiskJudge, now: string, cfg: Config)
    requires s.portfolio.Some?
    requires MarketReady(m, AllocationTickers(s.portfolio.value))
    ensures var t := Merge(s, RiskManagerDelta(s, m, judge, now));
      ShouldRevisePortfolio(t, cfg) <==>
        RiskRevisionCount(s) + 1 < MaxRiskRevisions(cfg) &&
        judge(RequestOf(s, m, now)).decision == RiskNeedsRevision
    ensures RiskRevisionCount(s) == 1 && cfg == DEFAULT_CONFIG ==>
      !ShouldRevisePortfolio(Merge(s, RiskManagerDelta(s, m, judge, now)), cfg)
  {
    var verdict := judge(RequestOf(s, m, now));
    var a := AssessmentOf(DataFor(s, m, now), verdict, now);
    assert a.decision == verdict.decision;
    PassEffects(s, a);
    DefaultLimits();
  }
}
