/** Retry loops built from the two revision gates. The compiled graph wires only the analysts,
    the portfolio manager and the end; these loops are not part of it. They show what the gates
    guarantee to any loop that re-runs a review while its gate asks for revision: the counter
    moves on by one per pass, so the loop stops, and from a fresh state with the default limit
    after at most two passes. */
module Workflow {
  import opened Common
  import opened Schemas
  import opened State
  import opened RiskManager
  import opened ReportReviewer

  /** The largest number of passes a retry loop can make from counter `count` with limit `max`:
      one pass always runs, and further passes only while the counter is below the limit. */
  function PassBound(count: int, max: int): int
  {
    if count + 1 >= max then 1 else max - count
  }

  /** Runs the risk manager, then runs it again as long as `should_revise_portfolio` says so. The
      portfolio is not regenerated between passes. */
  method RiskRetryLoop(s0: AgentState, m: Market, judge: RiskJudge, now: string, cfg: Config)
    returns (s: AgentState, passes: nat)
    requires s0.portfolio.Some?
    requires MarketReady(m, AllocationTickers(s0.portfolio.value))
    ensures 1 <= passes <= PassBound(RiskRevisionCount(s0), MaxRiskRevisions(cfg))
    ensures RiskRevisionCount(s) == RiskRevisionCount(s0) + passes
    ensures |s.riskFeedback| == |s0.riskFeedback| + passes
    ensures s.portfolio == s0.portfolio && s.reports == s0.reports
    ensures !ShouldRevisePortfolio(s, cfg)
    ensures RiskRevisionCount(s0) == 0 && cfg == DEFAULT_CONFIG ==> passes <= 2
  {
    DefaultLimits();
    RiskManagerPass(s0, m, judge, now);
    var u := RiskManagerNode(s0, m, judge, now);
    s := Merge(s0, u);
    passes := 1;
    while ShouldRevisePortfolio(s, cfg)
      invariant s.portfolio == s0.portfolio && s.reports == s0.reports
      invariant 1 <= passes <= PassBound(RiskRevisionCount(s0), MaxRiskRevisions(cfg))
      invariant RiskRevisionCount(s) == RiskRevisionCount(s0) + passes
      invariant |s.riskFeedback| == |s0.riskFeedback| + passes
      decreases MaxRiskRevisions(cfg) - RiskRevisionCount(s)
    {
      RiskManagerPass(s, m, judge, now);
      u := RiskManagerNode(s, m, judge, now);
      s := Merge(s, u);
      passes := passes + 1;
    }
  }

  /** Runs the report reviewer, then runs it again as long as `should_revise` says so. The reports
      are not regenerated between passes. */
  method ReviewRetryLoop(s0: AgentState, judge: ReviewJudge, cfg: Config)
    returns (s: AgentState, passes: nat)
    ensures 1 <= passes <= PassBound(RevisionCount(s0), MaxRevisions(cfg))
    ensures RevisionCount(s) == RevisionCount(s0) + passes
    ensures |s.reviewFeedback| == |s0.reviewFeedback| + passes * |s0.reports|
    ensures s.reports == s0.reports && s.portfolio == s0.portfolio
    ensures !ShouldRevise(s, cfg)
    ensures RevisionCount(s0) == 0 && cfg == DEFAULT_CONFIG ==> passes <= 2
  {
    DefaultLimits();
    ReviewerPass(s0, judge);
    var u := ReviewerNode(s0, judge);
    s := Merge(s0, u);
    passes := 1;
    while ShouldRevise(s, cfg)
      invariant s.reports == s0.reports && s.portfolio == s0.portfolio
      invariant 1 <= passes <= PassBound(RevisionCount(s0), MaxRevisions(cfg))
      invariant RevisionCount(s) == RevisionCount(s0) + passes
      invariant |s.reviewFeedback| == |s0.reviewFeedback| + passes * |s0.reports|
      decreases MaxRevisions(cfg) - RevisionCount(s)
    {
      ReviewerPass(s, judge);
      u := ReviewerNode(s, judge);
      s := Merge(s, u);
      passes := passes + 1;
    }
  }
}
