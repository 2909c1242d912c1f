/** The report reviewer: one judgment per analyst report, one feedback line and one prompt-log
    entry per report, and the revision counter moved on by one; and the gate that sends the
    reports back for revision while some feedback line asks for it and the limit is not reached.
    The language model is an oracle from the review request to a `ReportReview`. */
module ReportReviewer {
  import opened Common
  import opened Schemas
  import opened State

  /** The phrase the gate looks for in the feedback lines. */
  const NEEDS_REVISION := "NEEDS REVISION"

  /** What the reviewer asks about one report: which model, the report, and the revision note
      that goes into the system message. The rest of the prompt is fixed text. */
  datatype ReviewRequest = ReviewRequest(provider: string, model: string, report: AnalystReport, note: string)

  type ReviewJudge = ReviewRequest -> ReportReview

  /** The extra line of the system message on a revision pass. */
  function ReviewNote(revisionCount: int): (note: string)
    ensures note != "" <==> revisionCount > 0
    ensures revisionCount > 0 ==> Contains(note, "revision #" + IntToString(revisionCount))
  {
    if revisionCount > 0 then
      var note := "\nThis is " + ("revision #" + IntToString(revisionCount)) +
        ". Be more lenient if previous issues were addressed.";
      ContainsMiddle("\nThis is ", "revision #" + IntToString(revisionCount),
        ". Be more lenient if previous issues were addressed.");
      note
    else ""
  }

  /** The feedback line for one reviewed report. */
  function ReviewFeedback(ticker: string, review: ReportReview): string
  {
    if review.decision == ReviewNeedsRevision then
      "[" + ticker + "] " + NEEDS_REVISION + ":\n  Issues: " + Join(review.issues, ", ") +
      "\n  Feedback: " + review.feedback
    else
      "[" + ticker + "] APPROVED: " + Take(review.feedback, 100) + "..."
  }

  /** The request for one report on a pass whose counter is `count`. */
  function RequestFor(s: AgentState, report: AnalystReport): ReviewRequest
  {
    ReviewRequest(OrDefault(s.modelProvider, DEFAULT_CONFIG.llmProvider),
      OrDefault(s.modelNameDeep, DEFAULT_CONFIG.deepThinkLlm), report, ReviewNote(RevisionCount(s)))
  }

  /** The update one reviewer pass returns: a feedback line and a log entry per report, in
      report order, and the counter plus one; nothing else is set. */
  function ReviewerDelta(s: AgentState, judge: ReviewJudge): Update
  {
    NO_UPDATE.(
      reviewFeedback := seq(|s.reports|, i requires 0 <= i < |s.reports| =>
        ReviewFeedback(s.reports[i].ticker, judge(RequestFor(s, s.reports[i])))),
      revisionCount := Some(RevisionCount(s) + 1),
      prompts := seq(|s.reports|, i requires 0 <= i < |s.reports| =>
        PromptLog("Reviewer:" + s.reports[i].ticker)))
  }

  /** The reviewer node: review each report once, in order, collecting the lines. */
  method ReviewerNode(s: AgentState, judge: ReviewJudge) returns (u: Update)
    ensures u == ReviewerDelta(s, judge)
  {
    var revisionCount := RevisionCount(s);
    var feedbackList: seq<string> := [];
    var promptsLog: seq<PromptLog> := [];
    ghost var delta := ReviewerDelta(s, judge);
    var k := 0;
    while k < |s.reports|
      invariant 0 <= k <= |s.reports|
      invariant feedbackList == delta.reviewFeedback[..k]
      invariant promptsLog == delta.prompts[..k]
    {
      var report := s.reports[k];
      var review := judge(RequestFor(s, report));
      promptsLog := promptsLog + [PromptLog("Reviewer:" + report.ticker)];
      feedbackList := feedbackList + [ReviewFeedback(report.ticker, review)];
      k := k + 1;
    }
    assert feedbackList == delta.reviewFeedback;
    assert promptsLog == delta.prompts;
    u := NO_UPDATE.(reviewFeedback := feedbackList, revisionCount := Some(revisionCount + 1),
      prompts := promptsLog);
  }

  /** One pass adds exactly one feedback line and one log entry per report, keeps the earlier
      lines, moves only the review counter on by one, and carries the revision note into every
      request exactly when the counter was positive. */
  lemma ReviewerPass(s: AgentState, judge: ReviewJudge)
    ensures var t := Merge(s, ReviewerDelta(s, judge));
      |t.reviewFeedback| == |s.reviewFeedback| + |s.reports| &&
      t.reviewFeedback[..|s.reviewFeedback|] == s.reviewFeedback &&
      |t.prompts| == |s.prompts| + |s.reports| &&
      RevisionCount(t) == RevisionCount(s) + 1 &&
      RiskRevisionCount(t) == RiskRevisionCount(s) &&
      t.reports == s.reports && t.portfolio == s.portfolio && t.riskFeedback == s.riskFeedback &&
      t.riskAssessment == s.riskAssessment && t.tickers == s.tickers
    ensures forall i :: 0 <= i < |s.reports| ==>
      (RequestFor(s, s.reports[i]).note != "" <==> RevisionCount(s) > 0)
  {
  }

  /** A report the judge sends back yields a line that contains the phrase. */
  lemma NeedsRevisionLineTriggers(ticker: string, review: ReportReview)
    requires review.decision == ReviewNeedsRevision
    ensures Contains(ReviewFeedback(ticker, review), NEEDS_REVISION)
  {
    var tail := ":\n  Issues: " + Join(review.issues, ", ") + "\n  Feedback: " + review.feedback;
    assert ReviewFeedback(ticker, review) == ("[" + ticker + "] ") + NEEDS_REVISION + tail;
    ContainsMiddle("[" + ticker + "] ", NEEDS_REVISION, tail);
  }

  /** The test is on the text: an approved line whose kept feedback mentions the phrase also
      triggers it. */
  lemma ApprovedLineCanTrigger(ticker: string, review: ReportReview)
    requires review.decision == ReviewApproved
    requires Contains(Take(review.feedback, 100), NEEDS_REVISION)
    ensures Contains(ReviewFeedback(ticker, review), NEEDS_REVISION)
  {
    var kept := Take(review.feedback, 100);
    var pre := "[" + ticker + "] APPROVED: ";
    ContainsAt(kept, NEEDS_REVISION);
    var i :| OccursAt(kept, NEEDS_REVISION, i);
    var line := pre + kept + "...";
    assert line == ReviewFeedback(ticker, review);
    assert line[|pre| + i..|pre| + i + |NEEDS_REVISION|] == kept[i..i + |NEEDS_REVISION|];
    assert OccursAt(line, NEEDS_REVISION, |pre| + i);
    ContainsAt(line, NEEDS_REVISION);
  }

  /** `any(phrase in f for f in feedback)`. */
  predicate AnyContains(lines: seq<string>, phrase: string)
    ensures AnyContains(lines, phrase) <==> exists i :: 0 <= i < |lines| && Contains(lines[i], phrase)
    decreases |lines|
  {
    |lines| > 0 && (Contains(lines[|lines| - 1], phrase) || AnyContains(lines[..|lines| - 1], phrase))
  }

  /** `should_revise`: false once the counter reaches the limit; otherwise true exactly when some
      feedback line, from this pass or an earlier one, contains the phrase. */
  predicate ShouldRevise(s: AgentState, cfg: Config)
    ensures ShouldRevise(s, cfg) <==>
      RevisionCount(s) < MaxRevisions(cfg) &&
      exists i :: 0 <= i < |s.reviewFeedback| && Contains(s.reviewFeedback[i], NEEDS_REVISION)
  {
    if RevisionCount(s) >= MaxRevisions(cfg) then false
    else AnyContains(s.reviewFeedback, NEEDS_REVISION)
  }

  /** Because the feedback list is only ever appended to, a line asking for revision keeps the
      gate open after any later updates until the counter reaches the limit. */
  lemma StickyRevision(s: AgentState, us: seq<Update>, cfg: Config, i: int)
    requires 0 <= i < |s.reviewFeedback| && Contains(s.reviewFeedback[i], NEEDS_REVISION)
    requires RevisionCount(MergeAll(s, us)) < MaxRevisions(cfg)
    ensures ShouldRevise(MergeAll(s, us), cfg)
  {
    MergeAllLists(s, us);
    var t := MergeAll(s, us);
    assert t.reviewFeedback[i] == s.reviewFeedback[i];
  }

  /** A pass in which the judge sends some report back opens the gate unless the counter has now
      reached the limit. */
  lemma RejectionOpensGate(s: AgentState, judge: ReviewJudge, cfg: Config, k: int)
    requires 0 <= k < |s.reports|
    requires judge(RequestFor(s, s.reports[k])).decision == ReviewNeedsRevision
    requires RevisionCount(s) + 1 < MaxRevisions(cfg)
    ensures ShouldRevise(Merge(s, ReviewerDelta(s, judge)), cfg)
  {
    var t := Merge(s, ReviewerDelta(s, judge));
    NeedsRevisionLineTriggers(s.reports[k].ticker, judge(RequestFor(s, s.reports[k])));
    assert t.reviewFeedback[|s.reviewFeedback| + k] ==
      ReviewFeedback(s.reports[k].ticker, judge(RequestFor(s, s.reports[k])));
  }
}
