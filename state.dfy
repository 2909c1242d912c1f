/** The shared workflow state and how a node's partial update is merged into it: the four
    list fields (reports, prompts, review feedback, risk feedback) are concatenated, every
    other field is replaced by the update's value when the update carries one. */
module State {
  import opened Common
  import opened Schemas

  /** One entry of the prompt log; only the agent label is modelled. */
  datatype PromptLog = PromptLog(agent: string)

  /** The state record. A field that may be absent is an `Option`; the counters are absent in
      the initial state. `modelName` is not declared in the record but is set initially and
      read when dispatching the analysts. */
  datatype AgentState = AgentState(
    tickers: seq<string>,
    reports: seq<AnalystReport>,
    portfolio: Option<Portfolio>,
    modelProvider: Option<string>,
    modelName: Option<string>,
    modelNameShallow: Option<string>,
    modelNameDeep: Option<string>,
    prompts: seq<PromptLog>,
    revisionCount: Option<int>,
    reviewFeedback: seq<string>,
    riskAssessment: Option<RiskAssessment>,
    riskFeedback: seq<string>,
    riskRevisionCount: Option<int>)

  /** `state.get("revision_count", 0)`. */
  function RevisionCount(s: AgentState): int
  {
    s.revisionCount.GetOr(0)
  }

  /** `state.get("risk_revision_count", 0)`. */
  function RiskRevisionCount(s: AgentState): int
  {
    s.riskRevisionCount.GetOr(0)
  }

  /** `value or default`: an absent or empty string falls back to the default. */
  function OrDefault(o: Option<string>, d: string): (r: string)
    ensures o.Some? && o.value != "" ==> r == o.value
    ensures (o.None? || o.value == "") ==> r == d
  {
    if o.Some? && o.value != "" then o.value else d
  }

  /** A node's return value: the list fields it appends and the fields it sets (`Some`). */
  datatype Update = Update(
    tickers: Option<seq<string>>,
    reports: seq<AnalystReport>,
    portfolio: Option<Portfolio>,
    modelProvider: Option<Option<string>>,
    modelName: Option<Option<string>>,
    modelNameShallow: Option<Option<string>>,
    modelNameDeep: Option<Option<string>>,
    prompts: seq<PromptLog>,
    revisionCount: Option<int>,
    reviewFeedback: seq<string>,
    riskAssessment: Option<RiskAssessment>,
    riskFeedback: seq<string>,
    riskRevisionCount: Option<int>)

  /** An update that changes nothing. */
  const NO_UPDATE := Update(None, [], None, None, None, None, None, [], None, [], None, [], None)

  function Replace<T>(current: T, next: Option<T>): T
  {
    if next.Some? then next.value else current
  }

  /** Replacement for plain fields, concatenation for the annotated list fields. */
  function Merge(s: AgentState, u: Update): (r: AgentState)
  {
    AgentState(
      Replace(s.tickers, u.tickers),
      s.reports + u.reports,
      if u.portfolio.Some? then u.portfolio else s.portfolio,
      Replace(s.modelProvider, u.modelProvider),
      Replace(s.modelName, u.modelName),
      Replace(s.modelNameShallow, u.modelNameShallow),
      Replace(s.modelNameDeep, u.modelNameDeep),
      s.prompts + u.prompts,
      if u.revisionCount.Some? then u.revisionCount else s.revisionCount,
      s.reviewFeedback + u.reviewFeedback,
      if u.riskAssessment.Some? then u.riskAssessment else s.riskAssessment,
      s.riskFeedback + u.riskFeedback,
      if u.riskRevisionCount.Some? then u.riskRevisionCount else s.riskRevisionCount)
  }

  /** Applying updates one after another. */
  function MergeAll(s: AgentState, us: seq<Update>): AgentState
    decreases |us|
  {
    if |us| == 0 then s else Merge(MergeAll(s, us[..|us| - 1]), us[|us| - 1])
  }

  /** The entries a sequence of updates appends to one list field, in order. */
  function Appended<T>(us: seq<Update>, field: Update -> seq<T>): seq<T>
  {
    if |us| == 0 then [] else Appended(us[..|us| - 1], field) + field(us[|us| - 1])
  }

  /** The value the most recent update that sets an optional field gives it, or `d`. */
  function Latest<T>(us: seq<Update>, field: Update -> Option<T>, d: Option<T>): Option<T>
  {
    if |us| == 0 then d
    else if field(us[|us| - 1]).Some? then field(us[|us| - 1])
    else Latest(us[..|us| - 1], field, d)
  }

  /** A list field that every merge extends by the update's entries ends up as the original list
      followed by every update's entries in order. */
  lemma {:induction false} MergeAllList<T>(s: AgentState, us: seq<Update>, get: AgentState -> seq<T>,
                                           field: Update -> seq<T>)
    requires forall t: AgentState, u: Update :: get(Merge(t, u)) == get(t) + field(u)
    ensures get(MergeAll(s, us)) == get(s) + Appended(us, field)
    decreases |us|
  {
    if |us| > 0 {
      var n := |us| - 1;
      MergeAllList(s, us[..n], get, field);
      var before, last := Appended(us[..n], field), field(us[n]);
      assert Appended(us, field) == before + last;
      assert get(MergeAll(s, us)) == (get(s) + before) + last;
      assert (get(s) + before) + last == get(s) + (before + last);
    }
  }

  /** After any sequence of updates, each list field is the original list followed by every
      update's entries in order, so it only grows and keeps its earlier entries. */
  lemma MergeAllLists(s: AgentState, us: seq<Update>)
    ensures MergeAll(s, us).reports == s.reports + Appended(us, (u: Update) => u.reports)
    ensures MergeAll(s, us).prompts == s.prompts + Appended(us, (u: Update) => u.prompts)
    ensures MergeAll(s, us).reviewFeedback == s.reviewFeedback + Appended(us, (u: Update) => u.reviewFeedback)
    ensures MergeAll(s, us).riskFeedback == s.riskFeedback + Appended(us, (u: Update) => u.riskFeedback)
  {
    MergeAllList(s, us, (t: AgentState) => t.reports, (u: Update) => u.reports);
    MergeAllList(s, us, (t: AgentState) => t.prompts, (u: Update) => u.prompts);
    MergeAllList(s, us, (t: AgentState) => t.reviewFeedback, (u: Update) => u.reviewFeedback);
    MergeAllList(s, us, (t: AgentState) => t.riskFeedback, (u: Update) => u.riskFeedback);
  }

  /** After any sequence of updates, each replaced field holds the most recently set value. */
  lemma {:induction false} MergeAllReplaced(s: AgentState, us: seq<Update>)
    ensures MergeAll(s, us).portfolio == Latest(us, (u: Update) => u.portfolio, s.portfolio)
    ensures MergeAll(s, us).riskAssessment == Latest(us, (u: Update) => u.riskAssessment, s.riskAssessment)
    ensures MergeAll(s, us).revisionCount == Latest(us, (u: Update) => u.revisionCount, s.revisionCount)
    ensures MergeAll(s, us).riskRevisionCount == Latest(us, (u: Update) => u.riskRevisionCount, s.riskRevisionCount)
    decreases |us|
  {
    if |us| > 0 {
      MergeAllReplaced(s, us[..|us| - 1]);
    }
  }

  /** An update that does not set a counter leaves it as it was, so the two revision counters
      move independently; the model fields are replaced the same way. */
  lemma CountersIndependent(s: AgentState, u: Update)
    ensures u.modelProvider.None? ==> Merge(s, u).modelProvider == s.modelProvider
    ensures u.modelProvider.Some? ==> Merge(s, u).modelProvider == u.modelProvider.value
    ensures u.revisionCount.None? ==> RevisionCount(Merge(s, u)) == RevisionCount(s)
    ensures u.riskRevisionCount.None? ==> RiskRevisionCount(Merge(s, u)) == RiskRevisionCount(s)
    ensures u.revisionCount.Some? ==> RevisionCount(Merge(s, u)) == u.revisionCount.value
    ensures u.riskRevisionCount.Some? ==> RiskRevisionCount(Merge(s, u)) == u.riskRevisionCount.value
  {
  }

  /** The state the command line starts from. */
  function InitialState(tickers: seq<string>, modelProvider: string, modelName: Option<string>): (s: AgentState)
    ensures s.tickers == tickers && s.reports == []
    ensures s.modelProvider == Some(modelProvider) && s.modelName == modelName
    ensures RevisionCount(s) == 0 && RiskRevisionCount(s) == 0
    ensures s.reviewFeedback == [] && s.riskFeedback == [] && s.prompts == []
    ensures s.portfolio.None? && s.riskAssessment.None?
  {
    AgentState(tickers, [], None, Some(modelProvider), modelName, None, None, [], None, [], None, [], None)
  }
}
