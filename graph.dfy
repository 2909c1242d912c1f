/** The workflow graph as built: a fan-out from the start to one analyst run per ticker, then
    the portfolio node, then the end. The reviewer and risk-manager nodes and their gates exist
    but are not wired into this graph. */
module Graph {
  import opened Common
  import opened State

  const START := "__start__"
  const END := "__end__"
  const ANALYST_NODE := "analyst_node"
  const PORTFOLIO_NODE := "portfolio_node"

  /** One dispatch of the fan-out: the target node and the payload it is started with. */
  datatype Send = Send(node: string, ticker: string, modelProvider: Option<string>, modelName: Option<string>)

  /** `map_tickers`: one dispatch per ticker. */
  function MapTickers(s: AgentState): seq<Send>
  {
    seq(|s.tickers|, i requires 0 <= i < |s.tickers| =>
      Send(ANALYST_NODE, s.tickers[i], s.modelProvider, s.modelName))
  }

  /** The tickers a list of dispatches carries, in order. */
  function DispatchedTickers(ds: seq<Send>): seq<string>
  {
    if |ds| == 0 then [] else DispatchedTickers(ds[..|ds| - 1]) + [ds[|ds| - 1].ticker]
  }

  /** The dispatches carry exactly the state's tickers in state order, each to the analyst node
      with the state's model choice; no ticker means no dispatch. */
  lemma {:induction false} MapTickersDispatch(s: AgentState)
    ensures DispatchedTickers(MapTickers(s)) == s.tickers
    ensures forall i :: 0 <= i < |MapTickers(s)| ==>
      MapTickers(s)[i].node == ANALYST_NODE && MapTickers(s)[i].modelProvider == s.modelProvider &&
      MapTickers(s)[i].modelName == s.modelName
    ensures s.tickers == [] <==> MapTickers(s) == []
  {
    DispatchedPrefix(MapTickers(s), s.tickers);
  }

  lemma {:induction false} DispatchedPrefix(ds: seq<Send>, ts: seq<string>)
    requires |ds| == |ts|
    requires forall i :: 0 <= i < |ds| ==> ds[i].ticker == ts[i]
    ensures DispatchedTickers(ds) == ts
    decreases |ds|
  {
    if |ds| > 0 {
      DispatchedPrefix(ds[..|ds| - 1], ts[..|ts| - 1]);
    }
  }

  /** A transition: a plain edge, or the conditional fan-out through `map_tickers`. */
  datatype Edge = Plain(from: string, to: string) | FanOut(from: string, to: string)

  const EDGES: seq<Edge> := [FanOut(START, ANALYST_NODE), Plain(ANALYST_NODE, PORTFOLIO_NODE), Plain(PORTFOLIO_NODE, END)]

  /** The nodes an edge list leads to from `n`. */
  function Successors(edges: seq<Edge>, n: string): seq<string>
  {
    if |edges| == 0 then []
    else
      var last := edges[|edges| - 1];
      Successors(edges[..|edges| - 1], n) + (if last.from == n then [last.to] else [])
  }

  /** The successors of `n` in the wired list, edge by edge. */
  lemma SuccessorsUnfold(n: string)
    ensures Successors(EDGES, n) ==
      (if START == n then [ANALYST_NODE] else []) + (if ANALYST_NODE == n then [PORTFOLIO_NODE] else []) +
      (if PORTFOLIO_NODE == n then [END] else [])
  {
    assert EDGES[..2] == [FanOut(START, ANALYST_NODE), Plain(ANALYST_NODE, PORTFOLIO_NODE)];
    assert EDGES[..2][..1] == [FanOut(START, ANALYST_NODE)];
    assert EDGES[..2][..1][..0] == [];
    assert Successors(EDGES[..2][..1], n) == (if START == n then [ANALYST_NODE] else []);
    assert Successors(EDGES[..2], n) ==
      (if START == n then [ANALYST_NODE] else []) + (if ANALYST_NODE == n then [PORTFOLIO_NODE] else []);
  }

  /** The graph is the chain start, analysts, portfolio, end: each node has exactly one successor
      and the end none, and no edge touches any other node (so neither the reviewer nor the risk
      manager is reachable). */
  lemma WiredChain()
    ensures Successors(EDGES, START) == [ANALYST_NODE]
    ensures Successors(EDGES, ANALYST_NODE) == [PORTFOLIO_NODE]
    ensures Successors(EDGES, PORTFOLIO_NODE) == [END]
    ensures Successors(EDGES, END) == []
    ensures forall e :: e in EDGES ==>
      e.from in {START, ANALYST_NODE, PORTFOLIO_NODE} && e.to in {ANALYST_NODE, PORTFOLIO_NODE, END}
  {
    // The four names have different lengths, hence are pairwise different.
    assert |START| == 9 && |END| == 7 && |ANALYST_NODE| == 12 && |PORTFOLIO_NODE| == 14;
    SuccessorsUnfold(START);
    SuccessorsUnfold(ANALYST_NODE);
    SuccessorsUnfold(PORTFOLIO_NODE);
    SuccessorsUnfold(END);
  }
}
