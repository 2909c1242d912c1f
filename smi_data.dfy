/** The SMI data fetcher: the fixed table of the twenty Swiss Market Index constituents and a
    cache of downloaded price frames keyed by symbol, period and interval. The download itself
    is an oracle: `None` stands for an exception, `Some([])` for an empty frame. */
module SmiData {
  import opened Common
  import opened TradingSignals

  /** The constituents' symbols, in the table's order. */
  const SMI_SYMBOLS: seq<string> := [
    "NESN.SW", "NOVN.SW", "ROG.SW", "ABBN.SW", "UBSG.SW",
    "ZURN.SW", "SREN.SW", "HOLN.SW", "SIKA.SW", "GIVN.SW",
    "LONN.SW", "SLHN.SW", "CFR.SW", "GEBN.SW", "ALC.SW",
    "PGHN.SW", "SCMN.SW", "SGSN.SW", "UHR.SW", "STMN.SW"]

  /** The company names, in the same order. */
  const SMI_NAMES: seq<string> := [
    "Nestlé", "Novartis", "Roche", "ABB", "UBS Group",
    "Zurich Insurance", "Swiss Re", "Holcim", "Sika", "Givaudan",
    "Lonza", "Swiss Life", "Compagnie Financière Richemont", "Geberit", "Alcon",
    "Partners Group", "Swisscom", "SGS", "Swatch Group", "Straumann"]

  /** `zip(symbols, names)` as a dictionary; a later pair wins on a repeated symbol. */
  function Table(symbols: seq<string>, names: seq<string>): (m: map<string, string>)
    requires |symbols| == |names|
    ensures m.Keys == set i | 0 <= i < |symbols| :: symbols[i]
  {
    if |symbols| == 0 then map[]
    else Table(symbols[..|symbols| - 1], names[..|names| - 1])[symbols[|symbols| - 1] := names[|names| - 1]]
  }

  predicate Distinct(xs: seq<string>)
  {
    forall i, j :: 0 <= i < j < |xs| ==> xs[i] != xs[j]
  }

  /** With distinct symbols, each one maps to its own name and there are as many entries as
      symbols. */
  lemma {:induction false} TableOfDistinct(symbols: seq<string>, names: seq<string>)
    requires |symbols| == |names| && Distinct(symbols)
    ensures |Table(symbols, names)| == |symbols|
    ensures forall i :: 0 <= i < |symbols| ==> Table(symbols, names)[symbols[i]] == names[i]
    decreases |symbols|
  {
    if |symbols| > 0 {
      var n := |symbols| - 1;
      var ss, ns := symbols[..n], names[..n];
      assert Distinct(ss) by {
        forall i, j | 0 <= i < j < n
          ensures ss[i] != ss[j]
        {
          assert ss[i] == symbols[i] && ss[j] == symbols[j];
        }
      }
      TableOfDistinct(ss, ns);
      var t := Table(ss, ns);
      assert symbols[n] !in t by {
        forall i | 0 <= i < n
          ensures ss[i] != symbols[n]
        {
          assert ss[i] == symbols[i];
        }
      }
      assert Table(symbols, names) == t[symbols[n] := names[n]];
      forall i | 0 <= i < n
        ensures Table(symbols, names)[symbols[i]] == names[i]
      {
        assert ss[i] == symbols[i] && ns[i] == names[i];
        assert symbols[i] != symbols[n];
      }
    }
  }

  /** Two duplicate-free lists with no common entry make a duplicate-free list. */
  lemma DistinctAppend(a: seq<string>, b: seq<string>)
    requires Distinct(a) && Distinct(b) && forall x :: x in a ==> x !in b
    ensures Distinct(a + b)
  {
    var c := a + b;
    forall i, j | 0 <= i < j < |c|
      ensures c[i] != c[j]
    {
      if i < |a| <= j {
        assert c[i] in a && c[j] == b[j - |a|];
      } else if |a| <= i {
        assert c[i] == b[i - |a|] && c[j] == b[j - |a|];
      }
    }
  }

  const FIRST_HALF: seq<string> := ["NESN.SW", "NOVN.SW", "ROG.SW", "ABBN.SW", "UBSG.SW",
                                    "ZURN.SW", "SREN.SW", "HOLN.SW", "SIKA.SW", "GIVN.SW"]
  const SECOND_HALF: seq<string> := ["LONN.SW", "SLHN.SW", "CFR.SW", "GEBN.SW", "ALC.SW",
                                     "PGHN.SW", "SCMN.SW", "SGSN.SW", "UHR.SW", "STMN.SW"]

  lemma FirstHalfDistinct()
    ensures Distinct(FIRST_HALF)
  {
  }

  lemma SecondHalfDistinct()
    ensures Distinct(SECOND_HALF)
  {
  }

  lemma HalvesDisjoint()
    ensures forall x :: x in FIRST_HALF ==> x !in SECOND_HALF
  {
  }

  /** No symbol is listed twice; checked half by half. */
  lemma SymbolsDistinct()
    ensures Distinct(SMI_SYMBOLS)
  {
    FirstHalfDistinct();
    SecondHalfDistinct();
    HalvesDisjoint();
    DistinctAppend(FIRST_HALF, SECOND_HALF);
    assert FIRST_HALF + SECOND_HALF == SMI_SYMBOLS;
  }

  /** The class-level `SMI_STOCKS` table. */
  function SmiStocks(): (m: map<string, string>)
    ensures |m| == 20
    ensures m.Keys == set i | 0 <= i < 20 :: SMI_SYMBOLS[i]
    ensures forall i :: 0 <= i < 20 ==> m[SMI_SYMBOLS[i]] == SMI_NAMES[i]
  {
    SymbolsDistinct();
    TableOfDistinct(SMI_SYMBOLS, SMI_NAMES);
    Table(SMI_SYMBOLS, SMI_NAMES)
  }

  /** The table's keys are exactly the listed symbols. */
  lemma SmiStocksKeys()
    ensures forall s :: s in SmiStocks() <==> s in SMI_SYMBOLS
  {
    var m := SmiStocks();
    forall s | s in SMI_SYMBOLS
      ensures s in m
    {
      var i :| 0 <= i < |SMI_SYMBOLS| && SMI_SYMBOLS[i] == s;
      assert s in set k | 0 <= k < 20 :: SMI_SYMBOLS[k];
    }
  }

  /** A downloaded frame, `None` when the download raised. */
  type Download = (string, string, string) -> Option<seq<Bar>>

  const DEFAULT_PERIOD := "1y"
  const DEFAULT_INTERVAL := "1d"

  function CacheKey(symbol: string, period: string, interval: string): string
  {
    symbol + "_" + period + "_" + interval
  }

  /** Two keys that end alike are for the same symbol. */
  lemma SameSuffixSameSymbol(s: string, t: string, period: string, interval: string)
    requires CacheKey(s, period, interval) == CacheKey(t, period, interval)
    ensures s == t
  {
    var suffix := "_" + period + "_" + interval;
    assert CacheKey(s, period, interval) == s + suffix;
    assert CacheKey(t, period, interval) == t + suffix;
    assert s == (s + suffix)[..|s|];
  }

  /** The characters of `a + "_" + rest`: those of `a`, then the separator. */
  lemma JoinedAt(a: string, r: string, k: int)
    ensures 0 <= k < |a| ==> (a + "_" + r)[k] == a[k]
    ensures (a + "_" + r)[|a|] == '_'
  {
  }

  /** The first `_` of `a + "_" + rest` ends `a` when `a` has none of its own. */
  lemma SplitAtSeparator(a: string, r: string, b: string, q: string)
    requires '_' !in a && '_' !in b
    requires a + "_" + r == b + "_" + q
    ensures a == b && r == q
  {
    var x := a + "_" + r;
    if |a| < |b| {
      JoinedAt(a, r, 0);
      JoinedAt(b, q, |a|);
      assert false;
    } else if |b| < |a| {
      JoinedAt(b, q, 0);
      JoinedAt(a, r, |b|);
      assert false;
    }
    assert a == x[..|a|];
    assert r == x[|a| + 1..];
  }

  /** The key tells symbol, period and interval apart as long as the symbol and the period hold no
      `_`; in general it does not (see `CacheKeyCollision`). */
  lemma CacheKeyInjective(s1: string, p1: string, i1: string, s2: string, p2: string, i2: string)
    requires '_' !in s1 && '_' !in s2 && '_' !in p1 && '_' !in p2
    requires CacheKey(s1, p1, i1) == CacheKey(s2, p2, i2)
    ensures s1 == s2 && p1 == p2 && i1 == i2
  {
    assert CacheKey(s1, p1, i1) == s1 + "_" + (p1 + "_" + i1);
    assert CacheKey(s2, p2, i2) == s2 + "_" + (p2 + "_" + i2);
    SplitAtSeparator(s1, p1 + "_" + i1, s2, p2 + "_" + i2);
    SplitAtSeparator(p1, i1, p2, i2);
  }

  /** A symbol containing `_` can share its key with another request. */
  lemma CacheKeyCollision()
    ensures CacheKey("A_1y", "1d", "1d") == CacheKey("A", "1y_1d", "1d")
  {
    assert CacheKey("A_1y", "1d", "1d") == "A_1y_1d_1d";
  }

  /** The data `fetch_data` returns and the cache it leaves behind. */
  datatype Fetched = Fetched(data: Option<seq<Bar>>, cache: map<string, seq<Bar>>)

  /** `fetch_data`: a cached frame unless a refresh is forced; otherwise the download, cached
      only when it returned rows. */
  function Fetch(cache: map<string, seq<Bar>>, symbol: string, period: string, interval: string,
                 forceRefresh: bool, download: Download): Fetched
  {
    var key := CacheKey(symbol, period, interval);
    if !forceRefresh && key in cache then Fetched(Some(cache[key]), cache)
    else
      match download(symbol, period, interval)
      case None => Fetched(None, cache)
      case Some(frame) =>
        if |frame| == 0 then Fetched(None, cache) else Fetched(Some(frame), cache[key := frame])
  }

  /** Every cached frame has rows. */
  predicate CacheNonEmpty(cache: map<string, seq<Bar>>)
  {
    forall k :: k in cache ==> |cache[k]| > 0
  }

  /** The contract of one fetch: a hit returns the cached frame and downloads nothing; a failed or
      empty download returns `None` and leaves the cache alone; a successful one is stored under
      its own key and nowhere else. Returned frames are never empty when the cache holds none. */
  lemma FetchProperties(cache: map<string, seq<Bar>>, symbol: string, period: string, interval: string,
                        forceRefresh: bool, download: Download)
    ensures var key, f := CacheKey(symbol, period, interval), Fetch(cache, symbol, period, interval, forceRefresh, download);
      (!forceRefresh && key in cache ==> f == Fetched(Some(cache[key]), cache)) &&
      ((forceRefresh || key !in cache) ==>
        var d := download(symbol, period, interval);
        (d.None? || |d.value| == 0 ==> f == Fetched(None, cache)) &&
        (d.Some? && |d.value| > 0 ==>
           (f.data == d && f.cache.Keys == cache.Keys + {key} &&
            f.cache[key] == d.value && forall k :: k in cache && k != key ==> f.cache[k] == cache[k]))) &&
      (CacheNonEmpty(cache) ==> CacheNonEmpty(f.cache) && (f.data.Some? ==> |f.data.value| > 0))
  {
  }

  /** A forced refresh never reads the cache: with the same download it returns the same data
      whatever the cache held. */
  lemma ForcedRefreshIgnoresCache(c1: map<string, seq<Bar>>, c2: map<string, seq<Bar>>, symbol: string,
                                  period: string, interval: string, download: Download)
    ensures Fetch(c1, symbol, period, interval, true, download).data == Fetch(c2, symbol, period, interval, true, download).data
  {
  }

  /** The frames downloaded for a list of symbols and the final cache. */
  datatype FetchedMany = FetchedMany(results: map<string, seq<Bar>>, cache: map<string, seq<Bar>>)

  /** `fetch_multiple` over `symbols`, one fetch after the other, each seeing the cache the
      previous one left. */
  function FetchAll(cache: map<string, seq<Bar>>, symbols: seq<string>, period: string, interval: string,
                    download: Download): FetchedMany
  {
    if |symbols| == 0 then FetchedMany(map[], cache)
    else
      var before := FetchAll(cache, symbols[..|symbols| - 1], period, interval, download);
      var s := symbols[|symbols| - 1];
      var f := Fetch(before.cache, s, period, interval, false, download);
      FetchedMany(if f.data.Some? then before.results[s := f.data.value] else before.results, f.cache)
  }

  /** The download for `symbol` returns rows. */
  predicate Downloads(download: Download, symbol: string, period: string, interval: string)
  {
    download(symbol, period, interval).Some? && |download(symbol, period, interval).value| > 0
  }

  /** After fetching a list, a requested symbol has data exactly when it was cached beforehand or
      its download returns rows; nothing that was not requested appears, and a symbol's key is
      cached exactly when it was before or the symbol was requested and downloaded. */
  lemma {:induction false} FetchAllMeaning(cache: map<string, seq<Bar>>, symbols: seq<string>, period: string,
                                           interval: string, download: Download)
    ensures var r := FetchAll(cache, symbols, period, interval, download);
      (forall s :: s in r.results <==>
         s in symbols && (CacheKey(s, period, interval) in cache || Downloads(download, s, period, interval))) &&
      (forall s :: CacheKey(s, period, interval) in r.cache <==>
         CacheKey(s, period, interval) in cache || (s in symbols && Downloads(download, s, period, interval)))
    decreases |symbols|
  {
    if |symbols| > 0 {
      var n := |symbols| - 1;
      var init := symbols[..n];
      FetchAllMeaning(cache, init, period, interval, download);
      var before := FetchAll(cache, init, period, interval, download);
      var last := symbols[n];
      var lastKey := CacheKey(last, period, interval);
      assert symbols == init + [last];
      forall s | CacheKey(s, period, interval) == lastKey
        ensures s == last
      {
        SameSuffixSameSymbol(s, last, period, interval);
      }
    }
  }

  /** The fetcher object: its cache is the only state it keeps. */
  class DataFetcher {
    var cache: map<string, seq<Bar>>

    constructor()
      ensures cache == map[]
    {
      cache := map[];
    }

    /** `get_stocks`: the full constituent table, one entry per symbol. */
    function GetStocks(): (m: map<string, string>)
      ensures |m| == 20
      ensures forall s :: s in m <==> s in SMI_SYMBOLS
      ensures m["NESN.SW"] == "Nestlé" && m["STMN.SW"] == "Straumann"
    {
      var m := SmiStocks();
      assert SMI_SYMBOLS[0] == "NESN.SW" && SMI_SYMBOLS[19] == "STMN.SW";
      SmiStocksKeys();
      m
    }

    method FetchData(symbol: string, period: string, interval: string, forceRefresh: bool, download: Download)
      returns (data: Option<seq<Bar>>)
      modifies this
      ensures var f := Fetch(old(cache), symbol, period, interval, forceRefresh, download);
        data == f.data && cache == f.cache
    {
      var key := CacheKey(symbol, period, interval);
      if !forceRefresh && key in cache {
        return Some(cache[key]);
      }
      var downloaded := download(symbol, period, interval);
      if downloaded.None? || |downloaded.value| == 0 {
        return None;
      }
      cache := cache[key := downloaded.value];
      data := downloaded;
    }

    /** `fetch_multiple`: the symbols whose fetch returned data, mapped to it; by default every
        constituent. */
    method FetchMultiple(symbols: Option<seq<string>>, period: string, interval: string, download: Download)
      returns (results: map<string, seq<Bar>>)
      modifies this
      ensures var requested := symbols.GetOr(SMI_SYMBOLS);
        var r := FetchAll(old(cache), requested, period, interval, download);
        results == r.results && cache == r.cache
    {
      var requested := symbols.GetOr(SMI_SYMBOLS);
      results := map[];
      var i := 0;
      while i < |requested|
        invariant 0 <= i <= |requested|
        invariant FetchedMany(results, cache) == FetchAll(old(cache), requested[..i], period, interval, download)
      {
        assert requested[..i + 1][..i] == requested[..i];
        var data := FetchData(requested[i], period, interval, false, download);
        if data.Some? {
          results := results[requested[i] := data.value];
        }
        i := i + 1;
      }
      assert requested[..i] == requested;
    }

    method ClearCache()
      modifies this
      ensures cache == map[]
    {
      cache := map[];
    }
  }
}
