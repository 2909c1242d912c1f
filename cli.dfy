/** The two command-line front ends' input handling: reading a ticker file into a list of
    symbols, and picking the SMI symbols to analyse from the `--symbols` arguments. */
module Cli {
  import opened Common

  // ---------------------------------------------------------------------------
  // Ticker files

  /** The characters Python's `str.strip()` removes: those for which `str.isspace()` holds,
      that is tab to carriage return, the information separators 0x1C to 0x1F, the space, and
      the Unicode spaces and line separators. */
  predicate IsSpace(c: char)
  {
    if c <= ' ' then
      '\t' <= c <= '\r' || '\U{1C}' <= c
    else
      '\U{85}' <= c &&
      (c == '\U{85}' || c == '\U{A0}' || c == '\U{1680}' || '\U{2000}' <= c <= '\U{200A}' ||
       c == '\U{2028}' || c == '\U{2029}' || c == '\U{202F}' || c == '\U{205F}' || c == '\U{3000}')
  }

  /** `s.lstrip()`. */
  function StripStart(s: string): (r: string)
    ensures |r| <= |s|
    ensures |r| > 0 ==> !IsSpace(r[0])
  {
    if |s| > 0 && IsSpace(s[0]) then StripStart(s[1..]) else s
  }

  /** `s.rstrip()`. */
  function StripEnd(s: string): (r: string)
    ensures |r| <= |s|
    ensures |r| > 0 ==> !IsSpace(r[|r| - 1])
  {
    if |s| > 0 && IsSpace(s[|s| - 1]) then StripEnd(s[..|s| - 1]) else s
  }

  /** `s.strip()`: the text between the leading and the trailing white space. */
  function Strip(s: string): (r: string)
  {
    StripEnd(StripStart(s))
  }

  /** `rstrip` keeps a prefix and removes only white space. */
  lemma {:induction false} StripEndRemovesSpace(s: string)
    ensures StripEnd(s) == s[..|StripEnd(s)|]
    ensures forall i :: |StripEnd(s)| <= i < |s| ==> IsSpace(s[i])
    decreases |s|
  {
    if |s| > 0 && IsSpace(s[|s| - 1]) {
      StripEndRemovesSpace(s[..|s| - 1]);
    }
  }

  /** `lstrip` keeps a suffix and removes only white space. */
  lemma {:induction false} StripStartRemovesSpace(s: string)
    ensures StripStart(s) == s[|s| - |StripStart(s)|..]
    ensures forall i :: 0 <= i < |s| - |StripStart(s)| ==> IsSpace(s[i])
    decreases |s|
  {
    if |s| > 0 && IsSpace(s[0]) {
      StripStartRemovesSpace(s[1..]);
    }
  }

  /** The stripped text is a stretch of the original with neither end white space, and what was
      cut off on either side is white space. */
  lemma StripMeaning(s: string)
    ensures var r, k := Strip(s), |s| - |StripStart(s)|;
      0 <= k <= k + |r| <= |s| && r == s[k..k + |r|] &&
      (|r| > 0 ==> !IsSpace(r[0]) && !IsSpace(r[|r| - 1])) &&
      (forall i :: 0 <= i < k ==> IsSpace(s[i])) &&
      (forall i :: k + |r| <= i < |s| ==> IsSpace(s[i]))
  {
    var t := StripStart(s);
    StripStartRemovesSpace(s);
    StripEndRemovesSpace(t);
    var r := StripEnd(t);
    var k := |s| - |t|;
    assert t == s[k..];
    assert r == t[..|r|];
    forall i | k + |r| <= i < |s|
      ensures IsSpace(s[i])
    {
      assert s[i] == t[i - k];
    }
  }

  /** Stripping a stripped text changes nothing. */
  lemma StripIdempotent(s: string)
    ensures Strip(Strip(s)) == Strip(s)
  {
    var r := Strip(s);
    StripMeaning(s);
    if |r| > 0 {
      assert StripStart(r) == r;
      assert StripEnd(r) == r;
    }
  }

  /** A line that begins with an information separator and ends in a newline strips to the bare
      symbol, as `str.strip()` does. */
  lemma SeparatorStripped()
    ensures Strip("\U{1C}AAPL\n") == "AAPL"
  {
    assert "\U{1C}AAPL\n"[1..] == "AAPL\n";
    assert StripStart("\U{1C}AAPL\n") == "AAPL\n";
    assert "AAPL\n"[..4] == "AAPL";
  }

  /** A line becomes a ticker when it has text besides white space and does not itself start with
      `#`; the comment test looks at the raw line. */
  predicate Keep(line: string)
  {
    |Strip(line)| > 0 && !(|line| > 0 && line[0] == '#')
  }

  /** The stripped kept lines, in file order. */
  function Tickers(lines: seq<string>): (ts: seq<string>)
    ensures |ts| <= |lines|
  {
    if |lines| == 0 then []
    else Tickers(lines[..|lines| - 1]) + (if Keep(lines[|lines| - 1]) then [Strip(lines[|lines| - 1])] else [])
  }

  /** `load_tickers`: `file` holds the file's lines, or is absent when the path does not exist, which
      raises `FileNotFoundError`. */
  function LoadTickers(path: string, file: Option<seq<string>>): (r: Result<seq<string>, string>)
    ensures file.None? <==> r.Err?
    ensures r.Err? ==> r.error == "Ticker file not found: " + path
  {
    match file
    case None => Err("Ticker file not found: " + path)
    case Some(lines) => Ok(Tickers(lines))
  }

  /** The tickers come from the lines in order: those of a concatenation are those of each part. */
  lemma {:induction false} TickersAppend(a: seq<string>, b: seq<string>)
    ensures Tickers(a + b) == Tickers(a) + Tickers(b)
    decreases |b|
  {
    if |b| == 0 {
      assert a + b == a;
    } else {
      var n := |b| - 1;
      TickersAppend(a, b[..n]);
      var ab := a + b;
      assert ab[..|ab| - 1] == a + b[..n] && ab[|ab| - 1] == b[n];
      if Keep(b[n]) {
        assert Tickers(ab) == Tickers(a + b[..n]) + [Strip(b[n])];
        assert Tickers(b) == Tickers(b[..n]) + [Strip(b[n])];
      } else {
        assert Tickers(ab) == Tickers(a + b[..n]);
        assert Tickers(b) == Tickers(b[..n]);
      }
    }
  }

  /** Every ticker is non-empty and already stripped. */
  lemma {:induction false} TickersStripped(lines: seq<string>)
    ensures forall t :: t in Tickers(lines) ==> |t| > 0 && Strip(t) == t
    decreases |lines|
  {
    if |lines| > 0 {
      var n := |lines| - 1;
      var init := lines[..n];
      TickersStripped(init);
      if Keep(lines[n]) {
        StripIdempotent(lines[n]);
        assert Tickers(lines) == Tickers(init) + [Strip(lines[n])];
      } else {
        assert Tickers(lines) == Tickers(init);
      }
    }
  }

  /** Every kept line contributes its stripped form, and every ticker is the stripped form of a
      kept line. */
  lemma {:induction false} TickersFromKeptLines(lines: seq<string>)
    ensures forall i :: 0 <= i < |lines| && Keep(lines[i]) ==> Strip(lines[i]) in Tickers(lines)
    ensures forall t :: t in Tickers(lines) ==> exists i :: 0 <= i < |lines| && Keep(lines[i]) && t == Strip(lines[i])
    decreases |lines|
  {
    if |lines| > 0 {
      var n := |lines| - 1;
      var init := lines[..n];
      TickersFromKeptLines(init);
      forall i | 0 <= i < |lines| && Keep(lines[i])
        ensures Strip(lines[i]) in Tickers(lines)
      {
        if i < n {
          assert init[i] == lines[i];
        }
      }
      forall t | t in Tickers(lines)
        ensures exists i :: 0 <= i < |lines| && Keep(lines[i]) && t == Strip(lines[i])
      {
        if t in Tickers(init) {
          var i :| 0 <= i < |init| && Keep(init[i]) && t == Strip(init[i]);
          assert lines[i] == init[i];
        } else {
          assert Keep(lines[n]) && t == Strip(lines[n]);
        }
      }
    }
  }

  /** The comment test is on the raw line: a line starting with `#` is dropped, while the same line
      indented is kept, `#` and all. */
  lemma CommentOnlyAtLineStart(text: string)
    ensures Tickers(["#" + text]) == []
    ensures Strip(" #" + text) == Strip("#" + text)
    ensures Tickers([" #" + text]) == [Strip("#" + text)]
    ensures Strip("#" + text)[0] == '#'
  {
    var raw := "#" + text;
    assert " #" + text == " " + raw;
    assert StripStart(" " + raw) == StripStart(raw) by {
      assert (" " + raw)[1..] == raw;
    }
    assert StripStart(raw) == raw;
    StripEndRemovesSpace(raw);
    assert |StripEnd(raw)| > 0;
    assert Tickers([" " + raw]) == Tickers([" " + raw][..0]) + [Strip(" " + raw)];
  }

  // ---------------------------------------------------------------------------
  // Symbol selection

  /** The given symbols found in the table, in the given order, repeats kept. */
  function ValidSymbols(given: seq<string>, table: map<string, string>): (vs: seq<string>)
    ensures |vs| <= |given|
  {
    if |given| == 0 then []
    else
      ValidSymbols(given[..|given| - 1], table) +
        (if given[|given| - 1] in table then [given[|given| - 1]] else [])
  }

  /** The kept symbols are exactly the given symbols found in the table. */
  lemma {:induction false} ValidSymbolsMembers(given: seq<string>, table: map<string, string>)
    ensures forall s :: s in ValidSymbols(given, table) <==> s in given && s in table
    decreases |given|
  {
    if |given| > 0 {
      var n := |given| - 1;
      ValidSymbolsMembers(given[..n], table);
      assert forall s :: s in given <==> s in given[..n] || s == given[n];
    }
  }

  /** The warning printed for a symbol outside the table. */
  function Warning(symbol: string): string
  {
    "Warning: " + symbol + " is not a valid SMI symbol"
  }

  /** One warning per rejected symbol, in the given order. */
  function Warnings(given: seq<string>, table: map<string, string>): (ws: seq<string>)
    ensures |ws| <= |given|
  {
    if |given| == 0 then []
    else
      Warnings(given[..|given| - 1], table) +
        (if given[|given| - 1] in table then [] else [Warning(given[|given| - 1])])
  }

  /** Each given symbol is either kept or warned about, never both. */
  lemma {:induction false} EachSymbolAccounted(given: seq<string>, table: map<string, string>)
    ensures |ValidSymbols(given, table)| + |Warnings(given, table)| == |given|
    ensures forall s :: s in given && s !in table ==> Warning(s) in Warnings(given, table)
    decreases |given|
  {
    if |given| > 0 {
      var n := |given| - 1;
      EachSymbolAccounted(given[..n], table);
      assert forall s :: s in given ==> s in given[..n] || s == given[n];
    }
  }

  /** One more argument either joins the kept symbols or adds one warning. */
  lemma SelectionStep(args: seq<string>, i: int, table: map<string, string>)
    requires 0 <= i < |args|
    ensures ValidSymbols(args[..i + 1], table) ==
      ValidSymbols(args[..i], table) + (if args[i] in table then [args[i]] else [])
    ensures Warnings(args[..i + 1], table) ==
      Warnings(args[..i], table) + (if args[i] in table then [] else [Warning(args[i])])
  {
    var p := args[..i + 1];
    assert p[..i] == args[..i] && p[i] == args[i];
  }

  /** The symbols to analyse: none given, or none valid, means every stock (`None`). */
  function Selection(given: Option<seq<string>>, table: map<string, string>): (sel: Option<seq<string>>)
  {
    if given.None? || |given.value| == 0 then None
    else
      var vs := ValidSymbols(given.value, table);
      if |vs| == 0 then None else Some(vs)
  }

  /** A selection is made exactly when some given symbol is in the table; it then lists only
      symbols of the table, and at least one. */
  lemma SelectionMeaning(given: Option<seq<string>>, table: map<string, string>)
    ensures var sel := Selection(given, table);
      (sel.Some? ==> |sel.value| > 0 && forall s :: s in sel.value ==> s in table) &&
      (sel.Some? <==> given.Some? && exists s :: s in given.value && s in table)
  {
    if given.Some? {
      ValidSymbolsMembers(given.value, table);
    }
    if given.Some? && |given.value| > 0 {
      var vs := ValidSymbols(given.value, table);
      if |vs| > 0 {
        assert vs[0] in vs;
      }
    }
  }

  /** The `--symbols` block of the entry point: the valid symbols in order with one warning per
      invalid one, falling back to every stock when none is valid or none is given. */
  method SelectSymbols(given: Option<seq<string>>, table: map<string, string>)
    returns (symbols: Option<seq<string>>, warnings: seq<string>)
    ensures symbols == Selection(given, table)
    ensures symbols.Some? ==> symbols.value == ValidSymbols(given.value, table)
    ensures warnings == if given.Some? then Warnings(given.value, table) else []
  {
    if given.None? || |given.value| == 0 {
      return None, [];
    }
    var args := given.value;
    var kept: seq<string> := [];
    warnings := [];
    var i := 0;
    while i < |args|
      invariant 0 <= i <= |args|
      invariant kept == ValidSymbols(args[..i], table)
      invariant warnings == Warnings(args[..i], table)
    {
      SelectionStep(args, i, table);
      if args[i] in table {
        kept := kept + [args[i]];
      } else {
        warnings := warnings + [Warning(args[i])];
      }
      i := i + 1;
    }
    assert args[..i] == args;
    if |kept| == 0 {
      symbols := None;
    } else {
      symbols := Some(kept);
    }
  }
}
