/**
 * `extractJSON` of the roadmap and pitch-deck routes: one forward scan that
 * returns every balanced `[...]` / `{...}` block of a text, left to right.
 *
 * The specification is `Spans` (where each block starts and ends) and
 * `Blocks` (the blocks themselves); `ExtractJson` is the loop of the route
 * handlers, proved to compute `Blocks`.
 */
module BlockExtractor {
  import opened JsValues
  import opened JsStrings

  predicate IsOpener(c: char) { c == '[' || c == '{' }

  predicate IsCloser(c: char) { c == ']' || c == '}' }

  /** The variables of the inner loop: two depth counters and the literal flags. */
  datatype ScanState = ScanState(brackets: int, braces: int, inString: bool, escapeNext: bool)

  const Fresh := ScanState(0, 0, false, false)

  /**
   * One iteration of the inner loop on character `c`: the next state, and
   * whether the block ends at `c`.
   */
  function Step(st: ScanState, c: char): (r: (ScanState, bool))
    // a block only ends on a closing character outside a literal, with both counters at zero
    ensures r.1 ==> IsCloser(c) && !st.inString && !st.escapeNext && r.0.brackets == 0 && r.0.braces == 0
    // inside a literal no character other than `"` changes a counter or ends the block
    ensures st.inString && c != '"' ==> r.0.brackets == st.brackets && r.0.braces == st.braces && r.0.inString && !r.1
    // a backslash inside a literal consumes the next character, whatever it is
    ensures st.inString && !st.escapeNext && c == '\\' ==> r.0 == st.(escapeNext := true)
    ensures st.escapeNext ==> r.0 == st.(escapeNext := false) && !r.1
    // an unescaped quote toggles the literal flag and nothing else
    ensures !st.escapeNext && c == '"' ==> r.0 == st.(inString := !st.inString) && !r.1
  {
    if st.escapeNext then (st.(escapeNext := false), false)
    else if c == '\\' && st.inString then (st.(escapeNext := true), false)
    else if c == '"' then (st.(inString := !st.inString), false)
    else if st.inString then (st, false)
    else if c == '[' then (st.(brackets := st.brackets + 1), false)
    else if c == ']' then
      var n := st.(brackets := st.brackets - 1); (n, n.brackets == 0 && n.braces == 0)
    else if c == '{' then (st.(braces := st.braces + 1), false)
    else if c == '}' then
      var n := st.(braces := st.braces - 1); (n, n.brackets == 0 && n.braces == 0)
    else (st, false)
  }

  /**
   * Scanning from index `j` in state `st`: the index just past the character
   * that ends the block, or `None` when the text ends first.
   */
  function BlockEnd(text: string, j: nat, st: ScanState): (r: Option<nat>)
    requires j <= |text|
    decreases |text| - j
    ensures r.Some? ==> j < r.value <= |text| && IsCloser(text[r.value - 1])
  {
    if j == |text| then None
    else
      var (next, closed) := Step(st, text[j]);
      if closed then Some(j + 1) else BlockEnd(text, j + 1, next)
  }

  /** What scanning a whole stretch of text does: the block ends after `len` characters, or it stays open. */
  datatype Outcome = Closed(len: nat) | Open(st: ScanState)

  /** The inner loop run over the characters of `w` alone. */
  function Run(w: string, st: ScanState): (r: Outcome)
    ensures r.Closed? ==> 0 < r.len <= |w| && IsCloser(w[r.len - 1])
  {
    if w == [] then Open(st)
    else
      var (next, closed) := Step(st, w[0]);
      if closed then Closed(1)
      else match Run(w[1..], next)
        case Closed(k) => Closed(k + 1)
        case Open(s) => Open(s)
  }

  /** Scanning `a + b` is scanning `a`, then, if the block is still open, `b`. */
  lemma {:induction false} RunConcat(a: string, b: string, st: ScanState)
    ensures Run(a + b, st) ==
      match Run(a, st)
      case Closed(k) => Closed(k)
      case Open(s) => (match Run(b, s) case Closed(k) => Closed(|a| + k) case Open(s') => Open(s'))
    decreases |a|
  {
    if a == [] {
      assert a + b == b;
    } else {
      assert (a + b)[0] == a[0] && (a + b)[1..] == a[1..] + b;
      var (next, closed) := Step(st, a[0]);
      if !closed {
        RunConcat(a[1..], b, next);
      }
    }
  }

  /** The index-based scan of the route handler agrees with `Run` on the rest of the text. */
  lemma {:induction false} BlockEndRun(text: string, j: nat, st: ScanState)
    requires j <= |text|
    ensures BlockEnd(text, j, st) == match Run(text[j..], st) case Closed(k) => Some(j + k) case Open(_) => None
    decreases |text| - j
  {
    if j < |text| {
      assert text[j..][0] == text[j] && text[j..][1..] == text[j + 1..];
      var (next, closed) := Step(st, text[j]);
      if !closed {
        BlockEndRun(text, j + 1, next);
      }
    }
  }

  /** The earlier of `indexOf('[', i)` and `indexOf('{', i)`. */
  function NextOpener(text: string, i: nat): (r: Option<nat>)
    ensures r.Some? ==> i <= r.value < |text| && IsOpener(text[r.value])
    ensures r.Some? ==> forall k :: i <= k < r.value ==> !IsOpener(text[k])
    ensures r.None? ==> forall k :: i <= k < |text| ==> !IsOpener(text[k])
  {
    var nextBracket := IndexOf(text, '[', i);
    var nextBrace := IndexOf(text, '{', i);
    if nextBracket.None? && nextBrace.None? then None
    else if nextBracket.None? then nextBrace
    else if nextBrace.None? then nextBracket
    else Some(if nextBracket.value < nextBrace.value then nextBracket.value else nextBrace.value)
  }

  /** The first opener at or after `i` is the one `NextOpener` finds. */
  lemma NextOpenerAt(text: string, i: nat, p: nat)
    requires i <= p < |text| && IsOpener(text[p])
    requires forall k :: i <= k < p ==> !IsOpener(text[k])
    ensures NextOpener(text, i) == Some(p)
  {
  }

  /**
   * Where the scan from `p` stops for good: there is no opener left, or the
   * first opener never closes (the rest of the text is then dropped).
   */
  predicate StopsAt(text: string, p: nat)
    requires p <= |text|
  {
    match NextOpener(text, p)
    case None => true
    case Some(s) => BlockEnd(text, s, Fresh).None?
  }

  /**
   * The `[start, end)` index pairs of the blocks found from position `i`, in
   * the order the scan finds them.
   */
  function Spans(text: string, i: nat): (r: seq<(nat, nat)>)
    requires i <= |text|
    decreases |text| - i
    ensures forall k :: 0 <= k < |r| ==> i <= r[k].0 < r[k].1 <= |text|
    ensures forall k :: 0 <= k < |r| ==> BlockEnd(text, r[k].0, Fresh) == Some(r[k].1)
  {
    if i == |text| then []
    else match NextOpener(text, i)
      case None => []
      case Some(start) =>
        match BlockEnd(text, start, Fresh)
        case None => []
        case Some(end) => [(start, end)] + Spans(text, end)
  }

  /**
   * The spans `r` are in order and do not overlap, and each starts at the
   * earliest opener at or after the end of the previous one (or after `i`).
   */
  predicate Chained(text: string, i: nat, r: seq<(nat, nat)>)
  {
    && (|r| > 0 ==> NextOpener(text, i) == Some(r[0].0))
    && (forall k :: 0 < k < |r| ==> r[k - 1].1 <= r[k].0 && NextOpener(text, r[k - 1].1) == Some(r[k].0))
  }

  lemma ChainedCons(text: string, i: nat, start: nat, end: nat, rest: seq<(nat, nat)>)
    requires NextOpener(text, i) == Some(start) && Chained(text, end, rest)
    ensures Chained(text, i, [(start, end)] + rest)
  {
    var r := [(start, end)] + rest;
    forall k | 0 < k < |r|
      ensures r[k - 1].1 <= r[k].0 && NextOpener(text, r[k - 1].1) == Some(r[k].0)
    {
      if k > 1 {
        assert r[k - 1] == rest[k - 2] && r[k] == rest[k - 1];
      }
    }
  }

  /**
   * The blocks are chained as above, and after the last one the scan stops
   * for good.
   */
  lemma {:induction false} SpansOrdered(text: string, i: nat)
    requires i <= |text|
    decreases |text| - i
    ensures Chained(text, i, Spans(text, i))
    ensures StopsAt(text, if Spans(text, i) == [] then i else Spans(text, i)[|Spans(text, i)| - 1].1)
  {
    if i < |text| && NextOpener(text, i).Some? {
      var start := NextOpener(text, i).value;
      if BlockEnd(text, start, Fresh).Some? {
        var end := BlockEnd(text, start, Fresh).value;
        var rest := Spans(text, end);
        SpansOrdered(text, end);
        assert Spans(text, i) == [(start, end)] + rest;
        ChainedCons(text, i, start, end, rest);
      }
    }
  }

  predicate SpansFit(text: string, spans: seq<(nat, nat)>)
  {
    forall k :: 0 <= k < |spans| ==> spans[k].0 <= spans[k].1 <= |text|
  }

  function Slices(text: string, spans: seq<(nat, nat)>): seq<string>
    requires SpansFit(text, spans)
  {
    seq(|spans|, k requires 0 <= k < |spans| => text[spans[k].0..spans[k].1])
  }

  lemma SlicesCons(text: string, start: nat, end: nat, rest: seq<(nat, nat)>)
    requires start <= end <= |text| && SpansFit(text, rest)
    ensures SpansFit(text, [(start, end)] + rest)
    ensures Slices(text, [(start, end)] + rest) == [text[start..end]] + Slices(text, rest)
  {
    var r := [(start, end)] + rest;
    assert forall k :: 0 < k < |r| ==> r[k] == rest[k - 1];
  }

  /** The blocks found by a scan that starts at position `i`. */
  function BlocksFrom(text: string, i: nat): seq<string>
    requires i <= |text|
  {
    Slices(text, Spans(text, i))
  }

  /** The value of `extractJSON(text)`. */
  function Blocks(text: string): seq<string>
  {
    BlocksFrom(text, 0)
  }

  /** Unfolding the scan by one block. */
  lemma BlocksFromStep(text: string, i: nat, start: nat, end: nat)
    requires i < |text|
    requires NextOpener(text, i) == Some(start) && BlockEnd(text, start, Fresh) == Some(end)
    ensures start < end <= |text|
    ensures BlocksFrom(text, i) == [text[start..end]] + BlocksFrom(text, end)
  {
    assert Spans(text, i) == [(start, end)] + Spans(text, end);
    SlicesCons(text, start, end, Spans(text, end));
  }

  /** The scan stops at `i` when it finds no opener or an opener that never closes. */
  lemma BlocksFromStop(text: string, i: nat)
    requires i <= |text| && StopsAt(text, i)
    ensures BlocksFrom(text, i) == []
  {
  }

  /** A text without `[` or `{` yields no block. */
  lemma NoOpenerNoBlocks(text: string)
    requires forall k :: 0 <= k < |text| ==> !IsOpener(text[k])
    ensures Blocks(text) == []
  {
  }

  /**
   * Each block begins with `[` or `{`, ends with `]` or `}`, and is ended by
   * the scan at its last character; consecutive blocks do not overlap.
   */
  lemma BlocksShape(text: string)
    ensures forall k :: 0 <= k < |Blocks(text)| ==>
      |Blocks(text)[k]| >= 2 && IsOpener(Blocks(text)[k][0]) && IsCloser(Blocks(text)[k][|Blocks(text)[k]| - 1])
  {
    var r := Spans(text, 0);
    SpansOrdered(text, 0);
    assert Chained(text, 0, r);
    forall k | 0 <= k < |r|
      ensures IsOpener(text[r[k].0])
    {
      if k == 0 {
        assert NextOpener(text, 0) == Some(r[0].0);
      } else {
        assert NextOpener(text, r[k - 1].1) == Some(r[k].0);
      }
    }
  }

  /**
   * A block that never closes stops the whole scan: a complete block that
   * follows it is not found, although the scan is started over nowhere.
   */
  lemma UnclosedBlockHidesLaterBlocks()
    ensures Blocks("[{}") == []
    ensures Blocks("{}") == ["{}"]
  {
    var t := "[{}";
    assert NextOpener(t, 0) == Some(0);
    assert BlockEnd(t, 3, ScanState(1, 0, false, false)) == None;
    assert BlockEnd(t, 2, ScanState(1, 1, false, false)) == None;
    assert BlockEnd(t, 0, Fresh) == None;
    var u := "{}";
    assert NextOpener(u, 0) == Some(0);
    assert BlockEnd(u, 1, ScanState(0, 1, false, false)) == Some(2);
    assert Spans(u, 2) == [];
    assert Spans(u, 0) == [(0, 2)];
    assert u[0..2] == "{}";
  }

  /**
   * The inner loop of `extractJSON`: from the opener at `start`, the index just
   * past the end of its block, or -1 when the text ends first.
   */
  method FindBlockEnd(text: string, start: nat) returns (end: int)
    requires start < |text|
    ensures end == -1 <==> BlockEnd(text, start, Fresh).None?
    ensures end != -1 ==> BlockEnd(text, start, Fresh) == Some(end)
  {
    var bracketCount, braceCount := 0, 0;
    var inString, escapeNext := false, false;
    end := -1;
    var j := start;
    while j < |text|
      invariant start <= j <= |text|
      invariant BlockEnd(text, start, Fresh) == BlockEnd(text, j, ScanState(bracketCount, braceCount, inString, escapeNext))
      decreases |text| - j
    {
      ghost var before := ScanState(bracketCount, braceCount, inString, escapeNext);
      var ch := text[j];
      if escapeNext {
        escapeNext := false;
      } else if ch == '\\' && inString {
        escapeNext := true;
      } else if ch == '"' {
        inString := !inString;
      } else if inString {
      } else if ch == '[' {
        bracketCount := bracketCount + 1;
      } else if ch == ']' {
        bracketCount := bracketCount - 1;
        if bracketCount == 0 && braceCount == 0 {
          assert Step(before, ch).1;
          end := j + 1;
          return;
        }
      } else if ch == '{' {
        braceCount := braceCount + 1;
      } else if ch == '}' {
        braceCount := braceCount - 1;
        if bracketCount == 0 && braceCount == 0 {
          assert Step(before, ch).1;
          end := j + 1;
          return;
        }
      }
      assert Step(before, ch) == (ScanState(bracketCount, braceCount, inString, escapeNext), false);
      j := j + 1;
    }
  }

  /** The route handlers' `extractJSON`: blocks are collected until the scan stops. */
  method ExtractJson(text: string) returns (results: seq<string>)
    ensures results == Blocks(text)
  {
    results := [];
    var i := 0;
    while i < |text|
      invariant 0 <= i <= |text|
      invariant results + BlocksFrom(text, i) == Blocks(text)
      decreases |text| - i
    {
      // find the next [ or {
      var nextBracket := IndexOf(text, '[', i);
      var nextBrace := IndexOf(text, '{', i);
      if nextBracket.None? && nextBrace.None? {
        BlocksFromStop(text, i);
        assert results + [] == results;
        break;
      }
      var start: nat;
      if nextBracket.None? {
        start := nextBrace.value;
      } else if nextBrace.None? {
        start := nextBracket.value;
      } else {
        start := if nextBracket.value < nextBrace.value then nextBracket.value else nextBrace.value;
      }
      assert NextOpener(text, i) == Some(start);

      var end := FindBlockEnd(text, start);
      if end == -1 {
        BlocksFromStop(text, i);
        assert results + [] == results;
        break;
      }
      BlocksFromStep(text, i, start, end);
      assert results + BlocksFrom(text, i) == (results + [text[start..end]]) + BlocksFrom(text, end);
      results := results + [text[start..end]];
      i := end;
    }
  }
}
