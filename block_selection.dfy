/**
 * How the roadmap and pitch-deck routes pick one document out of the blocks
 * `extractJSON` found: each block in turn has its line and block comments
 * removed and is trimmed, and the first one `JSON.parse` accepts is
 * taken; later blocks are never looked at.
 *
 * `JSON.parse` is a parameter, `parse`, that returns `None` where the real
 * one throws.
 */
module BlockSelection {
  import opened JsValues
  import opened JsStrings
  import opened BlockExtractor
  import opened JsonText

  /** The roadmap and pitch-deck routes clean only the fences, then trim; surrounding quotes stay. */
  function Unfenced(aiResponse: string): string
  {
    Trim(StripMarker(StripMarker(aiResponse, "```json"), "```"))
  }

  /** Index of the first line terminator in `s`, or `|s|`: where a `.*$` that starts at 0 stops. */
  function LineEnd(s: string): (r: nat)
    ensures r <= |s|
    ensures r < |s| ==> IsLineTerminator(s[r])
    ensures forall k :: 0 <= k < r ==> !IsLineTerminator(s[k])
  {
    if s == [] || IsLineTerminator(s[0]) then 0 else 1 + LineEnd(s[1..])
  }

  /**
   * `s.replace(/\/\/.*$/gm, '')`: from every `//` the scan reaches, up to the
   * next line terminator (or the end), the text is removed; the line
   * terminator itself is kept. String literals are not recognised.
   */
  function StripLineComments(s: string): string
    decreases |s|
  {
    if |s| < 2 then s
    else if s[0] == '/' && s[1] == '/' then
      var e := LineEnd(s[2..]) + 2;
      StripLineComments(s[e..])
    else [s[0]] + StripLineComments(s[1..])
  }

  /**
   * What is left has no `//` in it, and it starts with the first character
   * of `s` or with a line terminator.
   */
  lemma {:induction false} StripLineCommentsLeavesNone(s: string)
    ensures !HasPair(StripLineComments(s), '/', '/')
    ensures var r := StripLineComments(s); r == [] || r[0] == s[0] || IsLineTerminator(r[0])
    decreases |s|
  {
    var r := StripLineComments(s);
    if |s| < 2 {
    } else if s[0] == '/' && s[1] == '/' {
      var e := LineEnd(s[2..]) + 2;
      StripLineCommentsLeavesNone(s[e..]);
      if e < |s| {
        assert s[e..][0] == s[2..][e - 2];
      }
    } else {
      var t := StripLineComments(s[1..]);
      StripLineCommentsLeavesNone(s[1..]);
      assert r == [s[0]] + t;
      forall i | 0 <= i < |r| - 1
        ensures !(r[i] == '/' && r[i + 1] == '/')
      {
        if i > 0 {
          assert r[i] == t[i - 1] && r[i + 1] == t[i];
        } else if t != [] && t[0] == s[1] {
          assert s[0] != '/' || s[1] != '/';
        }
      }
    }
  }

  /** A text without `//` comes through unchanged. */
  lemma {:induction false} StripLineCommentsNoop(s: string)
    requires !HasPair(s, '/', '/')
    ensures StripLineComments(s) == s
    decreases |s|
  {
    if |s| >= 2 {
      StripLineCommentsNoop(s[1..]);
      assert s == [s[0]] + s[1..];
    }
  }

  // The first index `k >= from` where a comment's closing `*/` starts, if any.
  function CommentClose(s: string, from: nat): (r: Option<nat>)
    decreases |s| - from
    ensures r.Some? ==> from <= r.value && r.value + 1 < |s| && s[r.value] == '*' && s[r.value + 1] == '/'
    ensures r.None? ==> forall k :: from <= k < |s| - 1 ==> !(s[k] == '*' && s[k + 1] == '/')
  {
    if from + 1 >= |s| then None
    else if s[from] == '*' && s[from + 1] == '/' then Some(from)
    else CommentClose(s, from + 1)
  }

  // `s.replace(/\/\*[\s\S]*?\*\//g, '')`: every `/*` the scan reaches is
  // removed together with everything up to and including the first `*/`
  // after it. A `/*` that is never closed matches nothing, and neither can
  // any later one, so the rest of the text is kept as it is.
  function StripBlockComments(s: string): string
    decreases |s|
  {
    if |s| < 2 then s
    else if s[0] == '/' && s[1] == '*' then
      match CommentClose(s, 2)
      case Some(k) => StripBlockComments(s[k + 2..])
      case None => s
    else [s[0]] + StripBlockComments(s[1..])
  }

  // A text without `/*` comes through unchanged.
  lemma {:induction false} StripBlockCommentsNoop(s: string)
    requires !HasPair(s, '/', '*')
    ensures StripBlockComments(s) == s
    decreases |s|
  {
    if |s| >= 2 {
      StripBlockCommentsNoop(s[1..]);
      assert s == [s[0]] + s[1..];
    }
  }

  /** What each block goes through before it is parsed. */
  function StripComments(block: string): string
  {
    Trim(StripBlockComments(StripLineComments(block)))
  }

  /** A block without comment markers and without surrounding whitespace is parsed as it is. */
  lemma StripCommentsNoop(block: string)
    requires !HasPair(block, '/', '/') && !HasPair(block, '/', '*')
    requires block == [] || (!IsSpace(block[0]) && !IsSpace(block[|block| - 1]))
    ensures StripComments(block) == block
  {
    StripLineCommentsNoop(block);
    StripBlockCommentsNoop(block);
  }

  /**
   * Line comments are removed without regard to string literals: in
   * `{"u":"http://x"}` everything from the `//` of the URL to the end of the
   * line goes, closing quote and brace included.
   */
  lemma {:induction false} CommentRunsToLineEnd(a: string, b: string)
    requires !HasPair(a, '/', '/') && (a == [] || a[|a| - 1] != '/')
    requires forall k :: 0 <= k < |b| ==> !IsLineTerminator(b[k])
    ensures StripLineComments(a + "//" + b) == a
    decreases |a|
  {
    var s := a + "//" + b;
    if a == [] {
      assert s[2..] == b;
      assert s[|s|..] == [];
    } else {
      assert s[0] == a[0] && s[1] == (if |a| == 1 then '/' else a[1]);
      assert s[1..] == a[1..] + "//" + b;
      CommentRunsToLineEnd(a[1..], b);
      assert a == [a[0]] + a[1..];
    }
  }

  /**
   * The index of the first block, from `from` on, that parses once its
   * comments are stripped.
   */
  function FirstParsedFrom(blocks: seq<string>, parse: string -> Option<Json>, from: nat): (r: Option<nat>)
    decreases |blocks| - from
    ensures r.Some? ==> from <= r.value < |blocks| && parse(StripComments(blocks[r.value])).Some?
    ensures r.Some? ==> forall k :: from <= k < r.value ==> parse(StripComments(blocks[k])).None?
    ensures r.None? ==> forall k :: from <= k < |blocks| ==> parse(StripComments(blocks[k])).None?
  {
    if from >= |blocks| then None
    else if parse(StripComments(blocks[from])).Some? then Some(from)
    else FirstParsedFrom(blocks, parse, from + 1)
  }

  function FirstParsed(blocks: seq<string>, parse: string -> Option<Json>): Option<nat>
  {
    FirstParsedFrom(blocks, parse, 0)
  }

  /** The value the selection loop leaves in `parsed`: `None` stands for `null`. */
  function Selected(blocks: seq<string>, parse: string -> Option<Json>): Option<Json>
  {
    match FirstParsed(blocks, parse)
    case Some(i) => parse(StripComments(blocks[i]))
    case None => None
  }

  /**
   * Once a block parses, the blocks after it make no difference: appending
   * more blocks leaves the choice unchanged.
   */
  lemma LaterBlocksNotConsulted(blocks: seq<string>, more: seq<string>, parse: string -> Option<Json>)
    requires FirstParsed(blocks, parse).Some?
    ensures FirstParsed(blocks + more, parse) == FirstParsed(blocks, parse)
    ensures Selected(blocks + more, parse) == Selected(blocks, parse)
  {
    var i := FirstParsed(blocks, parse).value;
    var all := blocks + more;
    assert all[i] == blocks[i];
    assert forall k :: 0 <= k < i ==> all[k] == blocks[k];
    FirstParsedIs(all, parse, i);
  }

  /** The blocks are tried in order: with none parsing, nothing is selected. */
  lemma NothingParsesNothingSelected(blocks: seq<string>, parse: string -> Option<Json>)
    requires forall k :: 0 <= k < |blocks| ==> parse(StripComments(blocks[k])).None?
    ensures Selected(blocks, parse) == None
  {
  }

  /** The selection loop of both routes: the first block that parses wins. */
  method SelectBlock(blocks: seq<string>, parse: string -> Option<Json>) returns (parsed: Option<Json>)
    ensures parsed == Selected(blocks, parse)
  {
    parsed := None;
    for i := 0 to |blocks|
      invariant parsed.None?
      invariant forall k :: 0 <= k < i ==> parse(StripComments(blocks[k])).None?
    {
      var block := StripComments(blocks[i]);
      var attempt := parse(block);
      if attempt.Some? {
        parsed := attempt;
        assert FirstParsedFrom(blocks, parse, 0) == Some(i) by {
          FirstParsedIs(blocks, parse, i);
        }
        return;
      }
    }
  }

  /** The first index whose block parses is what `FirstParsed` finds. */
  lemma FirstParsedIs(blocks: seq<string>, parse: string -> Option<Json>, i: nat)
    requires i < |blocks| && parse(StripComments(blocks[i])).Some?
    requires forall k :: 0 <= k < i ==> parse(StripComments(blocks[k])).None?
    ensures FirstParsed(blocks, parse) == Some(i)
  {
  }

  /**
   * Two JSON documents in one answer, written compactly by `Render`: the
   * first one is taken, however the second one reads, provided the parser
   * reads back what `Render` wrote.
   */
  lemma FirstOfSiblingsWins(prose: string, v1: Json, mid: string, v2: Json, rest: string,
                            parse: string -> Option<Json>)
    requires (v1.JArr? || v1.JObj?) && (v2.JArr? || v2.JObj?)
    requires forall k :: 0 <= k < |prose| ==> !IsOpener(prose[k])
    requires forall k :: 0 <= k < |mid| ==> !IsOpener(mid[k])
    requires forall k :: 0 <= k < |rest| ==> !IsOpener(rest[k])
    requires !HasPair(Render(v1), '/', '/') && !HasPair(Render(v1), '/', '*')
    requires parse(Render(v1)) == Some(v1)
    ensures Selected(Blocks(prose + Render(v1) + mid + Render(v2) + rest), parse) == Some(v1)
  {
    SiblingJsonAreTwoBlocks(prose, v1, mid, v2, rest);
    RenderedIsClean(v1);
    FirstOfTwo(Render(v1), Render(v2), parse);
  }

  /** The compact text of an array or object without comment markers is parsed as it is written. */
  lemma RenderedIsClean(v: Json)
    requires v.JArr? || v.JObj?
    requires !HasPair(Render(v), '/', '/') && !HasPair(Render(v), '/', '*')
    ensures StripComments(Render(v)) == Render(v)
  {
    RenderIsWholeBlock(v);
    assert Run(Render(v), Fresh) == Closed(|Render(v)|);
    StripCommentsNoop(Render(v));
  }

  lemma FirstOfTwo(w1: string, w2: string, parse: string -> Option<Json>)
    requires parse(StripComments(w1)).Some?
    ensures Selected([w1, w2], parse) == parse(StripComments(w1))
  {
    FirstParsedIs([w1, w2], parse, 0);
  }
}
