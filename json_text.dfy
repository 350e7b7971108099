/**
 * A compact JSON text for every `Json` value, and what `extractJSON` does with
 * such text: a well-formed array or object embedded in prose is returned as
 * exactly one block, whatever brackets its string literals contain.
 */
module JsonText {
  import opened JsValues
  import opened JsStrings
  import opened BlockExtractor

  function EscapeChar(c: char): string
  {
    if c == '"' || c == '\\' then ['\\', c] else [c]
  }

  /** String contents with `"` and `\` escaped by a backslash. */
  function Escape(s: string): string
  {
    if s == [] then [] else EscapeChar(s[0]) + Escape(s[1..])
  }

  function Quote(s: string): string
  {
    "\"" + Escape(s) + "\""
  }

  /** The JSON text of a value, without insignificant whitespace. */
  function Render(v: Json): string
    decreases v
  {
    match v
    case JNull => "null"
    case JBool(b) => if b then "true" else "false"
    case JNum(n) => if n < 0 then "-" + NatToString(-n) else NatToString(n)
    case JStr(s) => Quote(s)
    case JArr(items) => "[" + Items(items) + "]"
    case JObj(fields) => "{" + Members(fields) + "}"
  }

  /** The elements of an array, separated by commas. */
  function Items(items: seq<Json>): string
    decreases items
  {
    if |items| == 0 then ""
    else if |items| == 1 then Render(items[0])
    else Render(items[0]) + "," + Items(items[1..])
  }

  /** One object member: its quoted name, a colon and its value. */
  function Member(field: (string, Json)): string
    decreases field
  {
    Quote(field.0) + ":" + Render(field.1)
  }

  /** The members of an object, separated by commas. */
  function Members(fields: seq<(string, Json)>): string
    decreases fields
  {
    if |fields| == 0 then ""
    else if |fields| == 1 then Member(fields[0])
    else Member(fields[0]) + "," + Members(fields[1..])
  }

  /** `w` occurs in `text` at index `j`. */
  predicate At(text: string, j: nat, w: string)
  {
    j + |w| <= |text| && text[j..j + |w|] == w
  }

  /** Characters the scanner passes over without any effect outside a literal. */
  predicate Plain(c: char)
  {
    !IsOpener(c) && !IsCloser(c) && c != '"' && c != '\\'
  }

  /** The scan state between the members of a container nested `b` brackets and `c` braces deep. */
  function Depth(b: int, c: int): ScanState
  {
    ScanState(b, c, false, false)
  }

  lemma {:induction false} PlainRun(w: string, st: ScanState)
    requires !st.escapeNext
    requires forall i :: 0 <= i < |w| ==> Plain(w[i])
    ensures Run(w, st) == Open(st)
    decreases |w|
  {
    if w != [] {
      assert Step(st, w[0]) == (st, false);
      PlainRun(w[1..], st);
    }
  }

  /** Inside a literal, escaped contents never end the block and leave the state as it was. */
  lemma {:induction false} EscapeRun(s: string, st: ScanState)
    requires st.inString && !st.escapeNext
    ensures Run(Escape(s), st) == Open(st)
    decreases |s|
  {
    if s != [] {
      var e := EscapeChar(s[0]);
      if s[0] == '"' || s[0] == '\\' {
        assert Step(st, e[0]) == (st.(escapeNext := true), false);
        assert Step(st.(escapeNext := true), e[1]) == (st, false);
        assert e[1..][1..] == [];
        assert Run(e[1..], st.(escapeNext := true)) == Open(st);
      } else {
        assert Step(st, e[0]) == (st, false);
        assert e[1..] == [];
      }
      assert Run(e, st) == Open(st);
      RunConcat(e, Escape(s[1..]), st);
      EscapeRun(s[1..], st);
    }
  }

  /** A quoted string is passed over as a whole, brackets in it included. */
  lemma QuoteRun(s: string, st: ScanState)
    requires !st.inString && !st.escapeNext
    ensures Run(Quote(s), st) == Open(st)
  {
    var inside := st.(inString := true);
    assert Run("\"", st) == Open(inside) by {
      assert Step(st, '"') == (inside, false);
    }
    assert Run("\"", inside) == Open(st) by {
      assert Step(inside, '"') == (st, false);
    }
    EscapeRun(s, inside);
    RunConcat("\"", Escape(s), st);
    RunConcat("\"" + Escape(s), "\"", st);
  }

  lemma ScalarPlain(v: Json)
    requires !v.JStr? && !v.JArr? && !v.JObj?
    ensures forall i :: 0 <= i < |Render(v)| ==> Plain(Render(v)[i])
  {
    match v
    case JNull =>
      assert Render(v) == ['n', 'u', 'l', 'l'];
    case JBool(b) =>
      assert Render(v) == if b then ['t', 'r', 'u', 'e'] else ['f', 'a', 'l', 's', 'e'];
    case JNum(n) =>
      var digits := NatToString(if n < 0 then -n else n);
      assert Render(v) == if n < 0 then ['-'] + digits else digits;
  }

  /**
   * An opening character, a stretch the scan passes over one level deeper,
   * and the matching closing character: the block ends at the closing
   * character exactly when the opening one was at depth zero.
   */
  lemma Enclosed(inner: string, opener: char, closer: char, b: int, c: int, deeper: ScanState)
    requires Step(Depth(b, c), opener) == (deeper, false)
    requires Run(inner, deeper) == Open(deeper)
    requires Step(deeper, closer) == (Depth(b, c), b == 0 && c == 0)
    ensures Run([opener] + inner + [closer], Depth(b, c)) ==
      if b == 0 && c == 0 then Closed(|inner| + 2) else Open(Depth(b, c))
  {
    RunConcat([opener], inner, Depth(b, c));
    RunConcat([opener] + inner, [closer], Depth(b, c));
  }

  /** The separator between two stretches the scan passes over. */
  lemma Separated(x: string, sep: char, y: string, st: ScanState)
    requires Plain(sep) && !st.escapeNext
    requires Run(x, st) == Open(st) && Run(y, st) == Open(st)
    ensures Run(x + [sep] + y, st) == Open(st)
  {
    assert Step(st, sep) == (st, false);
    assert Run([sep], st) == Open(st);
    RunConcat(x, [sep], st);
    RunConcat(x + [sep], y, st);
  }

  /**
   * Scanning the text of `v` at depth `b`, `c`: an array or object that
   * starts at depth zero ends the block exactly at its closing character; at
   * any other depth, and for every scalar, the scan comes out of the value in
   * the state it went in with.
   */
  lemma {:induction false} RenderRun(v: Json, b: int, c: int)
    requires b >= 0 && c >= 0
    ensures Run(Render(v), Depth(b, c)) ==
      if b == 0 && c == 0 && (v.JArr? || v.JObj?) then Closed(|Render(v)|) else Open(Depth(b, c))
    decreases v
  {
    match v
    case JStr(s) =>
      QuoteRun(s, Depth(b, c));
    case JArr(items) =>
      ItemsRun(items, b + 1, c);
      assert Render(v) == ['['] + Items(items) + [']'];
      Enclosed(Items(items), '[', ']', b, c, Depth(b + 1, c));
    case JObj(fields) =>
      MembersRun(fields, b, c + 1);
      assert Render(v) == ['{'] + Members(fields) + ['}'];
      Enclosed(Members(fields), '{', '}', b, c, Depth(b, c + 1));
    case _ =>
      ScalarPlain(v);
      PlainRun(Render(v), Depth(b, c));
  }

  /** The elements of an array, scanned at a depth that is not zero. */
  lemma {:induction false} ItemsRun(items: seq<Json>, b: int, c: int)
    requires b >= 0 && c >= 0 && b + c > 0
    ensures Run(Items(items), Depth(b, c)) == Open(Depth(b, c))
    decreases items
  {
    if |items| == 1 {
      RenderRun(items[0], b, c);
    } else if |items| > 1 {
      RenderRun(items[0], b, c);
      ItemsRun(items[1..], b, c);
      Separated(Render(items[0]), ',', Items(items[1..]), Depth(b, c));
    }
  }

  /** One member of an object, scanned at a depth that is not zero. */
  lemma {:induction false} MemberRun(field: (string, Json), b: int, c: int)
    requires b >= 0 && c >= 0 && b + c > 0
    ensures Run(Member(field), Depth(b, c)) == Open(Depth(b, c))
    decreases field, 0
  {
    QuoteRun(field.0, Depth(b, c));
    RenderRun(field.1, b, c);
    Separated(Quote(field.0), ':', Render(field.1), Depth(b, c));
  }

  /** The members of an object, scanned at a depth that is not zero. */
  lemma {:induction false} MembersRun(fields: seq<(string, Json)>, b: int, c: int)
    requires b >= 0 && c >= 0 && b + c > 0
    ensures Run(Members(fields), Depth(b, c)) == Open(Depth(b, c))
    decreases fields
  {
    if |fields| == 1 {
      MemberRun(fields[0], b, c);
    } else if |fields| > 1 {
      MemberRun(fields[0], b, c);
      MembersRun(fields[1..], b, c);
      Separated(Member(fields[0]), ',', Members(fields[1..]), Depth(b, c));
    }
  }

  /**
   * A text the scan takes as one whole block: it starts with an opener, and
   * the scan from that opener ends exactly at its last character.
   */
  predicate WholeBlock(w: string)
  {
    |w| > 0 && IsOpener(w[0]) && Run(w, Fresh) == Closed(|w|)
  }

  /**
   * The compact text of every array and object (no whitespace between
   * tokens, only `\"` and `\\` escapes) is one whole block, whatever its
   * string literals hold. Any other layout is covered by `JsonLayout`.
   */
  lemma RenderIsWholeBlock(v: Json)
    requires v.JArr? || v.JObj?
    ensures WholeBlock(Render(v))
  {
    RenderRun(v, 0, 0);
    assert Render(v)[0] == if v.JArr? then '[' else '{';
  }

  /** A whole block sitting at `p` ends where its text ends. */
  lemma WholeBlockEnd(text: string, p: nat, w: string)
    requires WholeBlock(w) && At(text, p, w)
    ensures BlockEnd(text, p, Fresh) == Some(p + |w|)
  {
    assert text[p..] == w + text[p + |w|..];
    RunConcat(w, text[p + |w|..], Fresh);
    BlockEndRun(text, p, Fresh);
  }

  /**
   * When the first opener the scan meets from `i` begins a whole block, that
   * block is the next one found.
   */
  lemma NextBlockIs(text: string, i: nat, p: nat, w: string)
    requires WholeBlock(w)
    requires i <= p && At(text, p, w)
    requires forall k :: i <= k < p ==> !IsOpener(text[k])
    ensures p + |w| <= |text|
    ensures BlocksFrom(text, i) == [w] + BlocksFrom(text, p + |w|)
  {
    assert text[p] == w[0] by {
      assert text[p] == text[p..p + |w|][0];
    }
    NextOpenerAt(text, i, p);
    WholeBlockEnd(text, p, w);
    BlocksFromStep(text, i, p, p + |w|);
  }

  /** A stretch of `text` that spells out `w`, which holds no opener, holds no opener. */
  lemma Quiet(text: string, lo: nat, w: string)
    requires At(text, lo, w)
    requires forall k :: 0 <= k < |w| ==> !IsOpener(w[k])
    ensures forall k :: lo <= k < lo + |w| ==> !IsOpener(text[k])
  {
    forall k | lo <= k < lo + |w|
      ensures !IsOpener(text[k])
    {
      assert text[k] == w[k - lo];
    }
  }

  /** From `i`, quiet text, one whole block at `p`, and quiet text to the end: that block is all the scan finds. */
  lemma LastBlock(text: string, i: nat, p: nat, w: string)
    requires WholeBlock(w)
    requires i <= p && At(text, p, w)
    requires forall k :: i <= k < p ==> !IsOpener(text[k])
    requires forall k :: p + |w| <= k < |text| ==> !IsOpener(text[k])
    ensures BlocksFrom(text, i) == [w]
  {
    NextBlockIs(text, i, p, w);
    BlocksFromStop(text, p + |w|);
    assert [w] + [] == [w];
  }

  /** Prose without openers around one whole block, of any layout: exactly that block is found. */
  lemma OneBlock(prose: string, w: string, rest: string)
    requires WholeBlock(w)
    requires forall k :: 0 <= k < |prose| ==> !IsOpener(prose[k])
    requires forall k :: 0 <= k < |rest| ==> !IsOpener(rest[k])
    ensures Blocks(prose + w + rest) == [w]
  {
    var text := prose + w + rest;
    var e := |prose| + |w|;
    assert At(text, 0, prose) && At(text, |prose|, w) && At(text, e, rest);
    Quiet(text, 0, prose);
    Quiet(text, e, rest);
    LastBlock(text, 0, |prose|, w);
  }

  /** Quiet text, a whole block at `p1`, quiet text, a whole block at `p2`, and quiet text to the end. */
  lemma TwoBlocksAt(text: string, p1: nat, w1: string, p2: nat, w2: string)
    requires WholeBlock(w1) && WholeBlock(w2)
    requires At(text, p1, w1) && p1 + |w1| <= p2 && At(text, p2, w2)
    requires forall k :: 0 <= k < p1 ==> !IsOpener(text[k])
    requires forall k :: p1 + |w1| <= k < p2 ==> !IsOpener(text[k])
    requires forall k :: p2 + |w2| <= k < |text| ==> !IsOpener(text[k])
    ensures BlocksFrom(text, 0) == [w1, w2]
  {
    LastBlock(text, p1 + |w1|, p2, w2);
    var rest := BlocksFrom(text, p1 + |w1|);
    assert [w1] + rest == [w1, w2];
    NextBlockIs(text, 0, p1, w1);
  }

  /** Prose without openers around two whole blocks, of any layout: exactly those blocks are found, in order. */
  lemma TwoBlocks(prose: string, w1: string, mid: string, w2: string, rest: string)
    requires WholeBlock(w1) && WholeBlock(w2)
    requires forall k :: 0 <= k < |prose| ==> !IsOpener(prose[k])
    requires forall k :: 0 <= k < |mid| ==> !IsOpener(mid[k])
    requires forall k :: 0 <= k < |rest| ==> !IsOpener(rest[k])
    ensures Blocks(prose + w1 + mid + w2 + rest) == [w1, w2]
  {
    var text := prose + w1 + mid + w2 + rest;
    var e1 := |prose| + |w1|;
    var s2 := e1 + |mid|;
    assert At(text, 0, prose) && At(text, |prose|, w1) && At(text, e1, mid);
    assert At(text, s2, w2) && At(text, s2 + |w2|, rest);
    Quiet(text, 0, prose);
    Quiet(text, e1, mid);
    Quiet(text, s2 + |w2|, rest);
    TwoBlocksAt(text, |prose|, w1, s2, w2);
  }

  /**
   * The compact text of a JSON array or object, embedded in prose that
   * holds no `[` or `{`, is returned as exactly one block, equal to that
   * text. `JsonLayout.EmbeddedTextIsOneBlock` states it for any layout.
   */
  lemma EmbeddedJsonIsOneBlock(prose: string, v: Json, rest: string)
    requires v.JArr? || v.JObj?
    requires forall k :: 0 <= k < |prose| ==> !IsOpener(prose[k])
    requires forall k :: 0 <= k < |rest| ==> !IsOpener(rest[k])
    ensures Blocks(prose + Render(v) + rest) == [Render(v)]
  {
    RenderIsWholeBlock(v);
    OneBlock(prose, Render(v), rest);
  }

  /**
   * The compact texts of two sibling values, separated by prose, are
   * returned as two blocks, in order (`JsonLayout.SiblingTextsAreTwoBlocks`
   * for any layout).
   */
  lemma SiblingJsonAreTwoBlocks(prose: string, v1: Json, mid: string, v2: Json, rest: string)
    requires (v1.JArr? || v1.JObj?) && (v2.JArr? || v2.JObj?)
    requires forall k :: 0 <= k < |prose| ==> !IsOpener(prose[k])
    requires forall k :: 0 <= k < |mid| ==> !IsOpener(mid[k])
    requires forall k :: 0 <= k < |rest| ==> !IsOpener(rest[k])
    ensures Blocks(prose + Render(v1) + mid + Render(v2) + rest) == [Render(v1), Render(v2)]
  {
    RenderIsWholeBlock(v1);
    RenderIsWholeBlock(v2);
    TwoBlocks(prose, Render(v1), mid, Render(v2), rest);
  }

  /** A bracket inside a string value neither splits nor cuts the block short. */
  lemma BracketInLiteralExample()
    ensures Blocks("Sure! " + Render(JObj([("note", JStr("[x]"))])) + " done")
         == [Render(JObj([("note", JStr("[x]"))]))]
  {
    var prose := "Sure! ";
    var rest := " done";
    assert forall k :: 0 <= k < |prose| ==> !IsOpener(prose[k]);
    assert forall k :: 0 <= k < |rest| ==> !IsOpener(rest[k]);
    EmbeddedJsonIsOneBlock(prose, JObj([("note", JStr("[x]"))]), rest);
  }
}
