/**
 * JSON texts as a completion writes them: any JSON whitespace around the
 * tokens (pretty-printed or not) and any backslash escape inside string
 * literals. Every such array or object, embedded in prose, is one block
 * of `extractJSON`; the compact `Render` of `JsonText` is one layout among
 * them.
 */
module JsonLayout {
  import opened JsValues
  import opened JsStrings
  import opened BlockExtractor
  import opened JsonText

  /** JSON's insignificant whitespace: space, tab, line feed and carriage return. */
  predicate IsJsonSpace(c: char)
  {
    c == ' ' || c == '\t' || c == '\n' || c == '\r'
  }

  predicate Spaces(s: string)
  {
    forall i :: 0 <= i < |s| ==> IsJsonSpace(s[i])
  }

  /** One character of a string literal: written as itself, or as a backslash and the next character. */
  datatype LitChar = Raw(c: char) | Escaped(c: char)

  /**
   * A JSON text token by token. `Token` is a number, `true`, `false` or
   * `null`; `inner` is the whitespace between the brackets of an empty
   * array or object.
   */
  datatype Layout =
    | Token(word: string)
    | Str(chars: seq<LitChar>)
    | Arr(items: seq<Padded>, inner: string)
    | Obj(pairs: seq<Pair>, inner: string)

  /** A value with the whitespace before and after it. */
  datatype Padded = Padded(before: string, value: Layout, after: string)

  /** An object member: whitespace, the quoted name, whitespace, then `:` and the padded value. */
  datatype Pair = Pair(before: string, name: seq<LitChar>, gap: string, value: Padded)

  function LitCharText(x: LitChar): string
  {
    match x
    case Raw(c) => [c]
    case Escaped(c) => ['\\', c]
  }

  function Chars(cs: seq<LitChar>): string
  {
    if cs == [] then [] else LitCharText(cs[0]) + Chars(cs[1..])
  }

  function Quoted(cs: seq<LitChar>): string
  {
    "\"" + Chars(cs) + "\""
  }

  /** The characters of a layout. */
  function TextOf(t: Layout): string
    decreases t
  {
    match t
    case Token(word) => word
    case Str(cs) => Quoted(cs)
    case Arr(items, inner) => "[" + (if items == [] then inner else PaddedList(items)) + "]"
    case Obj(pairs, inner) => "{" + (if pairs == [] then inner else PairList(pairs)) + "}"
  }

  function PaddedText(p: Padded): string
    decreases p
  {
    p.before + TextOf(p.value) + p.after
  }

  /** Array elements, separated by commas. */
  function PaddedList(ps: seq<Padded>): string
    decreases ps
  {
    if |ps| == 0 then ""
    else if |ps| == 1 then PaddedText(ps[0])
    else PaddedText(ps[0]) + "," + PaddedList(ps[1..])
  }

  function PairText(m: Pair): string
    decreases m
  {
    m.before + Quoted(m.name) + m.gap + ":" + PaddedText(m.value)
  }

  /** Object members, separated by commas. */
  function PairList(ms: seq<Pair>): string
    decreases ms
  {
    if |ms| == 0 then ""
    else if |ms| == 1 then PairText(ms[0])
    else PairText(ms[0]) + "," + PairList(ms[1..])
  }

  /** A raw literal character is neither `"` nor `\`; an escape may take any character. */
  predicate GoodChars(cs: seq<LitChar>)
  {
    forall i :: 0 <= i < |cs| ==> cs[i].Raw? ==> cs[i].c != '"' && cs[i].c != '\\'
  }

  /**
   * What the scan needs of a JSON text: whitespace only where JSON allows
   * it, literals closed by their own quote, and tokens made of characters
   * that are not brackets, quotes or backslashes.
   */
  predicate WellFormed(t: Layout)
    decreases t
  {
    match t
    case Token(word) => word != [] && forall i :: 0 <= i < |word| ==> Plain(word[i])
    case Str(cs) => GoodChars(cs)
    case Arr(items, inner) => Spaces(inner) && forall i :: 0 <= i < |items| ==> WellPadded(items[i])
    case Obj(pairs, inner) => Spaces(inner) && forall i :: 0 <= i < |pairs| ==> WellPaired(pairs[i])
  }

  predicate WellPadded(p: Padded)
    decreases p
  {
    Spaces(p.before) && Spaces(p.after) && WellFormed(p.value)
  }

  predicate WellPaired(m: Pair)
    decreases m
  {
    Spaces(m.before) && GoodChars(m.name) && Spaces(m.gap) && WellPadded(m.value)
  }

  // ---------------------------------------------------------------------
  // The scan over a layout
  // ---------------------------------------------------------------------

  /** Whitespace is passed over. */
  lemma SpacesRun(s: string, st: ScanState)
    requires Spaces(s) && !st.escapeNext
    ensures Run(s, st) == Open(st)
  {
    PlainRun(s, st);
  }

  /** Two stretches the scan passes over, one after the other. */
  lemma Joined(x: string, y: string, st: ScanState)
    requires Run(x, st) == Open(st) && Run(y, st) == Open(st)
    ensures Run(x + y, st) == Open(st)
  {
    RunConcat(x, y, st);
  }

  /** Inside a literal, its characters never end the block and leave the state as it was. */
  lemma {:induction false} CharsRun(cs: seq<LitChar>, st: ScanState)
    requires GoodChars(cs)
    requires st.inString && !st.escapeNext
    ensures Run(Chars(cs), st) == Open(st)
    decreases |cs|
  {
    if cs != [] {
      var e := LitCharText(cs[0]);
      if cs[0].Escaped? {
        assert Step(st, e[0]) == (st.(escapeNext := true), false);
        assert Step(st.(escapeNext := true), e[1]) == (st, false);
        assert e[1..][1..] == [];
        assert Run(e[1..], st.(escapeNext := true)) == Open(st);
      } else {
        assert Step(st, e[0]) == (st, false);
        assert e[1..] == [];
      }
      assert Run(e, st) == Open(st);
      assert GoodChars(cs[1..]) by {
        forall i | 0 <= i < |cs[1..]| ensures cs[1..][i].Raw? ==> cs[1..][i].c != '"' && cs[1..][i].c != '\\' {
          assert cs[1..][i] == cs[i + 1];
        }
      }
      CharsRun(cs[1..], st);
      RunConcat(e, Chars(cs[1..]), st);
    }
  }

  /** A string literal, whatever it holds, is passed over whole. */
  lemma QuotedRun(cs: seq<LitChar>, st: ScanState)
    requires GoodChars(cs)
    requires !st.inString && !st.escapeNext
    ensures Run(Quoted(cs), st) == Open(st)
  {
    var inside := st.(inString := true);
    assert Run("\"", st) == Open(inside) by {
      assert Step(st, '"') == (inside, false);
    }
    assert Run("\"", inside) == Open(st) by {
      assert Step(inside, '"') == (st, false);
    }
    CharsRun(cs, inside);
    RunConcat("\"", Chars(cs), st);
    RunConcat("\"" + Chars(cs), "\"", st);
  }

  /**
   * Scanning a well-formed layout at depth `b`, `c`: an array or object
   * that starts at depth zero ends the block exactly at its closing
   * character; otherwise the scan comes out in the state it went in with.
   */
  lemma {:induction false} LayoutRun(t: Layout, b: int, c: int)
    requires WellFormed(t) && b >= 0 && c >= 0
    ensures Run(TextOf(t), Depth(b, c)) ==
      if b == 0 && c == 0 && (t.Arr? || t.Obj?) then Closed(|TextOf(t)|) else Open(Depth(b, c))
    decreases t, 1
  {
    match t
    case Token(word) =>
      PlainRun(word, Depth(b, c));
    case Str(cs) =>
      QuotedRun(cs, Depth(b, c));
    case Arr(_, _) =>
      ArrRun(t, b, c);
    case Obj(_, _) =>
      ObjRun(t, b, c);
  }

  /** An array: one level deeper between its brackets. */
  lemma {:induction false} ArrRun(t: Layout, b: int, c: int)
    requires t.Arr? && WellFormed(t) && b >= 0 && c >= 0
    ensures Run(TextOf(t), Depth(b, c)) == if b == 0 && c == 0 then Closed(|TextOf(t)|) else Open(Depth(b, c))
    decreases t, 0
  {
    var body := if t.items == [] then t.inner else PaddedList(t.items);
    if t.items == [] {
      SpacesRun(t.inner, Depth(b + 1, c));
    } else {
      PaddedListRun(t.items, b + 1, c);
    }
    assert TextOf(t) == ['['] + body + [']'];
    Enclosed(body, '[', ']', b, c, Depth(b + 1, c));
  }

  /** An object: one level deeper between its braces. */
  lemma {:induction false} ObjRun(t: Layout, b: int, c: int)
    requires t.Obj? && WellFormed(t) && b >= 0 && c >= 0
    ensures Run(TextOf(t), Depth(b, c)) == if b == 0 && c == 0 then Closed(|TextOf(t)|) else Open(Depth(b, c))
    decreases t, 0
  {
    var body := if t.pairs == [] then t.inner else PairList(t.pairs);
    if t.pairs == [] {
      SpacesRun(t.inner, Depth(b, c + 1));
    } else {
      PairListRun(t.pairs, b, c + 1);
    }
    assert TextOf(t) == ['{'] + body + ['}'];
    Enclosed(body, '{', '}', b, c, Depth(b, c + 1));
  }

  /** A padded value, scanned at a depth that is not zero. */
  lemma {:induction false} PaddedRun(p: Padded, b: int, c: int)
    requires WellPadded(p) && b >= 0 && c >= 0 && b + c > 0
    ensures Run(PaddedText(p), Depth(b, c)) == Open(Depth(b, c))
    decreases p
  {
    SpacesRun(p.before, Depth(b, c));
    LayoutRun(p.value, b, c);
    SpacesRun(p.after, Depth(b, c));
    Joined(p.before, TextOf(p.value), Depth(b, c));
    Joined(p.before + TextOf(p.value), p.after, Depth(b, c));
  }

  /** Array elements, scanned at a depth that is not zero. */
  lemma {:induction false} PaddedListRun(ps: seq<Padded>, b: int, c: int)
    requires forall i :: 0 <= i < |ps| ==> WellPadded(ps[i])
    requires b >= 0 && c >= 0 && b + c > 0
    ensures Run(PaddedList(ps), Depth(b, c)) == Open(Depth(b, c))
    decreases ps
  {
    if |ps| == 1 {
      PaddedRun(ps[0], b, c);
    } else if |ps| > 1 {
      PaddedRun(ps[0], b, c);
      assert forall i :: 0 <= i < |ps[1..]| ==> ps[1..][i] == ps[i + 1];
      PaddedListRun(ps[1..], b, c);
      Separated(PaddedText(ps[0]), ',', PaddedList(ps[1..]), Depth(b, c));
    }
  }

  /** One object member, scanned at a depth that is not zero. */
  lemma {:induction false} PairRun(m: Pair, b: int, c: int)
    requires WellPaired(m) && b >= 0 && c >= 0 && b + c > 0
    ensures Run(PairText(m), Depth(b, c)) == Open(Depth(b, c))
    decreases m
  {
    var st := Depth(b, c);
    SpacesRun(m.before, st);
    QuotedRun(m.name, st);
    SpacesRun(m.gap, st);
    PaddedRun(m.value, b, c);
    Joined(m.before, Quoted(m.name), st);
    Joined(m.before + Quoted(m.name), m.gap, st);
    Separated(m.before + Quoted(m.name) + m.gap, ':', PaddedText(m.value), st);
  }

  /** Object members, scanned at a depth that is not zero. */
  lemma {:induction false} PairListRun(ms: seq<Pair>, b: int, c: int)
    requires forall i :: 0 <= i < |ms| ==> WellPaired(ms[i])
    requires b >= 0 && c >= 0 && b + c > 0
    ensures Run(PairList(ms), Depth(b, c)) == Open(Depth(b, c))
    decreases ms
  {
    if |ms| == 1 {
      PairRun(ms[0], b, c);
    } else if |ms| > 1 {
      PairRun(ms[0], b, c);
      assert forall i :: 0 <= i < |ms[1..]| ==> ms[1..][i] == ms[i + 1];
      PairListRun(ms[1..], b, c);
      Separated(PairText(ms[0]), ',', PairList(ms[1..]), Depth(b, c));
    }
  }

  // ---------------------------------------------------------------------
  // What extractJSON returns
  // ---------------------------------------------------------------------

  /** Every well-formed array or object, however it is laid out, is one whole block. */
  lemma LayoutIsWholeBlock(t: Layout)
    requires WellFormed(t) && (t.Arr? || t.Obj?)
    ensures WholeBlock(TextOf(t))
  {
    LayoutRun(t, 0, 0);
    assert TextOf(t)[0] == if t.Arr? then '[' else '{';
  }

  /**
   * A JSON array or object, in any layout, embedded in prose that holds no
   * `[` or `{` is returned as exactly one block, equal to its text.
   */
  lemma EmbeddedTextIsOneBlock(prose: string, t: Layout, rest: string)
    requires WellFormed(t) && (t.Arr? || t.Obj?)
    requires forall k :: 0 <= k < |prose| ==> !IsOpener(prose[k])
    requires forall k :: 0 <= k < |rest| ==> !IsOpener(rest[k])
    ensures Blocks(prose + TextOf(t) + rest) == [TextOf(t)]
  {
    LayoutIsWholeBlock(t);
    OneBlock(prose, TextOf(t), rest);
  }

  /** Two JSON texts, in any layout, separated by prose come back as two blocks, in order. */
  lemma SiblingTextsAreTwoBlocks(prose: string, t1: Layout, mid: string, t2: Layout, rest: string)
    requires WellFormed(t1) && (t1.Arr? || t1.Obj?) && WellFormed(t2) && (t2.Arr? || t2.Obj?)
    requires forall k :: 0 <= k < |prose| ==> !IsOpener(prose[k])
    requires forall k :: 0 <= k < |mid| ==> !IsOpener(mid[k])
    requires forall k :: 0 <= k < |rest| ==> !IsOpener(rest[k])
    ensures Blocks(prose + TextOf(t1) + mid + TextOf(t2) + rest) == [TextOf(t1), TextOf(t2)]
  {
    LayoutIsWholeBlock(t1);
    LayoutIsWholeBlock(t2);
    TwoBlocks(prose, TextOf(t1), mid, TextOf(t2), rest);
  }

  // ---------------------------------------------------------------------
  // The compact text is one layout
  // ---------------------------------------------------------------------

  /** String contents as literal characters, escaping `"` and `\` and nothing else. */
  function LitChars(s: string): (r: seq<LitChar>)
    ensures |r| == |s| && GoodChars(r) && Chars(r) == Escape(s)
  {
    if s == [] then []
    else
      var x := if s[0] == '"' || s[0] == '\\' then Escaped(s[0]) else Raw(s[0]);
      var r := [x] + LitChars(s[1..]);
      assert r[0] == x && r[1..] == LitChars(s[1..]);
      r
  }

  /** The layout with no whitespace at all, the one `Render` writes. */
  function Compact(v: Json): Layout
    decreases v
  {
    match v
    case JStr(s) => Str(LitChars(s))
    case JArr(items) => Arr(CompactItems(items), "")
    case JObj(fields) => Obj(CompactPairs(fields), "")
    case _ => Token(Render(v))
  }

  function CompactItems(items: seq<Json>): seq<Padded>
    decreases items
  {
    if items == [] then [] else [Padded("", Compact(items[0]), "")] + CompactItems(items[1..])
  }

  function CompactPairs(fields: seq<(string, Json)>): seq<Pair>
    decreases fields
  {
    if fields == [] then []
    else [CompactPair(fields[0])] + CompactPairs(fields[1..])
  }

  function CompactPair(field: (string, Json)): Pair
    decreases field
  {
    Pair("", LitChars(field.0), "", Padded("", Compact(field.1), ""))
  }

  /**
   * The compact layout of a value is well formed and its text is
   * `Render(v)`: the results of `JsonText` about rendered values are the
   * whitespace-free case of the ones below.
   */
  lemma {:induction false} CompactIsRender(v: Json)
    ensures WellFormed(Compact(v)) && TextOf(Compact(v)) == Render(v)
    decreases v
  {
    match v
    case JStr(s) =>
    case JArr(items) =>
      CompactItemsText(items);
    case JObj(fields) =>
      CompactPairsText(fields);
    case JNull =>
      ScalarPlain(v);
    case JBool(_) =>
      ScalarPlain(v);
    case JNum(n) =>
      ScalarPlain(v);
      var digits := NatToString(if n < 0 then -n else n);
      assert Render(v) == if n < 0 then ['-'] + digits else digits;
  }

  lemma {:induction false} CompactItemsText(items: seq<Json>)
    ensures |CompactItems(items)| == |items|
    ensures forall i :: 0 <= i < |items| ==> WellPadded(CompactItems(items)[i])
    ensures PaddedList(CompactItems(items)) == Items(items)
    decreases items
  {
    if items != [] {
      var ps := CompactItems(items);
      CompactIsRender(items[0]);
      CompactItemsText(items[1..]);
      assert ps[0] == Padded("", Compact(items[0]), "") && ps[1..] == CompactItems(items[1..]);
      assert PaddedText(ps[0]) == Render(items[0]);
      forall i | 0 <= i < |items| ensures WellPadded(ps[i]) {
        if i > 0 {
          assert ps[i] == ps[1..][i - 1];
        }
      }
    }
  }

  lemma {:induction false} CompactPairsText(fields: seq<(string, Json)>)
    ensures |CompactPairs(fields)| == |fields|
    ensures forall i :: 0 <= i < |fields| ==> WellPaired(CompactPairs(fields)[i])
    ensures PairList(CompactPairs(fields)) == Members(fields)
    decreases fields
  {
    if fields != [] {
      var ms := CompactPairs(fields);
      CompactPairText(fields[0]);
      CompactPairsText(fields[1..]);
      assert ms[0] == CompactPair(fields[0]);
      assert ms[1..] == CompactPairs(fields[1..]);
      assert PairText(ms[0]) == Member(fields[0]);
      forall i | 0 <= i < |fields| ensures WellPaired(ms[i]) {
        if i > 0 {
          assert ms[i] == ms[1..][i - 1];
        }
      }
    }
  }

  lemma {:induction false} CompactPairText(field: (string, Json))
    ensures WellPaired(CompactPair(field)) && PairText(CompactPair(field)) == Member(field)
    decreases field
  {
    var m := CompactPair(field);
    CompactIsRender(field.1);
    assert PaddedText(m.value) == Render(field.1);
    assert Quoted(m.name) == Quote(field.0);
    assert PairText(m) == Quote(field.0) + ":" + Render(field.1);
  }

  /** The pretty-printed object `{\n  "a": [1, 2]\n}`. */
  const Pretty := Obj([Pair("\n  ", [Raw('a')], "",
                            Padded(" ", Arr([Padded("", Token("1"), ""), Padded(" ", Token("2"), "")], ""), "\n"))], "")

  /** `Pretty` spells `{\n  "a": [1, 2]\n}`. */
  lemma PrettyText()
    ensures TextOf(Pretty) == "{\n  \"a\": [1, 2]\n}"
  {
    var arr := Pretty.pairs[0].value.value;
    assert TextOf(arr) == "[1, 2]";
    assert PairText(Pretty.pairs[0]) == "\n  \"a\": " + "[1, 2]" + "\n";
  }

  /** A pretty-printed answer between two lines of prose is returned whole. */
  lemma PrettyPrintedExample()
    ensures TextOf(Pretty) == "{\n  \"a\": [1, 2]\n}"
    ensures Blocks("Here it is:\n" + TextOf(Pretty) + "\nDone.") == [TextOf(Pretty)]
  {
    var prose := "Here it is:\n";
    var rest := "\nDone.";
    PrettyText();
    assert forall k :: 0 <= k < |prose| ==> !IsOpener(prose[k]);
    assert forall k :: 0 <= k < |rest| ==> !IsOpener(rest[k]);
    assert WellFormed(Pretty);
    EmbeddedTextIsOneBlock(prose, Pretty, rest);
  }
}
