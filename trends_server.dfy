/**
 * The trends endpoint of the server and its export check: the mapping of
 * the Google Trends answers onto `{top, rising, timeline}`, the CSV file
 * the endpoint falls back on when those answers fail, and the 400 the
 * export endpoint gives when there is nothing to export.
 */
module TrendsServer {
  import opened JsValues
  import opened JsStrings

  // ---------------------------------------------------------------------
  // String splitting
  // ---------------------------------------------------------------------

  /** `s.split(c)` for a one-character separator: always at least one piece. */
  function Split(s: string, c: char): (r: seq<string>)
    ensures |r| >= 1
    ensures forall k :: 0 <= k < |r| ==> c !in r[k]
  {
    if s == [] then [""]
    else if s[0] == c then [""] + Split(s[1..], c)
    else
      var rest := Split(s[1..], c);
      [[s[0]] + rest[0]] + rest[1..]
  }

  /** The pieces put back together with `sep` between them. */
  function Join(pieces: seq<string>, sep: string): string
  {
    if pieces == [] then ""
    else if |pieces| == 1 then pieces[0]
    else pieces[0] + sep + Join(pieces[1..], sep)
  }

  /** Splitting loses nothing: joining the pieces with the separator gives the text back. */
  lemma {:induction false} SplitJoin(s: string, c: char)
    ensures Join(Split(s, c), [c]) == s
  {
    if s != [] {
      SplitJoin(s[1..], c);
      var rest := Split(s[1..], c);
      if s[0] != c {
        if |rest| == 1 {
          assert Join(Split(s, c), [c]) == [s[0]] + rest[0];
        } else {
          assert Join(rest, [c]) == rest[0] + [c] + Join(rest[1..], [c]);
          assert Split(s, c)[1..] == rest[1..];
        }
      }
    }
  }

  /** Pieces without the separator come back from their join unchanged. */
  lemma {:induction false} JoinSplit(pieces: seq<string>, c: char)
    requires |pieces| >= 1
    requires forall k :: 0 <= k < |pieces| ==> c !in pieces[k]
    ensures Split(Join(pieces, [c]), c) == pieces
  {
    if |pieces| == 1 {
      NoSeparatorOnePiece(pieces[0], c);
    } else {
      JoinSplit(pieces[1..], c);
      SplitAfterPiece(pieces[0], Join(pieces[1..], [c]), c);
      assert Join(pieces, [c]) == pieces[0] + ([c] + Join(pieces[1..], [c]));
      assert [pieces[0]] + pieces[1..] == pieces;
    }
  }

  lemma {:induction false} NoSeparatorOnePiece(s: string, c: char)
    requires c !in s
    ensures Split(s, c) == [s]
  {
    if s != [] {
      NoSeparatorOnePiece(s[1..], c);
      assert [s[0]] + s[1..] == s;
    }
  }

  /** A separator-free head followed by the separator becomes the first piece. */
  lemma {:induction false} SplitAfterPiece(head: string, tail: string, c: char)
    requires c !in head
    ensures Split(head + ([c] + tail), c) == [head] + Split(tail, c)
  {
    var whole := head + ([c] + tail);
    if head == [] {
      assert whole[0] == c && whole[1..] == tail;
    } else {
      SplitAfterPiece(head[1..], tail, c);
      assert whole[0] == head[0] && whole[1..] == head[1..] + ([c] + tail);
      assert [head[0]] + head[1..] == head;
    }
  }

  lemma Regroup(a: string, b: string, c: string, d: string, e: string)
    ensures a + b + c + d + e == a + (b + (c + (d + e)))
  {
  }

  // ---------------------------------------------------------------------
  // The CSV fallback
  // ---------------------------------------------------------------------

  /** A carriage return at the end of a piece, removed. */
  function DropCr(s: string): (r: string)
    ensures r == s || (s == r + "\r")
  {
    if s != [] && s[|s| - 1] == '\r' then s[..|s| - 1] else s
  }

  /**
   * `csv.split(/\r?\n/)`: the text cut at every line feed, with a carriage
   * return right before a line feed taken as part of the separator.
   */
  function Lines(csv: string): (r: seq<string>)
    ensures |r| == |Split(csv, '\n')|
  {
    var pieces := Split(csv, '\n');
    seq(|pieces|, k requires 0 <= k < |pieces| => if k < |pieces| - 1 then DropCr(pieces[k]) else pieces[k])
  }

  /** Lines without line breaks, joined with `\n` or with `\r\n`, come back unchanged. */
  lemma LinesRoundTrip(ls: seq<string>)
    requires |ls| >= 1
    requires forall k :: 0 <= k < |ls| ==> '\n' !in ls[k] && '\r' !in ls[k]
    ensures Lines(Join(ls, "\n")) == ls
    ensures Lines(Join(CrEnded(ls), "\n")) == ls
  {
    LfLinesRoundTrip(ls);
    CrLfLinesRoundTrip(ls);
  }

  lemma LfLinesRoundTrip(ls: seq<string>)
    requires |ls| >= 1
    requires forall k :: 0 <= k < |ls| ==> '\n' !in ls[k] && '\r' !in ls[k]
    ensures Lines(Join(ls, "\n")) == ls
  {
    assert "\n" == ['\n'];
    JoinSplit(ls, '\n');
    var r := Lines(Join(ls, "\n"));
    forall k | 0 <= k < |ls| ensures r[k] == ls[k] {
      if k < |ls| - 1 {
        assert |ls[k]| == 0 || ls[k][|ls[k]| - 1] != '\r';
      }
    }
  }

  lemma CrLfLinesRoundTrip(ls: seq<string>)
    requires |ls| >= 1
    requires forall k :: 0 <= k < |ls| ==> '\n' !in ls[k] && '\r' !in ls[k]
    ensures Lines(Join(CrEnded(ls), "\n")) == ls
  {
    assert "\n" == ['\n'];
    var crs := CrEnded(ls);
    JoinSplit(crs, '\n');
    var r := Lines(Join(crs, "\n"));
    forall k | 0 <= k < |ls| ensures r[k] == ls[k] {
      if k < |ls| - 1 {
        assert crs[k] == ls[k] + "\r";
        assert (ls[k] + "\r")[..|ls[k]|] == ls[k];
      }
    }
  }

  /** Every line but the last followed by a carriage return: joined with `\n`, the `\r\n` form. */
  function CrEnded(ls: seq<string>): (r: seq<string>)
    requires |ls| >= 1
    ensures |r| == |ls| && r[|ls| - 1] == ls[|ls| - 1]
    ensures forall k :: 0 <= k < |ls| - 1 ==> r[k] == ls[k] + "\r"
  {
    seq(|ls|, k requires 0 <= k < |ls| => if k < |ls| - 1 then ls[k] + "\r" else ls[k])
  }

  const TopHeader := "TOP"
  const RisingHeader := "RISING"

  /** The state of the parser: which list the data lines go to. */
  datatype Section = NoSection | TopSection | RisingSection

  /** The section a line switches to, when its trimmed text is a header. */
  function Header(line: string): (r: Option<Section>)
    ensures r.Some? ==> r.value != NoSection
  {
    if Trim(line) == TopHeader then Some(TopSection)
    else if Trim(line) == RisingHeader then Some(RisingSection)
    else None
  }

  /** An entry of either list: the trimmed first and second comma fields. */
  datatype CsvTrend = CsvTrend(name: string, value: string)

  /**
   * `const [name, value] = line.split(',')` and `if (name && value)`: an
   * entry when both fields exist and are non-empty before trimming.
   */
  function Entry(line: string): (r: Option<CsvTrend>)
  {
    var fields := Split(line, ',');
    if fields[0] != "" && |fields| > 1 && fields[1] != "" then Some(CsvTrend(Trim(fields[0]), Trim(fields[1])))
    else None
  }

  /** A line is an entry exactly when it holds a comma with text on both sides of the first one. */
  lemma EntryOfFields(name: string, value: string)
    requires ',' !in name && ',' !in value
    ensures Entry(name + "," + value) == (if name != "" && value != "" then Some(CsvTrend(Trim(name), Trim(value))) else None)
  {
    NoSeparatorOnePiece(value, ',');
    SplitAfterPiece(name, value, ',');
    assert name + "," + value == name + ([','] + value);
  }

  /** Fields after the second are ignored. */
  lemma ExtraFieldsIgnored(name: string, value: string, rest: string)
    requires ',' !in name && ',' !in value
    ensures Entry(name + "," + value + "," + rest) == Entry(name + "," + value)
  {
    TwoFields(name, value);
    ThreeFields(name, value, rest);
  }

  lemma TwoFields(name: string, value: string)
    requires ',' !in name && ',' !in value
    ensures Split(name + "," + value, ',') == [name, value]
  {
    NoSeparatorOnePiece(value, ',');
    SplitAfterPiece(name, value, ',');
    assert name + "," + value == name + ([','] + value);
  }

  lemma ThreeFields(name: string, value: string, rest: string)
    requires ',' !in name && ',' !in value
    ensures Split(name + "," + value + "," + rest, ',') == [name, value] + Split(rest, ',')
  {
    var comma := [','];
    assert "," == comma;
    Regroup(name, comma, value, comma, rest);
    SplitAfterPiece(value, rest, ',');
    SplitAfterPiece(name, value + (comma + rest), ',');
  }

  /** A line with no comma is never an entry. */
  lemma NoCommaNoEntry(line: string)
    requires ',' !in line
    ensures Entry(line) == None
  {
    NoSeparatorOnePiece(line, ',');
  }

  /** What the parser has read so far. */
  datatype CsvState = CsvState(section: Section, top: seq<CsvTrend>, rising: seq<CsvTrend>)

  /** One pass of the loop body. */
  function Step(st: CsvState, line: string): (r: CsvState)
    ensures st.top <= r.top && st.rising <= r.rising
    ensures |r.top| + |r.rising| <= |st.top| + |st.rising| + 1
  {
    match Header(line)
    case Some(s) => st.(section := s)
    case None =>
      if st.section == TopSection && Trim(line) != "" && Entry(line).Some? then st.(top := st.top + [Entry(line).value])
      else if st.section == RisingSection && Trim(line) != "" && Entry(line).Some? then st.(rising := st.rising + [Entry(line).value])
      else st
  }

  /** The parser after reading `lines`, from no section and two empty lists. */
  function Run(lines: seq<string>): CsvState
  {
    if lines == [] then CsvState(NoSection, [], [])
    else Step(Run(lines[..|lines| - 1]), lines[|lines| - 1])
  }

  /**
   * The fallback parser of the trends endpoint over the file's text: the
   * `for (const line of lines)` loop with its `section` variable.
   */
  method ParseCsv(csv: string) returns (top: seq<CsvTrend>, rising: seq<CsvTrend>)
    ensures top == Run(Lines(csv)).top && rising == Run(Lines(csv)).rising
  {
    var lines := Lines(csv);
    var section := NoSection;
    top := [];
    rising := [];
    for i := 0 to |lines|
      invariant CsvState(section, top, rising) == Run(lines[..i])
    {
      var line := lines[i];
      assert lines[..i + 1][..i] == lines[..i];
      if Trim(line) == TopHeader {
        section := TopSection;
        continue;
      }
      if Trim(line) == RisingHeader {
        section := RisingSection;
        continue;
      }
      if section == TopSection && Trim(line) != "" {
        var entry := Entry(line);
        if entry.Some? {
          top := top + [entry.value];
        }
      }
      if section == RisingSection && Trim(line) != "" {
        var entry := Entry(line);
        if entry.Some? {
          rising := rising + [entry.value];
        }
      }
    }
    assert lines[..|lines|] == lines;
  }

  /** The section in force after `lines`: that of the last header among them. */
  function SectionAfter(lines: seq<string>): Section
  {
    if lines == [] then NoSection
    else if Header(lines[|lines| - 1]).Some? then Header(lines[|lines| - 1]).value
    else SectionAfter(lines[..|lines| - 1])
  }

  /** Only a header changes the section. */
  lemma StepSection(st: CsvState, line: string)
    ensures Step(st, line).section == if Header(line).Some? then Header(line).value else st.section
  {
  }

  /** The parser's section is the one of the last header read. */
  lemma {:induction false} RunSection(lines: seq<string>)
    ensures Run(lines).section == SectionAfter(lines)
  {
    if lines != [] {
      var n := |lines| - 1;
      RunSection(lines[..n]);
      StepSection(Run(lines[..n]), lines[n]);
    }
  }

  /** Line `i` is a data line of section `s`: no header, an entry, and `s` in force before it. */
  predicate EmittedAt(lines: seq<string>, i: nat, s: Section)
    requires i < |lines|
  {
    Header(lines[i]).None? && Entry(lines[i]).Some? && SectionAfter(lines[..i]) == s
  }

  /** The list of a section. */
  function ListOf(st: CsvState, s: Section): seq<CsvTrend>
  {
    if s == TopSection then st.top else if s == RisingSection then st.rising else []
  }

  /** A first part of a first part. */
  lemma SlicePrefix<T>(xs: seq<T>, n: nat, i: nat)
    requires i <= n <= |xs|
    ensures xs[..n][..i] == xs[..i]
    ensures i < n ==> xs[..n][i] == xs[i]
  {
  }

  /** One line adds to a list exactly its entry, when it is a data line read in that list's section. */
  lemma StepList(st: CsvState, line: string, s: Section)
    requires s != NoSection
    ensures ListOf(Step(st, line), s) ==
      ListOf(st, s) + (if Header(line).None? && st.section == s && Entry(line).Some? then [Entry(line).value] else [])
  {
    if Trim(line) == "" {
      BlankHasNoComma(line);
      NoCommaNoEntry(line);
    }
  }

  /** Every entry of a list comes from a data line read while that list's section was in force. */
  lemma {:induction false} EntriesComeFromDataLines(lines: seq<string>, s: Section)
    requires s != NoSection
    ensures forall e :: e in ListOf(Run(lines), s) ==>
      exists i :: 0 <= i < |lines| && EmittedAt(lines, i, s) && Entry(lines[i]) == Some(e)
  {
    if lines != [] {
      var n := |lines| - 1;
      var init := lines[..n];
      EntriesComeFromDataLines(init, s);
      RunSection(init);
      StepList(Run(init), lines[n], s);
      forall e | e in ListOf(Run(lines), s)
        ensures exists i :: 0 <= i < |lines| && EmittedAt(lines, i, s) && Entry(lines[i]) == Some(e)
      {
        if e in ListOf(Run(init), s) {
          var i :| 0 <= i < n && EmittedAt(init, i, s) && Entry(init[i]) == Some(e);
          SlicePrefix(lines, n, i);
          assert EmittedAt(lines, i, s);
        } else {
          assert EmittedAt(lines, n, s) && Entry(lines[n]) == Some(e);
        }
      }
    }
  }

  /** Every data line read while a list's section was in force gives an entry of that list. */
  lemma {:induction false} DataLinesAreEntries(lines: seq<string>, s: Section)
    requires s != NoSection
    ensures forall i :: 0 <= i < |lines| && EmittedAt(lines, i, s) ==> Entry(lines[i]).value in ListOf(Run(lines), s)
  {
    if lines != [] {
      var n := |lines| - 1;
      var init := lines[..n];
      DataLinesAreEntries(init, s);
      RunSection(init);
      StepList(Run(init), lines[n], s);
      var before := ListOf(Run(init), s);
      var after := ListOf(Run(lines), s);
      assert before <= after;
      forall i | 0 <= i < |lines| && EmittedAt(lines, i, s)
        ensures Entry(lines[i]).value in after
      {
        if i < n {
          SlicePrefix(lines, n, i);
          assert EmittedAt(init, i, s);
          assert Entry(lines[i]).value in before;
        } else {
          assert after == before + [Entry(lines[n]).value];
        }
      }
    }
  }

  /** A line whose trimmed text is empty is all whitespace, so it holds no comma. */
  lemma BlankHasNoComma(line: string)
    requires Trim(line) == ""
    ensures ',' !in line
  {
    var t := TrimStart(line);
    TrimEndDropsSpaces(t);
    assert t == [];
    TrimStartDropsSpaces(line);
    assert forall i :: 0 <= i < |line| ==> IsSpace(line[i]);
  }

  /** A header line emits nothing; it only switches the section. */
  lemma HeaderEmitsNothing(st: CsvState, line: string)
    requires Header(line).Some?
    ensures Step(st, line) == CsvState(Header(line).value, st.top, st.rising)
  {
  }

  /** Data lines before the first header, and blank lines anywhere, change nothing. */
  lemma NothingOutsideASection(st: CsvState, line: string)
    requires st.section == NoSection || Trim(line) == ""
    ensures Step(st, line).top == st.top && Step(st, line).rising == st.rising
  {
  }

  /** Without any header line, both lists stay empty. */
  lemma {:induction false} NoHeaderNoEntries(lines: seq<string>)
    requires forall i :: 0 <= i < |lines| ==> Header(lines[i]).None?
    ensures Run(lines) == CsvState(NoSection, [], [])
  {
    if lines != [] {
      NoHeaderNoEntries(lines[..|lines| - 1]);
    }
  }

  /**
   * The lists only grow, in file order: what was read from a first part of
   * the file stays at the front, also when a later header returns to an
   * earlier section.
   */
  lemma {:induction false} ListsOnlyGrow(lines: seq<string>, i: nat)
    requires i <= |lines|
    ensures Run(lines[..i]).top <= Run(lines).top
    ensures Run(lines[..i]).rising <= Run(lines).rising
    decreases |lines| - i
  {
    if i < |lines| {
      ListsOnlyGrow(lines, i + 1);
      assert lines[..i + 1][..i] == lines[..i];
      var st := Run(lines[..i]);
      var next := Step(st, lines[i]);
      assert Run(lines[..i + 1]) == next;
    } else {
      assert lines[..i] == lines;
    }
  }

  // ---------------------------------------------------------------------
  // The live answers
  // ---------------------------------------------------------------------

  /** `v?.key`: `undefined` when `v` is `undefined` or `null`. */
  function Chain(v: Option<Json>, key: string): (r: Option<Json>)
    ensures v.None? || v == Some(JNull) ==> r.None?
    ensures v.Some? && v.value.JObj? ==> r == Lookup(v.value.fields, key)
  {
    if v.None? || v.value.JNull? then None else Prop(v.value, key)
  }

  /** `v?.[k]`: an array element, an object member named by the digits, or a one-character string. */
  function ChainIndex(v: Option<Json>, k: nat): (r: Option<Json>)
    ensures v.Some? && v.value.JArr? ==> (r.Some? <==> k < |v.value.items|)
    ensures v.Some? && v.value.JArr? && k < |v.value.items| ==> r == Some(v.value.items[k])
  {
    if v.None? then None
    else match v.value
      case JArr(items) => if k < |items| then Some(items[k]) else None
      case JObj(fields) => Lookup(fields, NatToString(k))
      case JStr(s) => if k < |s| then Some(JStr([s[k]])) else None
      case _ => None
  }

  /** An entry of a live list; either member may be missing. */
  datatype LiveTrend = LiveTrend(name: Option<Json>, value: Option<Json>)

  /** A point of the timeline. */
  datatype TimePoint = TimePoint(time: Option<Json>, value: Json)

  datatype TrendsResult = TrendsResult(top: seq<LiveTrend>, rising: seq<LiveTrend>, timeline: seq<TimePoint>)

  /** `{ name: item.query, value: item.value }`; reading from `null` throws. */
  function TopItem(item: Json): Attempt<LiveTrend>
  {
    if item.JNull? then Threw else Ok(LiveTrend(Prop(item, "query"), Prop(item, "value")))
  }

  /** `{ name: item.query, value: item.formattedValue || item.value }`. */
  function RisingItem(item: Json): Attempt<LiveTrend>
  {
    if item.JNull? then Threw
    else Ok(LiveTrend(Prop(item, "query"), Or(Prop(item, "formattedValue"), Prop(item, "value"))))
  }

  /** `{ time: point.formattedTime, value: point.value?.[0] || 0 }`. */
  function TimelinePoint(point: Json): Attempt<TimePoint>
  {
    if point.JNull? then Threw
    else Ok(TimePoint(Prop(point, "formattedTime"), OrDefaultZero(ChainIndex(Prop(point, "value"), 0))))
  }

  /** `v || 0`. */
  function OrDefaultZero(v: Option<Json>): (r: Json)
    ensures Truthy(v) ==> Some(r) == v
    ensures !Truthy(v) ==> r == JNum(0)
  {
    if Truthy(v) then v.value else JNum(0)
  }

  /**
   * `list?.map(f) || []`: a missing list (`undefined` or `null`) gives `[]`;
   * a list that is not an array has no `map`, and calling it throws.
   */
  function MapOrEmpty<T>(list: Option<Json>, f: Json -> Attempt<T>): (r: Attempt<seq<T>>)
    ensures list.None? || list == Some(JNull) ==> r == Ok([])
    ensures list.Some? && !list.value.JNull? && !list.value.JArr? ==> r.Threw?
    ensures IsArray(list) ==> r == MapAttempt(list.value.items, f)
  {
    if list.None? || list.value.JNull? then Ok([])
    else if list.value.JArr? then MapAttempt(list.value.items, f)
    else Threw
  }

  /** `queriesData.default?.rankedList?.[k]?.rankedKeyword`. */
  function Ranked(queries: Json, k: nat): Option<Json>
    requires !queries.JNull?
  {
    Chain(ChainIndex(Chain(Prop(queries, "default"), "rankedList"), k), "rankedKeyword")
  }

  /** `timeData.default?.timelineData`. */
  function TimelineData(time: Json): Option<Json>
    requires !time.JNull?
  {
    Chain(Prop(time, "default"), "timelineData")
  }

  /**
   * The three lists the endpoint sends back from the parsed answers;
   * `Threw` sends it to the CSV fallback.
   */
  function LiveTrends(queries: Json, time: Json): (r: Attempt<TrendsResult>)
    ensures queries.JNull? || time.JNull? ==> r.Threw?
    ensures r.Ok? ==> Ok(r.value.top) == MapOrEmpty(Ranked(queries, 0), TopItem)
    ensures r.Ok? ==> Ok(r.value.rising) == MapOrEmpty(Ranked(queries, 1), RisingItem)
    ensures r.Ok? ==> Ok(r.value.timeline) == MapOrEmpty(TimelineData(time), TimelinePoint)
  {
    if queries.JNull? || time.JNull? then Threw
    else
      var top := MapOrEmpty(Ranked(queries, 0), TopItem);
      var rising := MapOrEmpty(Ranked(queries, 1), RisingItem);
      var timeline := MapOrEmpty(TimelineData(time), TimelinePoint);
      if top.Threw? || rising.Threw? || timeline.Threw? then Threw
      else Ok(TrendsResult(top.value, rising.value, timeline.value))
  }

  /**
   * A rising value is the formatted value when that is truthy and the raw
   * value otherwise; top values are always the raw value.
   */
  lemma RisingPrefersFormatted(items: seq<Json>)
    requires MapAttempt(items, RisingItem).Ok?
    ensures forall k :: 0 <= k < |items| ==>
      (!items[k].JNull? &&
       MapAttempt(items, RisingItem).value[k].value ==
         (if Truthy(Prop(items[k], "formattedValue")) then Prop(items[k], "formattedValue") else Prop(items[k], "value")))
  {
  }

  /** A timeline value is never falsy other than `0`: a missing or falsy first value becomes `0`. */
  lemma TimelineValues(points: seq<Json>)
    requires MapAttempt(points, TimelinePoint).Ok?
    ensures forall k :: 0 <= k < |points| ==>
      var v := MapAttempt(points, TimelinePoint).value[k].value;
      Truthy(Some(v)) || v == JNum(0)
  {
  }

  /** An answer without `default` gives three empty lists. */
  lemma NoDefaultNoTrends(queries: seq<(string, Json)>, time: seq<(string, Json)>)
    requires Lookup(queries, "default") == None && Lookup(time, "default") == None
    ensures LiveTrends(JObj(queries), JObj(time)) == Ok(TrendsResult([], [], []))
  {
  }

  /** A `null` entry in a present list throws, and the endpoint falls back on the file. */
  lemma NullItemThrows(items: seq<Json>, k: nat)
    requires k < |items| && items[k] == JNull
    ensures MapAttempt(items, TopItem).Threw? && MapAttempt(items, RisingItem).Threw?
  {
    assert TopItem(items[k]).Threw? && RisingItem(items[k]).Threw?;
  }

  /** What `GET /api/trends` sends. */
  datatype TrendsReply =
    | Live(trends: TrendsResult)
    | FromFile(top: seq<CsvTrend>, rising: seq<CsvTrend>)
    | TrendsFailed(status: int)

  /**
   * The endpoint: `None` for an upstream call or a `JSON.parse` that threw,
   * and for a file that could not be read.
   */
  function TrendsResponse(queries: Option<Json>, time: Option<Json>, csv: Option<string>): (r: TrendsReply)
    ensures r.Live? <==> queries.Some? && time.Some? && LiveTrends(queries.value, time.value).Ok?
    ensures r.FromFile? ==> csv.Some? && r.top == Run(Lines(csv.value)).top && r.rising == Run(Lines(csv.value)).rising
    ensures r.TrendsFailed? <==> csv.None? && !r.Live?
    ensures r.TrendsFailed? ==> r.status == 500
  {
    if queries.Some? && time.Some? && LiveTrends(queries.value, time.value).Ok? then
      Live(LiveTrends(queries.value, time.value).value)
    else if csv.Some? then
      var st := Run(Lines(csv.value));
      FromFile(st.top, st.rising)
    else TrendsFailed(500)
  }

  // ---------------------------------------------------------------------
  // Export
  // ---------------------------------------------------------------------

  datatype ExportCheck = Rejected(status: int) | Accepted(ideas: seq<Json>)

  /** `POST /api/export` before the PDF is laid out: `ideas` must be a non-empty array. */
  function CheckExport(body: Json): (r: ExportCheck)
    ensures r.Rejected? <==> !IsArray(Prop(body, "ideas")) || Prop(body, "ideas").value.items == []
    ensures r.Rejected? ==> r.status == 400
    ensures r.Accepted? ==> Prop(body, "ideas") == Some(JArr(r.ideas)) && |r.ideas| > 0
  {
    var ideas := Prop(body, "ideas");
    if !IsArray(ideas) || |ideas.value.items| == 0 then Rejected(400) else Accepted(ideas.value.items)
  }
}
