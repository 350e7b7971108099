/**
 * The idea-list path of `POST /api/ai/generate-idea`: the completion text is
 * cleaned of code fences and surrounding quotes, the first `[` is looked
 * up, its closing bracket is found by plain bracket counting, a truncated
 * array is closed after its last `}`, the slice is parsed, and every idea
 * has its field names mapped onto the names the front end reads. Anything
 * that throws on the way turns the list into one "Parsing Error"
 * placeholder.
 *
 * `JSON.parse` is the parameter `parse`; `None` stands for a throw.
 */
module IdeaList {
  import opened JsValues
  import opened JsStrings
  import opened BlockExtractor

  // ---------------------------------------------------------------------
  // Cleaning
  // ---------------------------------------------------------------------

  predicate IsQuote(c: char) { c == '"' || c == '\'' }

  /** `s.replace(/^["']+/g, '')`. */
  function DropLeadingQuotes(s: string): (r: string)
    ensures |r| <= |s| && r == s[|s| - |r|..]
    ensures r == [] || !IsQuote(r[0])
    ensures forall i :: 0 <= i < |s| - |r| ==> IsQuote(s[i])
  {
    if s != [] && IsQuote(s[0]) then DropLeadingQuotes(s[1..]) else s
  }

  /** `s.replace(/["']+$/g, '')`: the longest run of quotes at the end goes. */
  function DropTrailingQuotes(s: string): (r: string)
    ensures |r| <= |s| && r == s[..|r|]
    ensures r == [] || !IsQuote(r[|r| - 1])
    ensures forall i :: |r| <= i < |s| ==> IsQuote(s[i])
  {
    if s != [] && IsQuote(s[|s| - 1]) then DropTrailingQuotes(s[..|s| - 1]) else s
  }

  /** The two markers removed first: an opening ```` ```json ```` fence, then any other fence. */
  const JsonFence := "```json"
  const Fence := "```"

  /** The cleaning chain applied to the completion text. */
  function Clean(aiResponse: string): string
  {
    Trim(DropTrailingQuotes(DropLeadingQuotes(StripMarker(StripMarker(aiResponse, JsonFence), Fence))))
  }

  /** A body that needs no cleaning: no backtick, no quote or space at either end. */
  predicate Tidy(body: string)
  {
    && body != []
    && (forall k :: 0 <= k < |body| ==> body[k] != '`')
    && !IsSpace(body[0]) && !IsQuote(body[0])
    && !IsSpace(body[|body| - 1]) && !IsQuote(body[|body| - 1])
  }

  /** The quote and whitespace steps leave a tidy body alone, and drop one line break after it. */
  lemma TidyEnds(body: string)
    requires Tidy(body)
    ensures Trim(DropTrailingQuotes(DropLeadingQuotes(body))) == body
    ensures Trim(DropTrailingQuotes(DropLeadingQuotes(body + "\n"))) == body
  {
    KeptWhole(body);
    var once := body + "\n";
    assert once[0] == body[0] && once[|once| - 1] == '\n';
    NoLeadingQuote(once);
    NoTrailingQuote(once);
    NoLeadingSpace(once);
    assert once[..|once| - 1] == body;
    assert TrimEnd(once) == TrimEnd(body);
  }

  /** A tidy body passes each quote and whitespace step unchanged. */
  lemma KeptWhole(body: string)
    requires Tidy(body)
    ensures DropTrailingQuotes(DropLeadingQuotes(body)) == body && Trim(body) == body
  {
    NoLeadingQuote(body);
    NoTrailingQuote(body);
    NoLeadingSpace(body);
    assert TrimEnd(body) == body;
  }

  lemma NoLeadingQuote(s: string)
    requires s != [] && !IsQuote(s[0])
    ensures DropLeadingQuotes(s) == s
  {
  }

  lemma NoTrailingQuote(s: string)
    requires s != [] && !IsQuote(s[|s| - 1])
    ensures DropTrailingQuotes(s) == s
  {
  }

  lemma NoLeadingSpace(s: string)
    requires s != [] && !IsSpace(s[0])
    ensures TrimStart(s) == s
  {
  }

  /** The first replace removes the opening fence and the line break after it. */
  lemma OpeningFenceGoes(body: string)
    requires Tidy(body)
    ensures StripMarker(JsonFence + "\n" + body + "\n" + Fence, JsonFence) == body + "\n" + Fence
  {
    FenceOpened(body);
    FencedBodyKept(body);
  }

  /** The opening fence goes together with the line break after it, as `\s*` takes it. */
  lemma FenceOpened(body: string)
    requires Tidy(body)
    ensures StripMarker(JsonFence + "\n" + body + "\n" + Fence, JsonFence) == StripMarker(body + "\n" + Fence, JsonFence)
  {
    var inner := body + "\n" + Fence;
    assert JsonFence + "\n" + body + "\n" + Fence == JsonFence + ("\n" + inner);
    StripMarkerAt(JsonFence, "\n" + inner);
    LineBreakTrimmed(inner);
  }

  lemma LineBreakTrimmed(inner: string)
    requires inner != [] && !IsSpace(inner[0])
    ensures TrimStart("\n" + inner) == inner
  {
    assert ("\n" + inner)[1..] == inner;
    NoLeadingSpace(inner);
  }

  /** Neither the body nor the closing fence holds an opening fence. */
  lemma FencedBodyKept(body: string)
    requires Tidy(body)
    ensures StripMarker(body + "\n" + Fence, JsonFence) == body + "\n" + Fence
  {
    assert body + "\n" + Fence == body + ("\n" + Fence);
    StripMarkerKeeps(body, "\n" + Fence, JsonFence);
    StripMarkerShort("\n" + Fence, JsonFence);
  }

  /** The second replace removes the closing fence. */
  lemma ClosingFenceGoes(body: string)
    requires Tidy(body)
    ensures StripMarker(body + "\n" + Fence, Fence) == body + "\n"
  {
    assert body + "\n" + Fence == body + ("\n" + Fence);
    StripMarkerKeeps(body, "\n" + Fence, Fence);
    StripMarkerKeeps("\n", Fence, Fence);
    assert StripMarker(Fence, Fence) == [] by {
      assert Fence[|Fence|..] == [];
    }
    assert "\n" + [] == "\n";
  }

  /** Cleaning gives back a tidy body, both bare and wrapped in a ```` ```json ```` fence. */
  lemma FenceRoundTrip(body: string)
    requires Tidy(body)
    ensures Clean(body) == body
    ensures Clean(JsonFence + "\n" + body + "\n" + Fence) == body
  {
    TidyEnds(body);
    StripMarkerKeeps(body, [], JsonFence);
    StripMarkerKeeps(body, [], Fence);
    assert body + [] == body;
    OpeningFenceGoes(body);
    ClosingFenceGoes(body);
  }

  // ---------------------------------------------------------------------
  // The first array
  // ---------------------------------------------------------------------

  function BracketDelta(c: char): int
  {
    if c == '[' then 1 else if c == ']' then -1 else 0
  }

  /** The number of `[` in `t` minus the number of `]`. */
  function Balance(t: string): int
    decreases |t|
  {
    if t == [] then 0 else Balance(t[..|t| - 1]) + BracketDelta(t[|t| - 1])
  }

  /**
   * The first end `j`, from `j` on, at which the brackets counted from
   * `start` balance: the reference for the counting loop, which does not
   * know about string literals.
   */
  function FirstBalanced(s: string, start: nat, j: nat): (r: Option<nat>)
    requires start < j <= |s| + 1
    decreases |s| + 1 - j
    ensures r.Some? ==> j <= r.value <= |s| && Balance(s[start..r.value]) == 0
    ensures r.Some? ==> forall e :: j <= e < r.value ==> Balance(s[start..e]) != 0
    ensures r.None? ==> forall e :: j <= e <= |s| ==> Balance(s[start..e]) != 0
  {
    if j > |s| then None
    else if Balance(s[start..j]) == 0 then Some(j)
    else FirstBalanced(s, start, j + 1)
  }

  /** Where the counting loop puts `firstArrayEnd` for an array opened at `start`. */
  function ArrayEnd(s: string, start: nat): Option<nat>
    requires start < |s|
  {
    FirstBalanced(s, start, start + 1)
  }

  /**
   * The counting loop of the route (`-1` when the brackets never balance):
   * the end is the first point after `start` at which as many `]` as `[`
   * have been seen.
   */
  method FindArrayEnd(s: string, start: nat) returns (end: int)
    requires start < |s| && s[start] == '['
    ensures end == -1 || end > start
    ensures end == -1 <==> ArrayEnd(s, start).None?
    ensures end != -1 ==> ArrayEnd(s, start) == Some(end as nat)
  {
    var bracketCount := 0;
    end := -1;
    var i := start;
    while i < |s|
      invariant start <= i <= |s|
      invariant bracketCount == Balance(s[start..i])
      invariant i > start ==> bracketCount >= 1
      invariant forall e :: start < e <= i ==> Balance(s[start..e]) != 0
      decreases |s| - i
    {
      assert Balance(s[start..i + 1]) == Balance(s[start..i]) + BracketDelta(s[i]) by {
        assert s[start..i + 1][..i - start] == s[start..i];
      }
      if s[i] == '[' {
        bracketCount := bracketCount + 1;
      }
      if s[i] == ']' {
        bracketCount := bracketCount - 1;
        if bracketCount == 0 {
          end := i + 1;
          assert FirstBalanced(s, start, i + 1) == Some(i + 1);
          FirstBalancedFrom(s, start, start + 1, i + 1);
          return;
        }
      }
      i := i + 1;
    }
    FirstBalancedNone(s, start, start + 1);
  }

  /** When nothing balances in `[j, e)`, the search from `j` is the search from `e`. */
  lemma {:induction false} FirstBalancedFrom(s: string, start: nat, j: nat, e: nat)
    requires start < j <= e <= |s| + 1
    requires forall x :: j <= x < e ==> Balance(s[start..x]) != 0
    ensures FirstBalanced(s, start, j) == FirstBalanced(s, start, e)
    decreases e - j
  {
    if j < e {
      FirstBalancedFrom(s, start, j + 1, e);
    }
  }

  lemma FirstBalancedNone(s: string, start: nat, j: nat)
    requires start < j <= |s| + 1
    requires forall x :: j <= x <= |s| ==> Balance(s[start..x]) != 0
    ensures FirstBalanced(s, start, j).None?
  {
    FirstBalancedFrom(s, start, j, |s| + 1);
  }

  /**
   * The counting loop ignores string literals where `extractJSON` does not:
   * on `["]"]` it stops after `["]`, while the literal-aware scan takes the
   * whole text.
   */
  lemma CountingIgnoresLiterals()
    ensures ArrayEnd("[\"]\"]", 0) == Some(3)
    ensures BlockEnd("[\"]\"]", 0, Fresh) == Some(5)
  {
    var s := "[\"]\"]";
    assert Balance(s[0..1]) == 1 by { assert s[0..1][..0] == []; }
    assert Balance(s[0..2]) == 1 by { assert s[0..2][..1] == s[0..1]; }
    assert Balance(s[0..3]) == 0 by { assert s[0..3][..2] == s[0..2]; }
  }

  // ---------------------------------------------------------------------
  // Truncation repair and the slice that is parsed
  // ---------------------------------------------------------------------

  /**
   * The text from `start` on, cut after its last `}` and closed with a new
   * line and `]`; a throw when there is no `}`.
   */
  function Repair(clean: string, start: nat): (r: Attempt<string>)
    requires start <= |clean|
    ensures r.Ok? ==> |r.value| >= 3 && r.value[|r.value| - 2..] == "\n]"
  {
    var truncated := clean[start..];
    match LastIndexOf(truncated, '}')
    case None => Threw
    case Some(last) => Ok(truncated[..last + 1] + "\n]")
  }

  /** JavaScript's `s.substring(a, b)`: both ends clamped to the text, swapped when reversed. */
  function Substring(s: string, a: nat, b: nat): (r: string)
    ensures var lo := if a <= b then a else b; var hi := if a <= b then b else a;
            (lo <= |s| ==> r == s[lo..if hi <= |s| then hi else |s|]) && (lo > |s| ==> r == [])
  {
    var lo := if a <= b then a else b;
    var hi := if a <= b then b else a;
    var lo' := if lo <= |s| then lo else |s|;
    var hi' := if hi <= |s| then hi else |s|;
    s[lo'..hi']
  }

  /**
   * The slice the route hands to `JSON.parse`, as written: after a repair,
   * `cleanResponse` holds the repaired array but is sliced from the old
   * `firstArrayStart`.
   */
  function FirstArrayAsWritten(clean: string): Attempt<string>
  {
    match IndexOf(clean, '[', 0)
    case None => Threw
    case Some(start) =>
      match ArrayEnd(clean, start)
      case Some(end) => Ok(clean[start..end])
      case None =>
        match Repair(clean, start)
        case Threw => Threw
        case Ok(repaired) => Ok(Substring(repaired, start, |repaired|))
  }

  /** The slice with the repaired array taken whole, as the repair evidently means. */
  function FirstArray(clean: string): Attempt<string>
  {
    match IndexOf(clean, '[', 0)
    case None => Threw
    case Some(start) =>
      match ArrayEnd(clean, start)
      case Some(end) => Ok(clean[start..end])
      case None => Repair(clean, start)
  }

  /**
   * The two agree except on the repair path, and there exactly when the
   * array does not start the cleaned text: the written slice then loses its
   * first `firstArrayStart` characters, opening bracket included.
   */
  lemma AsWrittenDiffersOnlyAfterRepair(clean: string)
    ensures FirstArrayAsWritten(clean) != FirstArray(clean) <==>
      && IndexOf(clean, '[', 0).Some?
      && var start := IndexOf(clean, '[', 0).value;
      && ArrayEnd(clean, start).None?
      && Repair(clean, start).Ok?
      && start > 0
  {
    var ix := IndexOf(clean, '[', 0);
    if ix.Some? && ArrayEnd(clean, ix.value).None? && Repair(clean, ix.value).Ok? {
      var start := ix.value;
      var repaired := Repair(clean, start).value;
      var cut := Substring(repaired, start, |repaired|);
      assert FirstArrayAsWritten(clean) == Ok(cut);
      assert FirstArray(clean) == Ok(repaired);
      if start == 0 {
        assert cut == repaired[0..|repaired|] == repaired;
      } else {
        assert |cut| < |repaired|;
      }
    }
  }

  /** `x[{}` (an array cut off after one object): the slice starts at `{`, so it cannot parse as an array. */
  lemma RepairSliceCounterexample()
    ensures FirstArray("x[{}") == Ok("[{}\n]")
    ensures FirstArrayAsWritten("x[{}") == Ok("{}\n]")
  {
    var s := "x[{}";
    assert IndexOf(s, '[', 0) == Some(1);
    assert Balance(s[1..2]) == 1 by { assert s[1..2][..0] == []; }
    assert Balance(s[1..3]) == 1 by { assert s[1..3][..1] == s[1..2]; }
    assert Balance(s[1..4]) == 1 by { assert s[1..4][..2] == s[1..3]; }
    assert FirstBalanced(s, 1, 4) == None;
    assert FirstBalanced(s, 1, 3) == None;
    assert ArrayEnd(s, 1) == None;
    var truncated := s[1..];
    assert truncated == "[{}";
    assert LastIndexOf(truncated, '}') == Some(2);
    assert truncated[..3] == "[{}";
    var repaired := "[{}" + "\n]";
    assert Repair(s, 1) == Ok(repaired);
    assert repaired == "[{}\n]";
    assert FirstArray(s) == Ok(repaired);
    assert Substring(repaired, 1, 5) == repaired[1..5] == "{}\n]";
    assert FirstArrayAsWritten(s) == Ok("{}\n]");
  }

  /** No `]` in `t`: its balance is never negative, and at least one when it opens with `[`. */
  lemma {:induction false} BalanceNoCloser(t: string)
    requires forall k :: 0 <= k < |t| ==> t[k] != ']'
    ensures Balance(t) >= 0
    ensures t != [] && t[0] == '[' ==> Balance(t) >= 1
    decreases |t|
  {
    if t != [] {
      BalanceNoCloser(t[..|t| - 1]);
      if |t| > 1 {
        assert t[..|t| - 1][0] == t[0];
      }
    }
  }

  /**
   * The repair, by position: the first `[` at `p`, no `]` from there on, and
   * the last `}` at `q`.
   */
  lemma RepairAt(s: string, p: nat, q: nat)
    requires p < q < |s| && s[p] == '[' && s[q] == '}'
    requires forall k :: 0 <= k < p ==> s[k] != '['
    requires forall k :: p <= k < |s| ==> s[k] != ']'
    requires forall k :: q < k < |s| ==> s[k] != '}'
    ensures FirstArray(s) == Ok(s[p..q + 1] + "\n]")
  {
    assert IndexOf(s, '[', 0) == Some(p);
    forall e | p < e <= |s|
      ensures Balance(s[p..e]) != 0
    {
      BalanceNoCloser(s[p..e]);
    }
    FirstBalancedNone(s, p, p + 1);
    var truncated := s[p..];
    assert LastIndexOf(truncated, '}') == Some(q - p);
    assert truncated[..q - p + 1] == s[p..q + 1];
  }

  /**
   * An array cut off inside an object keeps exactly the complete objects
   * before the cut: with `prose` free of `[`, `body` ending in `}`, no `]`
   * after the opening bracket and no `}` in the cut-off tail, the repaired
   * slice is `[` + `body` + a closing line.
   */
  lemma RepairKeepsCompleteObjects(prose: string, body: string, tail: string)
    requires forall k :: 0 <= k < |prose| ==> prose[k] != '['
    requires body != [] && body[|body| - 1] == '}'
    requires forall k :: 0 <= k < |body| ==> body[k] != ']'
    requires forall k :: 0 <= k < |tail| ==> tail[k] != ']' && tail[k] != '}'
    ensures FirstArray(prose + "[" + body + tail) == Ok("[" + body + "\n]")
  {
    var s := prose + "[" + body + tail;
    var p: nat := |prose|;
    var q: nat := p + |body|;
    assert s[p..q + 1] == "[" + body;
    RepairAt(s, p, q);
  }

  /** The slice of a closed array, by position: the first `[` at `p` and the brackets balanced at `end`. */
  lemma ClosedAt(s: string, p: nat, end: nat)
    requires p < |s| && s[p] == '['
    requires forall k :: 0 <= k < p ==> s[k] != '['
    requires ArrayEnd(s, p) == Some(end)
    ensures FirstArray(s) == Ok(s[p..end]) && FirstArrayAsWritten(s) == Ok(s[p..end])
  {
    assert IndexOf(s, '[', 0) == Some(p);
  }

  /**
   * A closed array after bracket-free prose is sliced out as it is, whatever
   * follows it.
   */
  lemma ClosedArrayIsSliced(prose: string, arr: string, rest: string)
    requires forall k :: 0 <= k < |prose| ==> prose[k] != '['
    requires |arr| > 0 && arr[0] == '['
    requires ArrayEnd(arr, 0) == Some(|arr|)
    ensures FirstArray(prose + arr + rest) == Ok(arr)
    ensures FirstArrayAsWritten(prose + arr + rest) == Ok(arr)
  {
    var s := prose + arr + rest;
    var p: nat := |prose|;
    var n: nat := |arr|;
    forall e | p < e <= p + n
      ensures s[p..e] == arr[0..e - p]
    {
    }
    forall e | p + 1 <= e < p + n
      ensures Balance(s[p..e]) != 0
    {
      assert Balance(arr[0..e - p]) != 0;
    }
    assert Balance(s[p..p + n]) == 0 by {
      assert s[p..p + n] == arr[0..n];
    }
    FirstBalancedFrom(s, p, p + 1, p + n);
    ClosedAt(s, p, p + n);
    assert s[p..p + n] == arr;
  }

  // ---------------------------------------------------------------------
  // Field names
  // ---------------------------------------------------------------------

  /** One entry of the returned list; `None` fields are `undefined` and not sent. */
  datatype IdeaEntry =
    | Idea(title: Option<Json>, description: Option<Json>, targetMarket: Option<Json>,
           uniqueValueProposition: Option<Json>, potentialChallenges: Option<Json>,
           estimatedMarketSize: Option<Json>, innovationScore: Option<Json>)
    | ParsingError

  const ParsingErrorDescription := "The AI generated ideas but they could not be parsed. Please try generating again."

  /** The mapping callback of `ideas.map`: reading a property of `null` throws. */
  function NormaliseIdea(idea: Json): (r: Attempt<IdeaEntry>)
    ensures r.Threw? <==> idea.JNull?
    ensures r.Ok? ==> r.value.Idea?
  {
    if idea.JNull? then Threw
    else Ok(Idea(
      Or(Prop(idea, "Title"), Prop(idea, "title")),
      Or(Prop(idea, "Description"), Prop(idea, "description")),
      Or(Prop(idea, "Target Market"), Prop(idea, "targetMarket")),
      Or(Prop(idea, "Unique Value Proposition"), Prop(idea, "uniqueValueProposition")),
      Or(Prop(idea, "Potential Challenges"), Prop(idea, "potentialChallenges")),
      Or(Prop(idea, "Estimated Market Size"), Prop(idea, "estimatedMarketSize")),
      Or(Or(Prop(idea, "Innovation Score"), Prop(idea, "innovationScore")), Prop(idea, "score"))))
  }

  /**
   * The title-case name with spaces wins whenever it is truthy; otherwise the
   * camel-case name is taken. The score falls back once more, to `score`.
   */
  lemma TitleCaseNamesWin(idea: Json)
    requires !idea.JNull?
    ensures var e := NormaliseIdea(idea).value;
      && PrefersFirst(e.title, Prop(idea, "Title"), Prop(idea, "title"))
      && PrefersFirst(e.description, Prop(idea, "Description"), Prop(idea, "description"))
      && PrefersFirst(e.targetMarket, Prop(idea, "Target Market"), Prop(idea, "targetMarket"))
      && PrefersFirst(e.uniqueValueProposition,
                      Prop(idea, "Unique Value Proposition"), Prop(idea, "uniqueValueProposition"))
      && PrefersFirst(e.potentialChallenges, Prop(idea, "Potential Challenges"), Prop(idea, "potentialChallenges"))
      && PrefersFirst(e.estimatedMarketSize, Prop(idea, "Estimated Market Size"), Prop(idea, "estimatedMarketSize"))
    ensures var e := NormaliseIdea(idea).value;
      && (Truthy(Prop(idea, "Innovation Score")) ==> e.innovationScore == Prop(idea, "Innovation Score"))
      && (!Truthy(Prop(idea, "Innovation Score")) && Truthy(Prop(idea, "innovationScore")) ==>
            e.innovationScore == Prop(idea, "innovationScore"))
      && (!Truthy(Prop(idea, "Innovation Score")) && !Truthy(Prop(idea, "innovationScore")) ==>
            e.innovationScore == Prop(idea, "score"))
  {
  }

  /** `v` is `a` when `a` is truthy, and `b` otherwise. */
  predicate PrefersFirst(v: Option<Json>, a: Option<Json>, b: Option<Json>)
  {
    (Truthy(a) ==> v == a) && (!Truthy(a) ==> v == b)
  }

  /** The members of an object literal whose value is `undefined` are not sent. */
  function Defined(pairs: seq<(string, Option<Json>)>): seq<(string, Json)>
  {
    if pairs == [] then []
    else if pairs[0].1.Some? then [(pairs[0].0, pairs[0].1.value)] + Defined(pairs[1..])
    else Defined(pairs[1..])
  }

  /** The first defined value given for `key`, if any. */
  function FindDefined(pairs: seq<(string, Option<Json>)>, key: string): Option<Json>
  {
    if pairs == [] then None
    else if pairs[0].0 == key && pairs[0].1.Some? then pairs[0].1
    else FindDefined(pairs[1..], key)
  }

  lemma {:induction false} LookupDefined(pairs: seq<(string, Option<Json>)>, key: string)
    ensures Lookup(Defined(pairs), key) == FindDefined(pairs, key)
  {
    if pairs != [] {
      LookupDefined(pairs[1..], key);
    }
  }

  predicate Distinct(pairs: seq<(string, Option<Json>)>)
  {
    forall i, j :: 0 <= i < j < |pairs| ==> pairs[i].0 != pairs[j].0
  }

  lemma {:induction false} FindDefinedAbsent(pairs: seq<(string, Option<Json>)>, key: string)
    requires forall i :: 0 <= i < |pairs| ==> pairs[i].0 != key
    ensures FindDefined(pairs, key) == None
  {
    if pairs != [] {
      FindDefinedAbsent(pairs[1..], key);
    }
  }

  /** With distinct names, each name finds its own value. */
  lemma {:induction false} FindDefinedDistinct(pairs: seq<(string, Option<Json>)>, i: nat)
    requires i < |pairs| && Distinct(pairs)
    ensures FindDefined(pairs, pairs[i].0) == pairs[i].1
  {
    if i == 0 {
      if pairs[0].1.None? {
        FindDefinedAbsent(pairs[1..], pairs[0].0);
      }
    } else {
      assert pairs[1..][i - 1] == pairs[i];
      FindDefinedDistinct(pairs[1..], i - 1);
    }
  }

  function IdeaMembers(e: IdeaEntry): seq<(string, Option<Json>)>
    requires e.Idea?
  {
    [("title", e.title), ("description", e.description), ("targetMarket", e.targetMarket),
     ("uniqueValueProposition", e.uniqueValueProposition), ("potentialChallenges", e.potentialChallenges),
     ("estimatedMarketSize", e.estimatedMarketSize), ("innovationScore", e.innovationScore)]
  }

  /** The object `res.json` sends for an entry; `undefined` members are left out. */
  function IdeaJson(e: IdeaEntry): Json
  {
    match e
    case ParsingError =>
      JObj([("title", JStr("Parsing Error")), ("description", JStr(ParsingErrorDescription)), ("rawResponse", JBool(true))])
    case Idea(_, _, _, _, _, _, _) => JObj(Defined(IdeaMembers(e)))
  }

  /** The object sent for an entry has none of the title-case names, nor `score`. */
  lemma NoTitleCaseNamesSent(e: IdeaEntry)
    requires e.Idea?
    ensures Prop(IdeaJson(e), "Title") == None
    ensures Prop(IdeaJson(e), "Description") == None
    ensures Prop(IdeaJson(e), "Target Market") == None
    ensures Prop(IdeaJson(e), "Unique Value Proposition") == None
    ensures Prop(IdeaJson(e), "Potential Challenges") == None
    ensures Prop(IdeaJson(e), "Estimated Market Size") == None
    ensures Prop(IdeaJson(e), "Innovation Score") == None
    ensures Prop(IdeaJson(e), "score") == None
  {
    var ms := IdeaMembers(e);
    LookupDefined(ms, "Title");
    FindDefinedAbsent(ms, "Title");
    LookupDefined(ms, "Description");
    FindDefinedAbsent(ms, "Description");
    LookupDefined(ms, "Target Market");
    FindDefinedAbsent(ms, "Target Market");
    LookupDefined(ms, "Unique Value Proposition");
    FindDefinedAbsent(ms, "Unique Value Proposition");
    LookupDefined(ms, "Potential Challenges");
    FindDefinedAbsent(ms, "Potential Challenges");
    LookupDefined(ms, "Estimated Market Size");
    FindDefinedAbsent(ms, "Estimated Market Size");
    LookupDefined(ms, "Innovation Score");
    FindDefinedAbsent(ms, "Innovation Score");
    LookupDefined(ms, "score");
    FindDefinedAbsent(ms, "score");
  }

  /** The object sent for an entry carries each field under its camel-case name. */
  lemma CamelCaseNamesSent(e: IdeaEntry)
    requires e.Idea?
    ensures Prop(IdeaJson(e), "title") == e.title
    ensures Prop(IdeaJson(e), "description") == e.description
    ensures Prop(IdeaJson(e), "targetMarket") == e.targetMarket
    ensures Prop(IdeaJson(e), "uniqueValueProposition") == e.uniqueValueProposition
    ensures Prop(IdeaJson(e), "potentialChallenges") == e.potentialChallenges
    ensures Prop(IdeaJson(e), "estimatedMarketSize") == e.estimatedMarketSize
    ensures Prop(IdeaJson(e), "innovationScore") == e.innovationScore
  {
    var ms := IdeaMembers(e);
    assert Distinct(ms);
    LookupDefined(ms, "title");
    FindDefinedDistinct(ms, 0);
    LookupDefined(ms, "description");
    FindDefinedDistinct(ms, 1);
    LookupDefined(ms, "targetMarket");
    FindDefinedDistinct(ms, 2);
    LookupDefined(ms, "uniqueValueProposition");
    FindDefinedDistinct(ms, 3);
    LookupDefined(ms, "potentialChallenges");
    FindDefinedDistinct(ms, 4);
    LookupDefined(ms, "estimatedMarketSize");
    FindDefinedDistinct(ms, 5);
    LookupDefined(ms, "innovationScore");
    FindDefinedDistinct(ms, 6);
  }

  /**
   * Normalising what the route sends gives the entry back, except that a
   * falsy `innovationScore` (0 or "") is lost, because `idea.score` is then
   * read and is absent. So normalising twice is normalising once, up to that
   * score.
   */
  lemma RenormaliseKeepsIdea(e: IdeaEntry)
    requires e.Idea?
    ensures NormaliseIdea(IdeaJson(e)) == Ok(e.(innovationScore := if Truthy(e.innovationScore) then e.innovationScore else None))
  {
    NoTitleCaseNamesSent(e);
    CamelCaseNamesSent(e);
  }

  // ---------------------------------------------------------------------
  // The whole path
  // ---------------------------------------------------------------------

  /** `ideas.map(...)` over a parsed array: a `null` element throws. */
  function NormaliseAll(xs: seq<Json>): (r: Attempt<seq<IdeaEntry>>)
    ensures r.Threw? <==> exists i :: 0 <= i < |xs| && xs[i].JNull?
    ensures r.Ok? ==> |r.value| == |xs| && forall i :: 0 <= i < |xs| ==> Ok(r.value[i]) == NormaliseIdea(xs[i])
  {
    if xs == [] then Ok([])
    else
      var init := NormaliseAll(xs[..|xs| - 1]);
      var last := xs[|xs| - 1];
      assert forall i :: 0 <= i < |xs| - 1 ==> xs[i] == xs[..|xs| - 1][i];
      if init.Threw? || last.JNull? then Threw
      else Ok(init.value + [NormaliseIdea(last).value])
  }

  /** The `ideas` array the route answers with once the completion text is in, sliced as written. */
  function IdeasFor(aiResponse: string, parse: string -> Option<Json>): seq<IdeaEntry>
  {
    IdeasOf(FirstArrayAsWritten(Clean(aiResponse)), parse)
  }

  /** The same with a repaired array taken whole: what the repair evidently means. */
  function IntendedIdeasFor(aiResponse: string, parse: string -> Option<Json>): seq<IdeaEntry>
  {
    IdeasOf(FirstArray(Clean(aiResponse)), parse)
  }

  /**
   * The route's answer is the intended one unless a truncated array that
   * does not start the cleaned text was repaired.
   */
  lemma RouteDiffersOnlyAfterRepair(aiResponse: string, parse: string -> Option<Json>)
    ensures var clean := Clean(aiResponse);
      IdeasFor(aiResponse, parse) != IntendedIdeasFor(aiResponse, parse) ==>
        && IndexOf(clean, '[', 0).Some?
        && var start := IndexOf(clean, '[', 0).value;
        && ArrayEnd(clean, start).None?
        && Repair(clean, start).Ok?
        && start > 0
  {
    AsWrittenDiffersOnlyAfterRepair(Clean(aiResponse));
  }

  /**
   * On `x[{}`, a parser that rejects `{}\n]` gives the route the
   * placeholder ...
   */
  lemma RepairedRouteCounterexample(parse: string -> Option<Json>)
    requires parse("{}\n]").None?
    ensures IdeasFor("x[{}", parse) == [ParsingError]
  {
    ExampleIsClean();
    RepairSliceCounterexample();
  }

  /** ... where the intended slice `[{}\n]` gives one idea. */
  lemma RepairedRouteIntended(parse: string -> Option<Json>)
    requires parse("[{}\n]") == Some(JArr([JObj([])]))
    ensures IntendedIdeasFor("x[{}", parse) == [Idea(None, None, None, None, None, None, None)]
  {
    ExampleIsClean();
    RepairSliceCounterexample();
    EmptyObjectIdea();
  }

  lemma ExampleIsClean()
    ensures Clean("x[{}") == "x[{}"
  {
    var s := "x[{}";
    assert Tidy(s);
    FenceRoundTrip(s);
  }

  /** `{}` becomes an idea with every field undefined. */
  lemma EmptyObjectIdea()
    ensures NormaliseAll([JObj([])]) == Ok([Idea(None, None, None, None, None, None, None)])
  {
    var xs := [JObj([])];
    assert xs[..0] == [] && NormaliseAll(xs[..0]) == Ok([]);
    assert NormaliseIdea(xs[0]) == Ok(Idea(None, None, None, None, None, None, None));
    var e := Idea(None, None, None, None, None, None, None);
    assert NormaliseAll(xs) == Ok([] + [e]);
    assert [] + [e] == [e];
  }

  /** From the slice (or the throw that replaced it) to the entries. */
  function IdeasOf(slice: Attempt<string>, parse: string -> Option<Json>): seq<IdeaEntry>
  {
    match slice
    case Threw => [ParsingError]
    case Ok(text) =>
      match parse(text)
      case Some(JArr(xs)) =>
        (match NormaliseAll(xs) case Ok(es) => es case Threw => [ParsingError])
      case _ => [ParsingError]
  }

  /**
   * Either the single placeholder, or one normalised entry per element of
   * the parsed array, in order.
   */
  lemma IdeasShape(aiResponse: string, parse: string -> Option<Json>)
    ensures var r := IdeasFor(aiResponse, parse);
      || r == [ParsingError]
      || (&& FirstArrayAsWritten(Clean(aiResponse)).Ok?
          && var xs := parse(FirstArrayAsWritten(Clean(aiResponse)).value);
          && xs.Some? && xs.value.JArr? && |r| == |xs.value.items|
          && forall i :: 0 <= i < |r| ==> r[i].Idea? && Ok(r[i]) == NormaliseIdea(xs.value.items[i]))
  {
  }

  /** When the array cannot be found, repaired or parsed as an array, the answer is the placeholder. */
  lemma UnparsableGivesPlaceholder(aiResponse: string, parse: string -> Option<Json>)
    requires var f := FirstArrayAsWritten(Clean(aiResponse));
      f.Threw? || parse(f.value).None? || !parse(f.value).value.JArr?
    ensures IdeasFor(aiResponse, parse) == [ParsingError]
  {
  }

  /** The `ideas.map(...)` loop: one normalised entry per element, a `null` element ending it with a throw. */
  method NormaliseEach(xs: seq<Json>) returns (r: Attempt<seq<IdeaEntry>>)
    ensures r == NormaliseAll(xs)
  {
    var ideas := [];
    for i := 0 to |xs|
      invariant NormaliseAll(xs[..i]) == Ok(ideas)
    {
      assert xs[..i + 1][..i] == xs[..i];
      var entry := NormaliseIdea(xs[i]);
      if entry.Threw? {
        NormaliseAllThrows(xs, i);
        return Threw;
      }
      ideas := ideas + [entry.value];
    }
    assert xs[..|xs|] == xs;
    r := Ok(ideas);
  }

  lemma NormaliseAllThrows(xs: seq<Json>, i: nat)
    requires i < |xs| && xs[i].JNull?
    ensures NormaliseAll(xs).Threw?
  {
  }

  /**
   * The slice the route parses, computed as the handler does: find the
   * first `[`, count brackets, and repair a truncated array. The repaired
   * text replaces the cleaned one but is still sliced from the old
   * `firstArrayStart` (see `AsWrittenDiffersOnlyAfterRepair`).
   */
  method FirstJsonArray(cleanResponse: string) returns (r: Attempt<string>)
    ensures r == FirstArrayAsWritten(cleanResponse)
  {
    var found := IndexOf(cleanResponse, '[', 0);
    if found.None? {
      return Threw;
    }
    var firstArrayStart := found.value;
    var firstArrayEnd := FindArrayEnd(cleanResponse, firstArrayStart);
    if firstArrayEnd == -1 {
      var truncatedJson := cleanResponse[firstArrayStart..];
      var lastCompleteObject := LastIndexOf(truncatedJson, '}');
      if lastCompleteObject.None? {
        return Threw;
      }
      var repaired := truncatedJson[..lastCompleteObject.value + 1] + "\n]";
      r := Ok(Substring(repaired, firstArrayStart, |repaired|));
    } else {
      r := Ok(cleanResponse[firstArrayStart..firstArrayEnd]);
    }
  }

  /**
   * The parse step of the route: clean, take the first array, parse it and
   * map every element; any throw gives the placeholder.
   */
  method ParseIdeas(aiResponse: string, parse: string -> Option<Json>) returns (ideas: seq<IdeaEntry>)
    ensures ideas == IdeasFor(aiResponse, parse)
  {
    var cleanResponse := Clean(aiResponse);
    var firstJsonArray := FirstJsonArray(cleanResponse);
    ideas := ParseSlice(firstJsonArray, parse);
  }

  /** `JSON.parse` on the slice and the map over its elements; a throw anywhere gives the placeholder. */
  method ParseSlice(firstJsonArray: Attempt<string>, parse: string -> Option<Json>) returns (ideas: seq<IdeaEntry>)
    ensures ideas == IdeasOf(firstJsonArray, parse)
  {
    if firstJsonArray.Threw? {
      return [ParsingError];
    }
    var parsed := parse(firstJsonArray.value);
    if parsed.None? || !parsed.value.JArr? {
      return [ParsingError];
    }
    var mapped := NormaliseEach(parsed.value.items);
    if mapped.Threw? {
      return [ParsingError];
    }
    ideas := mapped.value;
  }
}
