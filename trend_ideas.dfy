/**
 * The client's trend-to-idea heuristic: each trend name is classified by
 * the substrings of its lower-cased text, in a fixed priority, into one
 * idea template; the ideas of the top list come before those of the
 * rising list; saving an idea flips its `saved` flag in the list.
 */
module TrendIdeas {
  import opened JsValues
  import opened JsStrings
  import IdeaStore

  // ---------------------------------------------------------------------
  // generateIdea
  // ---------------------------------------------------------------------

  /** The branches of `generateIdea`, in the order they are tried. */
  datatype Category = AiTrend | ImageTrend | ChatTrend | VideoTrend | ToolTrend | OtherTrend

  /** The first branch whose substring test the lower-cased name passes. */
  function Classify(lower: string): (c: Category)
    ensures c == AiTrend <==> Contains(lower, "ai")
    ensures c == OtherTrend <==>
      (!Contains(lower, "ai") && !Contains(lower, "image") && !Contains(lower, "photo") &&
       !Contains(lower, "chat") && !Contains(lower, "video") && !Contains(lower, "tool") && !Contains(lower, "app"))
  {
    if Contains(lower, "ai") then AiTrend
    else if Contains(lower, "image") || Contains(lower, "photo") then ImageTrend
    else if Contains(lower, "chat") then ChatTrend
    else if Contains(lower, "video") then VideoTrend
    else if Contains(lower, "tool") || Contains(lower, "app") then ToolTrend
    else OtherTrend
  }

  const AiExisting := "Existing: OpenAI, Google Gemini, Claude, Blackbox"
  const ImageExisting := "Existing: Midjourney, DALL-E, Remaker AI, AI photo editors"
  const ChatExisting := "Existing: ChatGPT, Google Bard, Grok AI"
  const VideoExisting := "Existing: RunwayML, AI video generators, Veo 3 AI"
  const ToolExisting := "Existing: Blackbox, AI tools, Google Studio AI"
  const OtherExisting := "Existing: Related search tools/apps"

  /** The "Existing:" line of each branch. */
  function Existing(c: Category): string
  {
    match c
    case AiTrend => AiExisting
    case ImageTrend => ImageExisting
    case ChatTrend => ChatExisting
    case VideoTrend => VideoExisting
    case ToolTrend => ToolExisting
    case OtherTrend => OtherExisting
  }

  /** `a` and `b` in any case: the two-letter test of `/ai/i`. */
  predicate AiAt(s: string, i: nat)
  {
    i + 1 < |s| && LowerChar(s[i]) == 'a' && LowerChar(s[i + 1]) == 'i'
  }

  /** Where `/ai/i` first matches `s`, from `from` on. */
  function FirstAi(s: string, from: nat): (r: Option<nat>)
    decreases |s| - from
    ensures r.Some? ==> from <= r.value && AiAt(s, r.value)
    ensures r.Some? ==> forall k :: from <= k < r.value ==> !AiAt(s, k)
    ensures r.None? ==> forall k :: from <= k < |s| ==> !AiAt(s, k)
  {
    if from + 1 >= |s| then None
    else if AiAt(s, from) then Some(from)
    else FirstAi(s, from + 1)
  }

  /** `s.replace(/ai/i, '')`: the first match, if any, is cut out. */
  function RemoveFirstAi(s: string): (r: string)
    ensures FirstAi(s, 0).Some? ==> |r| == |s| - 2
    ensures FirstAi(s, 0).None? ==> r == s
  {
    match FirstAi(s, 0)
    case Some(i) => s[..i] + s[i + 2..]
    case None => s
  }

  /**
   * The case-insensitive match finds something exactly when the lower-cased
   * name contains "ai": in the AI branch the replace always removes two
   * letters.
   */
  lemma {:induction false} AiMatchIffLowerContains(s: string, from: nat)
    requires from <= |s|
    ensures FirstAi(s, from).Some? <==> Contains(Lower(s)[from..], "ai")
    decreases |s| - from
  {
    var t := Lower(s)[from..];
    if from + 1 >= |s| {
      assert |t| <= 1;
      if |t| == 1 {
        assert t[1..] == [];
      }
    } else {
      assert t[0] == LowerChar(s[from]) && t[1] == LowerChar(s[from + 1]);
      assert t[1..] == Lower(s)[from + 1..];
      AiMatchIffLowerContains(s, from + 1);
      if AiAt(s, from) {
        assert t[..2] == "ai";
      } else {
        assert !("ai" <= t);
      }
    }
  }

  /** The text the AI branch uses in place of the name: the name without its first "ai", or a default. */
  function Stripped(trendName: string, fallback: string): string
  {
    var rest := Trim(RemoveFirstAi(trendName));
    if rest != "" then rest else fallback
  }

  /**
   * An idea from a trend: the name and type it was built from and the
   * branch that was chosen for it. `Title()` and `Description()` give the
   * two members `generateIdea` returns.
   */
  datatype TrendIdea = TrendIdea(name: string, kind: string, category: Category)
  {
    function Title(): string
    {
      TitleOf(name, category)
    }

    function Description(): string
    {
      BodyOf(name, category) + Tail(kind, category)
    }
  }

  const AiLead := "AI-powered "
  const AiTrail := " with a twist"
  const AiDefaultSubject := "solution"
  const AiDescLead := "Create a platform for "
  const AiDefaultTask := "automating tasks"
  const AiBody := " that combines AI with blockchain for secure, transparent automation. ("
  const ImageLead := "Smart "
  const ImageTrail := " Marketplace"
  const ImageDescLead := "Develop a decentralized marketplace for AI-generated "
  const ImageBody := ", allowing creators to monetize and users to discover unique content. ("
  const ChatLead := "Conversational "
  const ChatTrail := " for Healthcare"
  const ChatBody :=
    "Build a chatbot focused on mental health support, integrating with wearable devices for real-time feedback. ("
  const VideoTitle := "AI Video Editor for Social Impact"
  const VideoBody :=
    "Launch a service that uses AI to create and edit videos for NGOs and social causes, with automated storytelling features. ("
  const ToolLead := "Next-gen "
  const ToolTrail := " Collaboration Platform"
  const ToolBody :=
    "Design a collaborative app for remote teams, integrating AI for workflow automation and smart suggestions. ("
  const OtherLead := "Innovative Solution: "
  const OtherDescLead := "Brainstorm a new product or service inspired by the trend: "
  const OtherBody := ". For uniqueness, combine it with AR/VR or IoT. ("

  /** `(${type})\n${existing}`: how every description ends (the opening parenthesis closes each body). */
  function Tail(kind: string, c: Category): string
  {
    kind + ")\n" + Existing(c)
  }

  /** The text in front of the tail, per branch. */
  function BodyOf(name: string, c: Category): string
  {
    match c
    case AiTrend => AiDescLead + Stripped(name, AiDefaultTask) + AiBody
    case ImageTrend => ImageDescLead + name + ImageBody
    case ChatTrend => ChatBody
    case VideoTrend => VideoBody
    case ToolTrend => ToolBody
    case OtherTrend => OtherDescLead + name + OtherBody
  }

  /** The title, per branch. */
  function TitleOf(name: string, c: Category): string
  {
    match c
    case AiTrend => AiLead + Stripped(name, AiDefaultSubject) + AiTrail
    case ImageTrend => ImageLead + name + ImageTrail
    case ChatTrend => ChatLead + name + ChatTrail
    case VideoTrend => VideoTitle
    case ToolTrend => ToolLead + name + ToolTrail
    case OtherTrend => OtherLead + name
  }

  /**
   * `generateIdea(trendName, type)`; `None` for a missing name. A falsy
   * name gives `null`.
   */
  function GenerateIdea(trendName: Option<string>, kind: string): (r: Option<TrendIdea>)
    ensures r.None? <==> trendName.None? || trendName.value == ""
  {
    if trendName.None? || trendName.value == "" then None
    else
      Some(TrendIdea(trendName.value, kind, Classify(Lower(trendName.value))))
  }

  /** `b` ends `s`. */
  predicate EndsWith(s: string, b: string)
  {
    |b| <= |s| && s[|s| - |b|..] == b
  }

  lemma EndsWithConcat(a: string, b: string)
    ensures EndsWith(a + b, b)
  {
    assert (a + b)[|a + b| - |b|..] == b;
  }

  /**
   * Every description ends with the type and the "Existing:" line of the
   * same branch that chose the title.
   */
  lemma DescriptionEndsWithExisting(name: string, kind: string)
    requires name != ""
    ensures EndsWith(GenerateIdea(Some(name), kind).value.Description(), Tail(kind, Classify(Lower(name))))
  {
    var c := Classify(Lower(name));
    EndsWithConcat(BodyOf(name, c), Tail(kind, c));
  }

  const EmailMarketing := "Email marketing"

  /** The case-insensitive match cuts the "ai" out of "Email". */
  lemma EmailLosesItsAi()
    ensures FirstAi(EmailMarketing, 0) == Some(2)
    ensures RemoveFirstAi(EmailMarketing) == "Eml marketing"
  {
    var s := EmailMarketing;
    assert !AiAt(s, 0) && !AiAt(s, 1) && AiAt(s, 2);
  }

  /** "ai" is tested first, anywhere in the name: "Email marketing" takes the AI branch and loses its "ai". */
  lemma AiWinsAnywhere()
    ensures Classify(Lower(EmailMarketing)) == AiTrend
    ensures GenerateIdea(Some(EmailMarketing), "Top").value.Title() == AiLead + "Eml marketing" + AiTrail
  {
    EmailLosesItsAi();
    AiMatchIffLowerContains(EmailMarketing, 0);
    assert Lower(EmailMarketing)[0..] == Lower(EmailMarketing);
    var rest := "Eml marketing";
    assert TrimStart(rest) == rest;
    assert TrimEnd(rest) == rest;
  }

  /** A name that is only "AI" (in any case) leaves nothing, and the defaults fill in. */
  lemma BareAiUsesDefaults(kind: string)
    ensures GenerateIdea(Some("AI"), kind).value.Title() == AiLead + AiDefaultSubject + AiTrail
  {
    assert Lower("AI") == "ai";
    assert "ai" <= Lower("AI");
    assert FirstAi("AI", 0) == Some(0);
    assert RemoveFirstAi("AI") == "";
  }

  // ---------------------------------------------------------------------
  // The idea list
  // ---------------------------------------------------------------------

  /** A trend as the list holds it: `name` may be missing. */
  datatype Trend = Trend(name: Option<string>, value: Option<Json>)

  /**
   * An idea in the page's list: the spread idea (its title and description)
   * and the members added to it. `storeId` is the `_id` of an idea that came
   * back from the store.
   */
  datatype ListedIdea = ListedIdea(idea: TrendIdea, score: Option<Json>, domain: string,
                                   saved: bool, id: string, storeId: Option<string>)

  /** Where an idea came from: the list, its type label, its id prefix and how its score is read. */
  datatype Source = Top | Rising

  function Kind(src: Source): string
  {
    if src == Top then "Top" else "Rising"
  }

  function Prefix(src: Source): string
  {
    if src == Top then "top-" else "rising-"
  }

  /** `trend.value` for the top list; 100 for a breakout and 0 otherwise for the rising list. */
  function Score(src: Source, t: Trend): Option<Json>
  {
    if src == Top then t.value
    else if t.value == Some(JStr("Breakout")) then Some(JNum(100)) else Some(JNum(0))
  }

  /** The list entry for the trend at `idx`, if `generateIdea` gives one. */
  function Entry(src: Source, t: Trend, idx: nat, domain: string): (r: Option<ListedIdea>)
    ensures r.Some? <==> t.name.Some? && t.name.value != ""
  {
    match GenerateIdea(t.name, Kind(src))
    case None => None
    case Some(idea) => Some(ListedIdea(idea, Score(src, t), domain, false,
                                      Prefix(src) + NatToString(idx), None))
  }

  /** The ideas one `forEach` pushes, in order: trends without a name are skipped but keep their index. */
  function Ideas(src: Source, trends: seq<Trend>, domain: string): (r: seq<ListedIdea>)
    ensures |r| <= |trends|
  {
    if trends == [] then []
    else
      var n := |trends| - 1;
      match Entry(src, trends[n], n, domain)
      case None => Ideas(src, trends[..n], domain)
      case Some(e) => Ideas(src, trends[..n], domain) + [e]
  }

  /** What one iteration of a `forEach` pushes: the entry, if there is one. */
  function Pushed(e: Option<ListedIdea>): seq<ListedIdea>
  {
    if e.Some? then [e.value] else []
  }

  /** The ideas of the first `idx + 1` trends are those of the first `idx` and what trend `idx` pushes. */
  lemma IdeasStep(src: Source, trends: seq<Trend>, idx: nat, domain: string)
    requires idx < |trends|
    ensures Ideas(src, trends[..idx + 1], domain) ==
            Ideas(src, trends[..idx], domain) + Pushed(Entry(src, trends[idx], idx, domain))
  {
    var t := trends[..idx + 1];
    assert t[..idx] == trends[..idx] && t[idx] == trends[idx];
  }

  /** The list the page shows: top ideas, then rising ideas; a list that is not an array contributes nothing. */
  function IdeaList(top: Option<seq<Trend>>, rising: Option<seq<Trend>>, domain: string): seq<ListedIdea>
  {
    (if top.Some? then Ideas(Top, top.value, domain) else []) +
    (if rising.Some? then Ideas(Rising, rising.value, domain) else [])
  }

  /** One `forEach` of the page: the ideas of `trends`, pushed onto `ideas` in order. */
  method PushIdeas(src: Source, trends: seq<Trend>, domain: string, ideas: seq<ListedIdea>)
    returns (pushed: seq<ListedIdea>)
    ensures pushed == ideas + Ideas(src, trends, domain)
  {
    pushed := ideas;
    for idx := 0 to |trends|
      invariant pushed == ideas + Ideas(src, trends[..idx], domain)
    {
      IdeasStep(src, trends, idx, domain);
      var entry := Entry(src, trends[idx], idx, domain);
      if entry.Some? {
        pushed := pushed + [entry.value];
      }
    }
    assert trends[..|trends|] == trends;
  }

  /**
   * The two `forEach` loops of the page, pushing onto `ideas`. `None` stands
   * for a `top` or `rising` that is not an array.
   */
  method BuildIdeaList(top: Option<seq<Trend>>, rising: Option<seq<Trend>>, domain: string)
    returns (ideas: seq<ListedIdea>)
    ensures ideas == IdeaList(top, rising, domain)
  {
    ideas := [];
    if top.Some? {
      ideas := PushIdeas(Top, top.value, domain, ideas);
      assert ideas == Ideas(Top, top.value, domain);
    }
    ghost var fromTop := ideas;
    if rising.Some? {
      ideas := PushIdeas(Rising, rising.value, domain, ideas);
    } else {
      assert ideas == fromTop + [];
    }
  }

  /** Every listed idea is unsaved, carries the form's domain and an id of its own list. */
  lemma {:induction false} IdeasAreFresh(src: Source, trends: seq<Trend>, domain: string)
    ensures forall k :: 0 <= k < |Ideas(src, trends, domain)| ==>
      var e := Ideas(src, trends, domain)[k];
      !e.saved && e.domain == domain && e.storeId.None? && Prefix(src) <= e.id
  {
    if trends != [] {
      IdeasAreFresh(src, trends[..|trends| - 1], domain);
    }
  }

  /** One idea per trend with a name: the count is the number of named trends. */
  function Named(trends: seq<Trend>): nat
  {
    if trends == [] then 0
    else Named(trends[..|trends| - 1]) + (if trends[|trends| - 1].name.Some? && trends[|trends| - 1].name.value != "" then 1 else 0)
  }

  lemma {:induction false} OneIdeaPerNamedTrend(src: Source, trends: seq<Trend>, domain: string)
    ensures |Ideas(src, trends, domain)| == Named(trends)
  {
    if trends != [] {
      OneIdeaPerNamedTrend(src, trends[..|trends| - 1], domain);
    }
  }

  /** The trend at `idx` with a name gives the idea with id `<prefix><idx>`, whatever came before it. */
  lemma {:induction false} IdKeepsTrendIndex(src: Source, trends: seq<Trend>, idx: nat, domain: string)
    requires idx < |trends| && trends[idx].name.Some? && trends[idx].name.value != ""
    ensures Entry(src, trends[idx], idx, domain).value in Ideas(src, trends, domain)
    ensures Entry(src, trends[idx], idx, domain).value.id == Prefix(src) + NatToString(idx)
  {
    var n := |trends| - 1;
    if idx < n {
      IdKeepsTrendIndex(src, trends[..n], idx, domain);
    }
  }

  /** Two lists whose ids carry their own prefixes keep them, side by side, when appended. */
  lemma AppendKeepsPrefixes(a: seq<ListedIdea>, b: seq<ListedIdea>, p: string, q: string)
    requires forall k :: 0 <= k < |a| ==> p <= a[k].id
    requires forall k :: 0 <= k < |b| ==> q <= b[k].id
    ensures forall k :: 0 <= k < |a| ==> p <= (a + b)[k].id
    ensures forall k :: |a| <= k < |a + b| ==> q <= (a + b)[k].id
  {
    forall k | |a| <= k < |a + b| ensures q <= (a + b)[k].id {
      assert (a + b)[k] == b[k - |a|];
    }
  }

  /** All top ideas come before all rising ideas. */
  lemma TopBeforeRising(top: seq<Trend>, rising: seq<Trend>, domain: string)
    ensures var list := IdeaList(Some(top), Some(rising), domain);
      var m := |Ideas(Top, top, domain)|;
      m <= |list| &&
      (forall k :: 0 <= k < m ==> Prefix(Top) <= list[k].id) &&
      (forall k :: m <= k < |list| ==> Prefix(Rising) <= list[k].id)
  {
    IdeasAreFresh(Top, top, domain);
    IdeasAreFresh(Rising, rising, domain);
    AppendKeepsPrefixes(Ideas(Top, top, domain), Ideas(Rising, rising, domain), Prefix(Top), Prefix(Rising));
  }

  /** Without a top or a rising array, the list is empty. */
  lemma NoArraysNoIdeas(domain: string)
    ensures IdeaList(None, None, domain) == []
  {
  }

  // ---------------------------------------------------------------------
  // handleSaveIdea
  // ---------------------------------------------------------------------

  /** `i.id === ideaId || i._id === ideaId`. */
  predicate Matches(i: ListedIdea, ideaId: string)
  {
    i.id == ideaId || i.storeId == Some(ideaId)
  }

  /** The `ideas.map` of `handleSaveIdea`: every matching idea has its flag flipped. */
  function ToggleSaved(ideas: seq<ListedIdea>, ideaId: string): (r: seq<ListedIdea>)
    ensures |r| == |ideas|
    ensures forall k :: 0 <= k < |ideas| ==>
      r[k] == if Matches(ideas[k], ideaId) then ideas[k].(saved := !ideas[k].saved) else ideas[k]
  {
    seq(|ideas|, k requires 0 <= k < |ideas| =>
      if Matches(ideas[k], ideaId) then ideas[k].(saved := !ideas[k].saved) else ideas[k])
  }

  /** Toggling twice restores the list. */
  lemma ToggleTwiceRestores(ideas: seq<ListedIdea>, ideaId: string)
    ensures ToggleSaved(ToggleSaved(ideas, ideaId), ideaId) == ideas
  {
    var once := ToggleSaved(ideas, ideaId);
    forall k | 0 <= k < |ideas| ensures ToggleSaved(once, ideaId)[k] == ideas[k] {
      assert Matches(once[k], ideaId) == Matches(ideas[k], ideaId);
    }
  }

  /** Nothing but the `saved` flag of matching ideas changes; without a match nothing changes at all. */
  lemma ToggleTouchesOnlyMatches(ideas: seq<ListedIdea>, ideaId: string)
    ensures forall k :: 0 <= k < |ideas| ==> ToggleSaved(ideas, ideaId)[k].(saved := ideas[k].saved) == ideas[k]
    ensures (forall k :: 0 <= k < |ideas| ==> !Matches(ideas[k], ideaId)) ==> ToggleSaved(ideas, ideaId) == ideas
  {
  }

  /**
   * What the save handler's `fetch` came back with: nothing (the request
   * itself failed), or a reply with its HTTP status and whether its body
   * parsed as JSON.
   */
  datatype SaveResponse = NoResponse | Response(status: int, jsonBody: bool)

  /**
   * The handler gets past `await res.json()` exactly when a reply came back
   * with a JSON body, whatever its status: it never reads `res.ok`.
   */
  predicate BodyRead(res: SaveResponse)
  {
    res.Response? && res.jsonBody
  }

  /** A 2xx reply, the only kind the save route sends when it stored the idea. */
  predicate Accepted(res: SaveResponse)
  {
    res.Response? && 200 <= res.status < 300
  }

  /**
   * The page's list after a save: unchanged when no idea matches (the
   * handler returns before fetching), when the request fails or when the
   * reply's body is not JSON (the `catch`); otherwise toggled, error
   * replies included.
   */
  function AfterSave(ideas: seq<ListedIdea>, ideaId: string, res: SaveResponse): (r: seq<ListedIdea>)
    ensures !BodyRead(res) ==> r == ideas
    ensures (forall k :: 0 <= k < |ideas| ==> !Matches(ideas[k], ideaId)) ==> r == ideas
    ensures |r| == |ideas|
    ensures forall k :: 0 <= k < |ideas| && !Matches(ideas[k], ideaId) ==> r[k] == ideas[k]
  {
    if BodyRead(res) && exists k :: 0 <= k < |ideas| && Matches(ideas[k], ideaId) then ToggleSaved(ideas, ideaId)
    else ideas
  }

  /**
   * A reply with a JSON body flips every matching idea's flag, whatever its
   * status: a 400 or a 500 marks the idea as saved all the same.
   */
  lemma ErrorReplyStillToggles(ideas: seq<ListedIdea>, ideaId: string, status: int)
    requires exists k :: 0 <= k < |ideas| && Matches(ideas[k], ideaId)
    ensures var r := AfterSave(ideas, ideaId, Response(status, true));
      forall k :: 0 <= k < |ideas| && Matches(ideas[k], ideaId) ==> r[k] == ideas[k].(saved := !ideas[k].saved)
    ensures AfterSave(ideas, ideaId, Response(status, true)) != ideas
  {
    var k :| 0 <= k < |ideas| && Matches(ideas[k], ideaId);
    assert AfterSave(ideas, ideaId, Response(status, true))[k].saved != ideas[k].saved;
  }

  /** The status of the save route's reply: `res.json(...)` without `res.status` sends 200. */
  function ReplyStatus(reply: IdeaStore.SaveReply): int
  {
    match reply
    case BadRequest(status, _) => status
    case DatabaseError(status) => status
    case Saved(_) => 200
  }

  /**
   * As written: whatever the save route answers, the page flips the idea,
   * even when the route refused it and the store is unchanged.
   */
  lemma RefusedSaveStillMarked(records: seq<IdeaStore.Idea>, nextId: nat, connected: bool, user: string,
                               body: IdeaStore.Body, now: int, ideas: seq<ListedIdea>, ideaId: string)
    requires exists k :: 0 <= k < |ideas| && Matches(ideas[k], ideaId)
    requires !IdeaStore.AfterSave(records, nextId, connected, user, body, now).reply.Saved?
    ensures var out := IdeaStore.AfterSave(records, nextId, connected, user, body, now);
      && out.records == records
      && !Accepted(Response(ReplyStatus(out.reply), true))
      && AfterSave(ideas, ideaId, Response(ReplyStatus(out.reply), true)) == ToggleSaved(ideas, ideaId)
  {
  }

  /** Corrected: the list is toggled only for a 2xx reply with a JSON body. */
  function IntendedAfterSave(ideas: seq<ListedIdea>, ideaId: string, res: SaveResponse): (r: seq<ListedIdea>)
    ensures !(BodyRead(res) && Accepted(res)) ==> r == ideas
  {
    if Accepted(res) then AfterSave(ideas, ideaId, res) else ideas
  }

  /** The two differ exactly for a JSON error reply to a save of a listed idea. */
  lemma SaveDiffersOnlyOnRefusal(ideas: seq<ListedIdea>, ideaId: string, res: SaveResponse)
    ensures AfterSave(ideas, ideaId, res) != IntendedAfterSave(ideas, ideaId, res) <==>
      BodyRead(res) && !Accepted(res) && exists k :: 0 <= k < |ideas| && Matches(ideas[k], ideaId)
  {
    if BodyRead(res) && !Accepted(res) && exists k :: 0 <= k < |ideas| && Matches(ideas[k], ideaId) {
      ErrorReplyStillToggles(ideas, ideaId, res.status);
    }
  }

  /** Corrected: the page marks an idea exactly when the store saved it. */
  lemma IntendedFollowsStore(records: seq<IdeaStore.Idea>, nextId: nat, connected: bool, user: string,
                             body: IdeaStore.Body, now: int, ideas: seq<ListedIdea>, ideaId: string)
    requires exists k :: 0 <= k < |ideas| && Matches(ideas[k], ideaId)
    ensures var out := IdeaStore.AfterSave(records, nextId, connected, user, body, now);
      IntendedAfterSave(ideas, ideaId, Response(ReplyStatus(out.reply), true)) ==
        if out.reply.Saved? then ToggleSaved(ideas, ideaId) else ideas
  {
  }
}
