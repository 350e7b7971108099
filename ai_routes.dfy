/**
 * The four AI routes around their parse steps: retrieval, then the
 * completion, then the route's own reading of the answer; a failure of
 * either upstream call is classified by its message into a fixed template
 * answered with status 200 and `fallback: true`, or a 500.
 *
 * The retrieval and completion calls are inputs (`Upstream`): their answer
 * or the message of the error they threw. Timestamps and logging are not
 * modelled.
 */
module AiRoutes {
  import opened JsValues
  import opened JsStrings
  import IdeaList
  import Roadmap
  import PitchDeck

  // ---------------------------------------------------------------------
  // Error classification
  // ---------------------------------------------------------------------

  /** The substrings that send the idea, roadmap and pitch-deck routes to their templates. */
  const GenerationMarkers: seq<string> :=
    ["quota", "insufficient", "embedding", "openai", "watson", "404", "failed to generate"]

  /** The enhancement route's list: the same without `watson` and `404`. */
  const EnhancementMarkers: seq<string> :=
    ["quota", "insufficient", "embedding", "openai", "failed to generate"]

  /** `(error?.message || '').toLowerCase()`. */
  function ErrorText(message: Option<string>): string
  {
    match message
    case Some(m) => Lower(m)
    case None => ""
  }

  /** Some marker occurs in `text`: the chain of `includes` tests. */
  predicate MentionsAny(text: string, markers: seq<string>)
  {
    exists i :: 0 <= i < |markers| && Contains(text, markers[i])
  }

  predicate FallsBack(message: Option<string>)
  {
    MentionsAny(ErrorText(message), GenerationMarkers)
  }

  predicate EnhancementFallsBack(message: Option<string>)
  {
    MentionsAny(ErrorText(message), EnhancementMarkers)
  }

  /**
   * The completion client rethrows every error of the call itself with this
   * prefix; only the check for a missing client throws before it, with
   * `UninitialisedMessage`.
   */
  const CompletionErrorPrefix := "Failed to generate AI completion: "

  /** Whatever made the completion fail, every route answers with its template. */
  lemma CompletionErrorsFallBack(detail: string)
    ensures FallsBack(Some(CompletionErrorPrefix + detail))
    ensures EnhancementFallsBack(Some(CompletionErrorPrefix + detail))
  {
    var head := "failed to generate";
    var message := CompletionErrorPrefix + detail;
    var text := Lower(message);
    assert |head| == 18 && |CompletionErrorPrefix| == 34;
    forall k | 0 <= k < 18 ensures text[k] == head[k] {
      assert message[k] == CompletionErrorPrefix[k];
    }
    assert head <= text;
    assert Contains(text, GenerationMarkers[6]);
    assert Contains(text, EnhancementMarkers[4]);
  }

  /** The enhancement route falls back on no message that the other routes would not. */
  lemma EnhancementListIsNarrower(message: Option<string>)
    ensures EnhancementFallsBack(message) ==> FallsBack(message)
  {
    if EnhancementFallsBack(message) {
      var i :| 0 <= i < |EnhancementMarkers| && Contains(ErrorText(message), EnhancementMarkers[i]);
      var j := if i < 4 then i else 6;
      assert GenerationMarkers[j] == EnhancementMarkers[i];
    }
  }

  /** An error without a message is never a fallback. */
  lemma NoMessageIsServerError()
    ensures !FallsBack(None) && !EnhancementFallsBack(None)
  {
    forall i | 0 <= i < |GenerationMarkers| ensures !Contains("", GenerationMarkers[i]) {
    }
  }

  /**
   * A `404 Not Found` from the model service gives the generation routes
   * their template, but the enhancement route a 500.
   */
  lemma NotFoundIsGenerationOnly()
    ensures FallsBack(Some(NotFoundMessage))
    ensures !EnhancementFallsBack(Some(NotFoundMessage))
  {
    NotFoundLowered();
    assert GenerationMarkers[5] <= NotFoundText;
    assert Contains(NotFoundText, GenerationMarkers[5]);
    NotFoundLacksEnhancementLetters();
    NoEnhancementMarker(NotFoundText);
  }

  const NotFoundMessage := "404 Not Found"
  const NotFoundText := "404 not found"

  lemma NotFoundLowered()
    ensures Lower(NotFoundMessage) == NotFoundText
  {
  }

  /** What rules out each enhancement marker in `404 not found`. */
  lemma NotFoundLacksEnhancementLetters()
    ensures 'q' !in NotFoundText && 'b' !in NotFoundText
    ensures !HasPair(NotFoundText, 'f', 'f') && !HasPair(NotFoundText, 'a', 'i') && !HasPair(NotFoundText, 'f', 'a')
  {
    assert 'a' !in NotFoundText;
    forall i | 0 <= i < |NotFoundText| - 1 ensures NotFoundText[i] != 'f' || NotFoundText[i + 1] != 'f' {
    }
  }

  /**
   * What the completion client throws when it was never set up, written
   * word by word so that the proofs below can take it apart.
   */
  const UninitialisedMessage := "Watson " + "client " + "not " + "initialized. " + "Please " + "check " + "your " + "credentials."
  const UninitialisedText := "watson " + "client " + "not " + "initialized. " + "please " + "check " + "your " + "credentials."

  /**
   * A completion client that was never set up names `watson`, which only
   * the generation routes look for: they fall back, the enhancement route
   * does not.
   */
  lemma UninitialisedIsGenerationOnly()
    ensures FallsBack(Some(UninitialisedMessage))
    ensures !EnhancementFallsBack(Some(UninitialisedMessage))
  {
    UninitialisedLowered();
    UninitialisedNamesWatson();
    assert Contains(UninitialisedText, GenerationMarkers[4]);
    UninitialisedIsQuiet();
    NoEnhancementMarker(UninitialisedText);
  }

  lemma UninitialisedLowered()
    ensures Lower(UninitialisedMessage) == UninitialisedText
  {
    LowerConcat("Watson ", "client ");
    LowerConcat("Watson " + "client ", "not ");
    LowerConcat("Watson " + "client " + "not ", "initialized. ");
    LowerConcat("Watson " + "client " + "not " + "initialized. ", "Please ");
    LowerConcat("Watson " + "client " + "not " + "initialized. " + "Please ", "check ");
    LowerConcat("Watson " + "client " + "not " + "initialized. " + "Please " + "check ", "your ");
    LowerConcat("Watson " + "client " + "not " + "initialized. " + "Please " + "check " + "your ", "credentials.");
    assert Lower("Watson ") == "watson ";
    assert Lower("client ") == "client ";
    assert Lower("not ") == "not ";
    assert Lower("initialized. ") == "initialized. ";
    assert Lower("Please ") == "please ";
    assert Lower("check ") == "check ";
    assert Lower("your ") == "your ";
    assert Lower("credentials.") == "credentials.";
  }

  lemma UninitialisedNamesWatson()
    ensures "watson" <= UninitialisedText
  {
    assert "watson" <= "watson ";
    PrefixGrows("watson", "watson ", "client ");
    PrefixGrows("watson", "watson " + "client ", "not ");
    PrefixGrows("watson", "watson " + "client " + "not ", "initialized. ");
    PrefixGrows("watson", "watson " + "client " + "not " + "initialized. ", "please ");
    PrefixGrows("watson", "watson " + "client " + "not " + "initialized. " + "please ", "check ");
    PrefixGrows("watson", "watson " + "client " + "not " + "initialized. " + "please " + "check ", "your ");
    PrefixGrows("watson", "watson " + "client " + "not " + "initialized. " + "please " + "check " + "your ", "credentials.");
  }

  /** The lowered message holds no `q`, `b` or `f`, and no `ai`. */
  lemma UninitialisedIsQuiet()
    ensures Quiet(UninitialisedText)
  {
    assert Quiet("watson ");
    assert Quiet("client ");
    assert Quiet("not ");
    assert Quiet("initialized. ");
    assert Quiet("please ");
    assert Quiet("check ");
    assert Quiet("your ");
    assert Quiet("credentials.");
    QuietJoin("watson ", "client ");
    QuietJoin("watson " + "client ", "not ");
    QuietJoin("watson " + "client " + "not ", "initialized. ");
    QuietJoin("watson " + "client " + "not " + "initialized. ", "please ");
    QuietJoin("watson " + "client " + "not " + "initialized. " + "please ", "check ");
    QuietJoin("watson " + "client " + "not " + "initialized. " + "please " + "check ", "your ");
    QuietJoin("watson " + "client " + "not " + "initialized. " + "please " + "check " + "your ", "credentials.");
  }

  /**
   * No `q`, `b` or `f`, no `a` followed by `i`, and no trailing `a`: enough
   * to rule out every enhancement marker, and kept by concatenation.
   */
  predicate Quiet(s: string)
  {
    && 'q' !in s && 'b' !in s && 'f' !in s && !HasPair(s, 'a', 'i')
    && (s == [] || s[|s| - 1] != 'a')
  }

  lemma QuietJoin(a: string, b: string)
    requires Quiet(a) && Quiet(b)
    ensures Quiet(a + b)
  {
    var s := a + b;
    forall i | 0 <= i < |s| - 1
      ensures s[i] != 'a' || s[i + 1] != 'i'
    {
      if i + 1 < |a| {
        assert s[i] == a[i] && s[i + 1] == a[i + 1];
      } else if i >= |a| {
        assert s[i] == b[i - |a|] && s[i + 1] == b[i - |a| + 1];
      } else {
        assert s[i] == a[|a| - 1];
      }
    }
    if b == [] {
      assert s == a;
    } else {
      assert s[|s| - 1] == b[|b| - 1];
    }
  }

  lemma LowerConcat(a: string, b: string)
    ensures Lower(a + b) == Lower(a) + Lower(b)
  {
  }

  lemma PrefixGrows(p: string, a: string, b: string)
    requires p <= a
    ensures p <= a + b
  {
  }

  // ---------------------------------------------------------------------
  // Replies
  // ---------------------------------------------------------------------

  /** What an upstream call gave: its answer, or the message of the error it threw. */
  datatype Upstream<T> = Answered(value: T) | Failed(message: Option<string>)

  /** A route's reply: the parsed document, the fixed template, or the error. */
  datatype Reply<D, F> =
    | Generated(document: D, context: seq<Json>)
    | Fallback(template: F, warning: string)
    | ServerError(error: string, message: Option<string>)

  /** The HTTP status of a reply; `success` is true exactly when it is 200. */
  function Status<D, F>(r: Reply<D, F>): (code: nat)
    ensures code == 200 || code == 500
    ensures code == 500 <==> r.ServerError?
  {
    if r.ServerError? then 500 else 200
  }

  /** The `catch` of every route. */
  function Recover<D, F>(message: Option<string>, template: F, fallsBack: Option<string> -> bool,
                         warning: string, error: string): (r: Reply<D, F>)
    ensures r.Fallback? <==> fallsBack(message)
    ensures r.Fallback? ==> r.template == template && r.warning == warning
    ensures r.ServerError? ==> r.error == error && r.message == message
    ensures !r.Generated?
  {
    if fallsBack(message) then Fallback(template, warning) else ServerError(error, message)
  }

  /**
   * The shape every route shares: retrieval unless it is skipped, then the
   * completion, whose text the route's reader turns into the document.
   */
  function Respond<D, F>(skipRetrieval: bool, retrieval: Upstream<seq<Json>>, completion: Upstream<string>,
                         read: string -> D, template: F, fallsBack: Option<string> -> bool,
                         warning: string, error: string): (r: Reply<D, F>)
    ensures r.Generated? <==> (skipRetrieval || retrieval.Answered?) && completion.Answered?
    ensures r.Generated? ==> r.document == read(completion.value) &&
                             r.context == (if skipRetrieval then [] else retrieval.value)
    ensures !skipRetrieval && retrieval.Failed? ==> r == Recover(retrieval.message, template, fallsBack, warning, error)
    ensures (skipRetrieval || retrieval.Answered?) && completion.Failed? ==>
              r == Recover(completion.message, template, fallsBack, warning, error)
  {
    var docs := if skipRetrieval then Answered([]) else retrieval;
    match docs
    case Failed(m) => Recover(m, template, fallsBack, warning, error)
    case Answered(context) =>
      match completion
      case Failed(m) => Recover(m, template, fallsBack, warning, error)
      case Answered(text) => Generated(read(text), context)
  }

  // ---------------------------------------------------------------------
  // POST /generate-idea
  // ---------------------------------------------------------------------

  /** The request fields the fallback reads; `None` is a field the body does not have. */
  datatype IdeaRequest = IdeaRequest(domain: Option<string>, keywords: Option<string>, region: Option<string>)

  const DefaultDomain := "General"
  const DefaultRegion := "Global"

  /** Destructuring defaults apply only to missing fields. */
  function Domain(req: IdeaRequest): string
  {
    if req.domain.Some? then req.domain.value else DefaultDomain
  }

  function Keywords(req: IdeaRequest): string
  {
    if req.keywords.Some? then req.keywords.value else ""
  }

  function Region(req: IdeaRequest): string
  {
    if req.region.Some? then req.region.value else DefaultRegion
  }

  /** `keywords || domain`. */
  function FallbackBase(req: IdeaRequest): (base: string)
    ensures req.keywords.Some? && req.keywords.value != "" ==> base == req.keywords.value
    ensures (req.keywords.None? || req.keywords.value == "") ==> base == Domain(req)
  {
    if Keywords(req) != "" then Keywords(req) else Domain(req)
  }

  datatype FallbackIdea = FallbackIdea(title: string, description: string, targetMarket: string,
                                       uniqueValue: string, challenges: string, marketSize: string, score: int)

  // The fixed parts of the three fallback ideas: the title suffix and the
  // texts that do not depend on the request.
  const Automation := FallbackIdea(" automation platform", "", "SMBs and startups",
    "Ops-friendly setup, no-code builder, audit trails", "Distribution, data access, change management",
    "Mid-sized and growing", 7)
  const Insights := FallbackIdea(" insights co-pilot", "", "Product and growth teams",
    "Connectors first, fast dashboards, alerting", "Data quality, integrations coverage",
    "Large and horizontal", 8)
  const Marketplace := FallbackIdea(" marketplace", "", "Procurement leads and founders",
    "Curation + buyer playbooks", "Trust, supply density, take-rate sustainability",
    "Dependent on niche depth", 6)

  const AutomationLead := "A practical tool that automates repetitive workflows in the "
  const AutomationTail := " teams. Ships with templates and human-in-the-loop review."
  const InsightsLead :=
    "An insights layer that aggregates signals (support, CRM, product usage) to suggest next-best-actions in "
  const SpaceFor := " space for "
  const MarketplaceLead := "Curate a niche marketplace in "
  const MarketplaceMiddle := " with vetted vendors and transparent pricing for "
  const Buyers := " buyers."

  /** `buildFallbackIdeas`: three ideas titled after `keywords || domain`. */
  function FallbackIdeas(req: IdeaRequest): (r: seq<FallbackIdea>)
    ensures |r| == 3
    ensures r[0].score == 7 && r[1].score == 8 && r[2].score == 6
  {
    var base := FallbackBase(req);
    var domain := Domain(req);
    var region := Region(req);
    [ Automation.(title := base + Automation.title,
                  description := AutomationLead + domain + SpaceFor + region + AutomationTail),
      Insights.(title := base + Insights.title, description := InsightsLead + domain + "."),
      Marketplace.(title := base + Marketplace.title,
                   description := MarketplaceLead + domain + MarketplaceMiddle + region + Buyers) ]
  }

  /** Every fallback title starts with `keywords || domain`, and every description names the domain. */
  lemma FallbackIdeasNameRequest(req: IdeaRequest)
    ensures forall i :: 0 <= i < 3 ==> FallbackBase(req) <= FallbackIdeas(req)[i].title
    ensures forall i :: 0 <= i < 3 ==> Contains(FallbackIdeas(req)[i].description, Domain(req))
  {
    FallbackTitles(req);
    FallbackDescriptions(req);
  }

  lemma FallbackTitles(req: IdeaRequest)
    ensures forall i :: 0 <= i < 3 ==> FallbackBase(req) <= FallbackIdeas(req)[i].title
  {
    var base := FallbackBase(req);
    PrefixOfConcat(base, Automation.title);
    PrefixOfConcat(base, Insights.title);
    PrefixOfConcat(base, Marketplace.title);
  }

  lemma FallbackDescriptions(req: IdeaRequest)
    ensures forall i :: 0 <= i < 3 ==> Contains(FallbackIdeas(req)[i].description, Domain(req))
  {
    var domain := Domain(req);
    var region := Region(req);
    NamedBefore(AutomationLead, domain, SpaceFor, region, AutomationTail);
    NamedAfter(InsightsLead, domain, ".");
    NamedBefore(MarketplaceLead, domain, MarketplaceMiddle, region, Buyers);
  }

  lemma PrefixOfConcat(a: string, b: string)
    ensures a <= a + b
  {
  }

  /** A text made of a lead, the domain and a tail names the domain. */
  lemma NamedAfter(lead: string, domain: string, tail: string)
    ensures Contains(lead + domain + tail, domain)
  {
    var n := |lead|;
    assert (lead + domain + tail)[n..n + |domain|] == domain;
    ContainsAt(lead + domain + tail, domain, n);
  }

  /** The same, with the tail in three pieces. */
  lemma NamedBefore(lead: string, domain: string, a: string, b: string, c: string)
    ensures Contains(lead + domain + a + b + c, domain)
  {
    assert lead + domain + a + b + c == lead + domain + (a + b + c);
    NamedAfter(lead, domain, a + b + c);
  }

  /** An empty domain is kept, not replaced by 'General': the titles then start with a blank. */
  lemma EmptyDomainIsKept()
    ensures FallbackIdeas(IdeaRequest(Some(""), None, None))[0].title == Automation.title
    ensures FallbackIdeas(IdeaRequest(None, None, None))[0].title == DefaultDomain + Automation.title
  {
    var empty := IdeaRequest(Some(""), None, None);
    var missing := IdeaRequest(None, None, None);
    FirstFallbackTitle(empty);
    FirstFallbackTitle(missing);
    assert "" + Automation.title == Automation.title;
  }

  /** The first fallback title is `keywords || domain` followed by the automation suffix. */
  lemma FirstFallbackTitle(req: IdeaRequest)
    ensures FallbackIdeas(req)[0].title == FallbackBase(req) + Automation.title
  {
  }

  const IdeaWarning := "OpenAI unavailable; showing fallback ideas."

  /** The idea route. */
  function IdeaRoute(req: IdeaRequest, skipRetrieval: bool, retrieval: Upstream<seq<Json>>,
                     completion: Upstream<string>, parse: string -> Option<Json>)
    : Reply<seq<IdeaList.IdeaEntry>, seq<FallbackIdea>>
  {
    Respond(skipRetrieval, retrieval, completion, text => IdeaList.IdeasFor(text, parse),
            FallbackIdeas(req), FallsBack, IdeaWarning, "Failed to generate ideas")
  }

  // ---------------------------------------------------------------------
  // POST /generate-roadmap
  // ---------------------------------------------------------------------

  datatype TemplatePhase = TemplatePhase(name: string, duration: string, objectives: seq<string>)

  datatype RoadmapTemplate = RoadmapTemplate(phases: seq<TemplatePhase>, milestones: seq<string>)

  const FallbackRoadmap := RoadmapTemplate(
    [ TemplatePhase("Planning", "2 weeks", ["Define scope", "Set up team"]),
      TemplatePhase("Development", "8 weeks", ["Build MVP", "Iterate"]),
      TemplatePhase("Testing", "2 weeks", ["QA", "Bug fixes"]),
      TemplatePhase("Launch", "1 week", ["Release", "Monitor"]) ],
    [ "Week 1: Team kickoff", "Week 3: MVP ready", "Week 10: Testing begins", "Week 12: Launch" ])

  function TemplatePhaseJson(p: TemplatePhase): Json
  {
    JObj([("name", JStr(p.name)), ("duration", JStr(p.duration)),
          ("objectives", JArr(seq(|p.objectives|, i requires 0 <= i < |p.objectives| => JStr(p.objectives[i]))))])
  }

  /** The template as sent. */
  function RoadmapTemplateJson(t: RoadmapTemplate): Json
  {
    JObj([("phases", JArr(seq(|t.phases|, i requires 0 <= i < |t.phases| => TemplatePhaseJson(t.phases[i])))),
          ("milestones", JArr(seq(|t.milestones|, i requires 0 <= i < |t.milestones| => JStr(t.milestones[i]))))])
  }

  /**
   * The template uses the lower-case `phases`/`milestones` names and
   * names its phases with `name`, where a parsed roadmap carries `Phases`,
   * `Milestones` and phase `title`s.
   */
  lemma TemplateNamesDiffer(t: RoadmapTemplate)
    ensures var v := RoadmapTemplateJson(t);
      && Prop(v, "Phases") == None && Prop(v, "Milestones") == None
      && IsArray(Prop(v, "phases")) && |Prop(v, "phases").value.items| == |t.phases|
      && IsArray(Prop(v, "milestones")) && |Prop(v, "milestones").value.items| == |t.milestones|
    ensures forall i :: 0 <= i < |t.phases| ==>
      Prop(TemplatePhaseJson(t.phases[i]), "title") == None &&
      Prop(TemplatePhaseJson(t.phases[i]), "name") == Some(JStr(t.phases[i].name))
  {
    var v := RoadmapTemplateJson(t);
    LookupAbsent(v.fields, "Phases");
    LookupAbsent(v.fields, "Milestones");
    assert DistinctNames(v.fields);
    LookupDistinct(v.fields, 0);
    LookupDistinct(v.fields, 1);
    forall i | 0 <= i < |t.phases|
      ensures Prop(TemplatePhaseJson(t.phases[i]), "title") == None
      ensures Prop(TemplatePhaseJson(t.phases[i]), "name") == Some(JStr(t.phases[i].name))
    {
      LookupAbsent(TemplatePhaseJson(t.phases[i]).fields, "title");
      LookupDistinct(TemplatePhaseJson(t.phases[i]).fields, 0);
    }
  }

  /** Four phases of two objectives each, and four milestones. */
  lemma FallbackRoadmapShape()
    ensures |FallbackRoadmap.phases| == 4 && |FallbackRoadmap.milestones| == 4
    ensures forall i :: 0 <= i < 4 ==> |FallbackRoadmap.phases[i].objectives| == 2
  {
  }

  const RoadmapWarning := "OpenAI unavailable; showing basic roadmap template."

  /** The roadmap route. */
  function RoadmapRoute(skipRetrieval: bool, retrieval: Upstream<seq<Json>>, completion: Upstream<string>,
                        parse: string -> Option<Json>): Reply<Roadmap.RoadmapDoc, RoadmapTemplate>
  {
    Respond(skipRetrieval, retrieval, completion, text => Roadmap.RoadmapFor(text, parse),
            FallbackRoadmap, FallsBack, RoadmapWarning, "Failed to generate roadmap")
  }

  // ---------------------------------------------------------------------
  // POST /generate-pitch-deck
  // ---------------------------------------------------------------------

  datatype PitchRequest = PitchRequest(ideaTitle: Option<string>, ideaDescription: Option<string>,
                                       targetMarket: Option<string>, businessModel: Option<string>,
                                       competitiveAdvantage: Option<string>, fundingGoal: Option<string>)

  /** `field || fallback` for a text field. */
  function TextOr(field: Option<string>, fallback: string): (r: string)
    ensures field.Some? && field.value != "" ==> r == field.value
    ensures field.None? || field.value == "" ==> r == fallback
  {
    if field.Some? && field.value != "" then field.value else fallback
  }

  datatype TemplateSlide = TemplateSlide(slide: nat, title: string, headline: string, content: string)

  /** The ten slides with every default in place. */
  const TemplateDeck: seq<TemplateSlide> := [
    TemplateSlide(1, "Cover Slide", "Your Startup", "Company name, tagline, and positioning statement"),
    TemplateSlide(2, "Problem", "Problem Statement", "The problem you are solving"),
    TemplateSlide(3, "Solution", "Our Solution", "Your unique solution and competitive advantage"),
    TemplateSlide(4, "Market Opportunity", "Market Size", "Total addressable market (TAM) analysis"),
    TemplateSlide(5, "Business Model", "Revenue Model", "How you make money"),
    TemplateSlide(6, "Competition", "Competitive Landscape", "Competitive advantage"),
    TemplateSlide(7, "Go-to-Market", "Customer Acquisition", "How you will acquire customers"),
    TemplateSlide(8, "Financial Projections", "3-Year Forecast", "Revenue projections and unit economics"),
    TemplateSlide(9, "Team", "Team & Advisors", "Key team members and their experience"),
    TemplateSlide(10, "Ask", "Funding Request", "Funding amount and use of funds")]

  /**
   * The template with the request's own text where it has some: the idea
   * title heads slide 1, the description fills slide 2, the business model
   * heads slide 5, the competitive advantage fills slide 6 and the funding
   * goal heads slide 10.
   */
  function FallbackSlides(req: PitchRequest): (r: seq<TemplateSlide>)
    ensures |r| == 10
    ensures forall i :: 0 <= i < |r| ==> r[i].slide == i + 1 && r[i].title == TemplateDeck[i].title
    ensures forall i :: 0 <= i < |r| && i !in {0, 1, 4, 5, 9} ==> r[i] == TemplateDeck[i]
  {
    var d := TemplateDeck;
    d[0 := d[0].(headline := TextOr(req.ideaTitle, d[0].headline))]
     [1 := d[1].(content := TextOr(req.ideaDescription, d[1].content))]
     [4 := d[4].(headline := TextOr(req.businessModel, d[4].headline))]
     [5 := d[5].(content := TextOr(req.competitiveAdvantage, d[5].content))]
     [9 := d[9].(headline := TextOr(req.fundingGoal, d[9].headline))]
  }

  /** The template does not read the target market, and empty fields count as missing. */
  lemma TemplateReadsFiveFields(req: PitchRequest, market: Option<string>)
    ensures FallbackSlides(req.(targetMarket := market)) == FallbackSlides(req)
    ensures FallbackSlides(PitchRequest(Some(""), Some(""), Some(""), Some(""), Some(""), Some(""))) ==
            FallbackSlides(PitchRequest(None, None, None, None, None, None))
  {
  }

  const PitchWarning := "AI service unavailable; showing pitch deck template. Customize with your specific details."

  /** The pitch-deck route. */
  function PitchDeckRoute(req: PitchRequest, skipRetrieval: bool, retrieval: Upstream<seq<Json>>,
                          completion: Upstream<string>, parse: string -> Option<Json>)
    : Reply<PitchDeck.PitchDeckDoc, seq<TemplateSlide>>
  {
    Respond(skipRetrieval, retrieval, completion, text => PitchDeck.PitchDeckFor(text, parse),
            FallbackSlides(req), FallsBack, PitchWarning, "Failed to generate pitch deck")
  }

  // ---------------------------------------------------------------------
  // POST /enhance-idea
  // ---------------------------------------------------------------------

  /**
   * The span of `/\{[\s\S]*\}/`: from the first `{` to the last `}`, when
   * that `}` comes after it.
   */
  function GreedySpan(s: string): (r: Option<(nat, nat)>)
    ensures r.Some? ==> r.value.0 < r.value.1 < |s| && s[r.value.0] == '{' && s[r.value.1] == '}'
    ensures r.Some? ==> (forall k :: 0 <= k < r.value.0 ==> s[k] != '{') &&
                        (forall k :: r.value.1 < k < |s| ==> s[k] != '}')
    ensures r.None? <==> forall i, j :: 0 <= i < j < |s| ==> !(s[i] == '{' && s[j] == '}')
  {
    match IndexOf(s, '{', 0)
    case None => None
    case Some(i) =>
      match LastIndexOf(s, '}')
      case None => None
      case Some(j) => if i < j then Some((i, j)) else None
  }

  /** What is handed to `JSON.parse`: the greedy match, or the whole answer when there is none. */
  function Candidate(s: string): string
  {
    match GreedySpan(s)
    case Some((i, j)) => s[i..j + 1]
    case None => s
  }

  /**
   * Unlike the block scan, the greedy match runs from the first object's
   * `{` to the last object's `}`, taking everything between.
   */
  lemma GreedyCoversBoth(prose: string, first: string, mid: string, second: string, rest: string)
    requires forall k :: 0 <= k < |prose| ==> prose[k] != '{'
    requires forall k :: 0 <= k < |rest| ==> rest[k] != '}'
    requires |first| > 0 && first[0] == '{' && |second| > 0 && second[|second| - 1] == '}'
    ensures Candidate(prose + first + mid + second + rest) == first + mid + second
  {
    var s := prose + first + mid + second + rest;
    var i := |prose|;
    var j := |prose| + |first| + |mid| + |second| - 1;
    assert s[i] == '{' && s[j] == '}';
    var span := GreedySpan(s);
    assert span.Some?;
    assert span.value == (i, j);
    assert s[i..j + 1] == first + mid + second;
  }

  datatype Enhancement = Parsed(value: Json) | Unparsed(rawContent: string)

  /** The enhancement parse step: what does not parse is sent back raw. */
  function Enhance(aiResponse: string, parse: string -> Option<Json>): (r: Enhancement)
    ensures r.Unparsed? <==> parse(Candidate(aiResponse)).None?
    ensures r.Unparsed? ==> r.rawContent == aiResponse
    ensures r.Parsed? ==> Some(r.value) == parse(Candidate(aiResponse))
  {
    match parse(Candidate(aiResponse))
    case Some(v) => Parsed(v)
    case None => Unparsed(aiResponse)
  }

  datatype EnhancementTemplate = EnhancementTemplate(strengths: seq<string>, weaknesses: seq<string>,
                                                     suggestions: seq<string>)

  const FallbackEnhancement := EnhancementTemplate(
    ["Clear concept", "Defined market"],
    ["Needs validation", "Competitive landscape unclear"],
    ["Conduct market research", "Define MVP features", "Identify key competitors",
     "Create financial projections", "Build prototype"])

  /** The request: `idea` may be missing or `null`. */
  datatype EnhanceRequest = EnhanceRequest(idea: Option<Json>, focusArea: Option<string>)

  /** The message V8 gives reading `.title` of a missing or `null` idea. */
  function TitleReadError(idea: Option<Json>): string
  {
    if idea.None? then "Cannot read properties of undefined (reading 'title')"
    else "Cannot read properties of null (reading 'title')"
  }

  const EnhancementWarning := "OpenAI unavailable; showing generic enhancement suggestions."

  /**
   * The enhancement route. The retrieval query reads `idea.title`, so with
   * retrieval on, a missing or `null` idea throws before anything is called.
   */
  function EnhanceRoute(req: EnhanceRequest, skipRetrieval: bool, retrieval: Upstream<seq<Json>>,
                        completion: Upstream<string>, parse: string -> Option<Json>)
    : Reply<Enhancement, EnhancementTemplate>
  {
    var noIdea := req.idea.None? || req.idea.value.JNull?;
    var query := if !skipRetrieval && noIdea then Failed(Some(TitleReadError(req.idea))) else retrieval;
    Respond(skipRetrieval, query, completion, text => Enhance(text, parse),
            FallbackEnhancement, EnhancementFallsBack, EnhancementWarning, "Failed to enhance idea")
  }

  /**
   * A text without `q`, `b`, `ff`, `ai` and `fa` holds none of the
   * enhancement markers, each of which has one of those.
   */
  lemma NoEnhancementMarker(text: string)
    requires 'q' !in text && 'b' !in text
    requires !HasPair(text, 'f', 'f') && !HasPair(text, 'a', 'i') && !HasPair(text, 'f', 'a')
    ensures forall i :: 0 <= i < |EnhancementMarkers| ==> !Contains(text, EnhancementMarkers[i])
  {
    forall i | 0 <= i < |EnhancementMarkers| ensures !Contains(text, EnhancementMarkers[i]) {
      var marker := EnhancementMarkers[i];
      if Contains(text, marker) {
        if i == 0 {
          ContainsChars(text, marker, 0);
        } else if i == 1 {
          ContainsPair(text, marker, 4);
        } else if i == 2 {
          ContainsChars(text, marker, 2);
        } else if i == 3 {
          ContainsPair(text, marker, 4);
        } else {
          ContainsPair(text, marker, 0);
        }
        assert false;
      }
    }
  }

  // ---------------------------------------------------------------------
  // Across the routes
  // ---------------------------------------------------------------------

  /**
   * A failed completion call (rethrown with `CompletionErrorPrefix`) gives
   * the idea route its template with status 200; the next three lemmas say
   * the same of the other routes.
   */
  lemma IdeaCompletionFailure(detail: string, req: IdeaRequest, skipRetrieval: bool,
                              retrieval: Upstream<seq<Json>>, parse: string -> Option<Json>)
    requires skipRetrieval || retrieval.Answered?
    ensures IdeaRoute(req, skipRetrieval, retrieval, Failed(Some(CompletionErrorPrefix + detail)), parse) ==
            Fallback(FallbackIdeas(req), IdeaWarning)
  {
    CompletionErrorsFallBack(detail);
  }

  lemma RoadmapCompletionFailure(detail: string, skipRetrieval: bool,
                                 retrieval: Upstream<seq<Json>>, parse: string -> Option<Json>)
    requires skipRetrieval || retrieval.Answered?
    ensures RoadmapRoute(skipRetrieval, retrieval, Failed(Some(CompletionErrorPrefix + detail)), parse) ==
            Fallback(FallbackRoadmap, RoadmapWarning)
  {
    CompletionErrorsFallBack(detail);
  }

  lemma PitchDeckCompletionFailure(detail: string, req: PitchRequest, skipRetrieval: bool,
                                   retrieval: Upstream<seq<Json>>, parse: string -> Option<Json>)
    requires skipRetrieval || retrieval.Answered?
    ensures PitchDeckRoute(req, skipRetrieval, retrieval, Failed(Some(CompletionErrorPrefix + detail)), parse) ==
            Fallback(FallbackSlides(req), PitchWarning)
  {
    CompletionErrorsFallBack(detail);
  }

  lemma EnhanceCompletionFailure(detail: string, req: EnhanceRequest, skipRetrieval: bool,
                                 retrieval: Upstream<seq<Json>>, parse: string -> Option<Json>)
    requires skipRetrieval || (retrieval.Answered? && req.idea.Some? && !req.idea.value.JNull?)
    ensures EnhanceRoute(req, skipRetrieval, retrieval, Failed(Some(CompletionErrorPrefix + detail)), parse) ==
            Fallback(FallbackEnhancement, EnhancementWarning)
  {
    CompletionErrorsFallBack(detail);
  }

  /**
   * A completion client that was never set up gives the three generation
   * routes their templates with status 200 ...
   */
  lemma UninitialisedClientFallsBack(ideaReq: IdeaRequest, pitchReq: PitchRequest, skipRetrieval: bool,
                                     retrieval: Upstream<seq<Json>>, parse: string -> Option<Json>)
    requires skipRetrieval || retrieval.Answered?
    ensures var failed := Failed(Some(UninitialisedMessage));
      && IdeaRoute(ideaReq, skipRetrieval, retrieval, failed, parse) == Fallback(FallbackIdeas(ideaReq), IdeaWarning)
      && RoadmapRoute(skipRetrieval, retrieval, failed, parse) == Fallback(FallbackRoadmap, RoadmapWarning)
      && PitchDeckRoute(pitchReq, skipRetrieval, retrieval, failed, parse) == Fallback(FallbackSlides(pitchReq), PitchWarning)
  {
    UninitialisedIsGenerationOnly();
  }

  /** ... but the enhancement route a 500, once it gets as far as the completion call. */
  lemma UninitialisedClientFailsEnhancement(req: EnhanceRequest, skipRetrieval: bool,
                                            retrieval: Upstream<seq<Json>>, parse: string -> Option<Json>)
    requires skipRetrieval || (retrieval.Answered? && req.idea.Some? && !req.idea.value.JNull?)
    ensures EnhanceRoute(req, skipRetrieval, retrieval, Failed(Some(UninitialisedMessage)), parse) ==
            ServerError("Failed to enhance idea", Some(UninitialisedMessage))
    ensures Status(EnhanceRoute(req, skipRetrieval, retrieval, Failed(Some(UninitialisedMessage)), parse)) == 500
  {
    UninitialisedIsGenerationOnly();
  }

  /**
   * With retrieval on, a request without an idea never gets a document:
   * the reply is decided by the TypeError alone, whatever retrieval and the
   * completion would have given.
   */
  lemma MissingIdeaNeverAnswered(focusArea: Option<string>, retrieval: Upstream<seq<Json>>,
                                 completion: Upstream<string>, parse: string -> Option<Json>,
                                 otherCompletion: Upstream<string>)
    ensures var req := EnhanceRequest(None, focusArea);
      && !EnhanceRoute(req, false, retrieval, completion, parse).Generated?
      && EnhanceRoute(req, false, retrieval, completion, parse) ==
         EnhanceRoute(req, false, Answered([]), otherCompletion, parse)
  {
  }

  /** A route answers 200 with its parsed document exactly when both upstream calls answered. */
  lemma DocumentOnlyWhenAnswered(req: IdeaRequest, skipRetrieval: bool, retrieval: Upstream<seq<Json>>,
                                 completion: Upstream<string>, parse: string -> Option<Json>)
    ensures IdeaRoute(req, skipRetrieval, retrieval, completion, parse).Generated? <==>
      (skipRetrieval || retrieval.Answered?) && completion.Answered?
    ensures completion.Answered? && skipRetrieval ==>
      IdeaRoute(req, skipRetrieval, retrieval, completion, parse) ==
        Generated(IdeaList.IdeasFor(completion.value, parse), [])
  {
  }
}
