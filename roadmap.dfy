/**
 * The parse step of `POST /api/ai/generate-roadmap`: code fences are removed,
 * the blocks are extracted and the first one that parses is taken; a
 * document wrapped in a truthy "Project Roadmap" member is unwrapped; an
 * array under `Phases` has every phase rewritten onto fixed names with
 * defaults, and the milestones, found under `Milestones` or else under
 * `Key Milestones`, are rewritten the same way and stored under
 * `Milestones`. Any throw replaces the whole document with the raw text
 * flagged `parseError`.
 */
module Roadmap {
  import opened JsValues
  import opened JsStrings
  import opened BlockExtractor
  import opened BlockSelection

  /** A rewritten phase; every member is present. */
  datatype Phase = Phase(title: Json, duration: Json, objectives: Json, deliverables: Json,
                         resources: Json, successMetrics: Json, risks: Json)

  /** A rewritten milestone; every member is present. */
  datatype Milestone = Milestone(name: Json, targetDate: Json, description: Json)

  /** Every member of the phase is truthy, as the defaults make it. */
  predicate Complete(p: Phase)
  {
    && Truthy(Some(p.title)) && Truthy(Some(p.duration)) && Truthy(Some(p.objectives))
    && Truthy(Some(p.deliverables)) && Truthy(Some(p.resources)) && Truthy(Some(p.successMetrics))
    && Truthy(Some(p.risks))
  }

  /** The callback of `roadmap.Phases.map`; a `null` phase throws. */
  function NormalisePhase(phase: Json): (r: Attempt<Phase>)
    ensures r.Threw? <==> phase.JNull?
    ensures r.Ok? ==> Complete(r.value)
  {
    if phase.JNull? then Threw
    else Ok(Phase(
      OrDefault(Or(Or(Prop(phase, "Title"), Prop(phase, "title")), Prop(phase, "Phase")), JStr("Phase")),
      OrDefault(Or(Or(Prop(phase, "Duration"), Prop(phase, "duration")), Prop(phase, "Duration/Timeline")), JStr("TBD")),
      OrDefault(Or(Or(Prop(phase, "Key Objectives"), Prop(phase, "objectives")), Prop(phase, "key_objectives")), JArr([])),
      OrDefault(Or(Or(Prop(phase, "Deliverables/Milestones"), Prop(phase, "deliverables")), Prop(phase, "Deliverables")), JArr([])),
      OrDefault(Or(Or(Prop(phase, "Required Resources"), Prop(phase, "resources")), Prop(phase, "required_resources")), JArr([])),
      OrDefault(Or(Prop(phase, "Success Metrics"), Prop(phase, "success_metrics")), JArr([])),
      OrDefault(Or(Or(Prop(phase, "Potential Risks"), Prop(phase, "risks")), Prop(phase, "Potential Risks")), JArr([]))))
  }

  /** The risks chain reads "Potential Risks" twice; the second reading never changes the result. */
  lemma RepeatedRiskAliasIsRedundant(a: Option<Json>, b: Option<Json>, d: Json)
    requires Truthy(Some(d))
    ensures OrDefault(Or(Or(a, b), a), d) == OrDefault(Or(a, b), d)
  {
  }

  /**
   * `a || b || c || d` for a truthy default `d`: the first truthy read wins,
   * and `d` when none is truthy.
   */
  predicate FirstTruthyOf(v: Json, a: Option<Json>, b: Option<Json>, c: Option<Json>, d: Json)
  {
    && (Truthy(a) ==> Some(v) == a)
    && (!Truthy(a) && Truthy(b) ==> Some(v) == b)
    && (!Truthy(a) && !Truthy(b) && Truthy(c) ==> Some(v) == c)
    && (!Truthy(a) && !Truthy(b) && !Truthy(c) ==> v == d)
  }

  /**
   * Each phase member is the first truthy of its names, in the order the
   * callback reads them, else its default.
   */
  lemma PhaseAliasPrecedence(phase: Json)
    requires !phase.JNull?
    ensures var p := NormalisePhase(phase).value;
      && FirstTruthyOf(p.title, Prop(phase, "Title"), Prop(phase, "title"), Prop(phase, "Phase"), JStr("Phase"))
      && FirstTruthyOf(p.duration, Prop(phase, "Duration"), Prop(phase, "duration"),
                       Prop(phase, "Duration/Timeline"), JStr("TBD"))
      && FirstTruthyOf(p.objectives, Prop(phase, "Key Objectives"), Prop(phase, "objectives"),
                       Prop(phase, "key_objectives"), JArr([]))
      && FirstTruthyOf(p.deliverables, Prop(phase, "Deliverables/Milestones"), Prop(phase, "deliverables"),
                       Prop(phase, "Deliverables"), JArr([]))
      && FirstTruthyOf(p.resources, Prop(phase, "Required Resources"), Prop(phase, "resources"),
                       Prop(phase, "required_resources"), JArr([]))
      && FirstTruthyOf(p.successMetrics, Prop(phase, "Success Metrics"), Prop(phase, "success_metrics"),
                       None, JArr([]))
      && FirstTruthyOf(p.risks, Prop(phase, "Potential Risks"), Prop(phase, "risks"), None, JArr([]))
  {
  }

  /**
   * The title-case and the lower-case spellings of a phase's title and
   * duration give the same phase, whatever the two values are.
   */
  lemma AliasedPhasesAgree(title: Json, duration: Json)
    ensures NormalisePhase(JObj([("Title", title), ("Duration", duration)])) ==
            NormalisePhase(JObj([("title", title), ("duration", duration)]))
  {
    SpellingsRead(title, duration, "Title");
    SpellingsRead(title, duration, "Duration");
    SpellingsRead(title, duration, "title");
    SpellingsRead(title, duration, "duration");
    SpellingsRead(title, duration, "Phase");
    SpellingsRead(title, duration, "Duration/Timeline");
    SpellingsRead(title, duration, "Key Objectives");
    SpellingsRead(title, duration, "objectives");
    SpellingsRead(title, duration, "key_objectives");
    SpellingsRead(title, duration, "Deliverables/Milestones");
    SpellingsRead(title, duration, "deliverables");
    SpellingsRead(title, duration, "Deliverables");
    SpellingsRead(title, duration, "Required Resources");
    SpellingsRead(title, duration, "resources");
    SpellingsRead(title, duration, "required_resources");
    SpellingsRead(title, duration, "Success Metrics");
    SpellingsRead(title, duration, "success_metrics");
    SpellingsRead(title, duration, "Potential Risks");
    SpellingsRead(title, duration, "risks");
    PhaseAliasPrecedence(JObj([("Title", title), ("Duration", duration)]));
    PhaseAliasPrecedence(JObj([("title", title), ("duration", duration)]));
  }

  /** What one name reads in each of the two spellings. */
  lemma SpellingsRead(title: Json, duration: Json, key: string)
    ensures Prop(JObj([("Title", title), ("Duration", duration)]), key) ==
            (if key == "Title" then Some(title) else if key == "Duration" then Some(duration) else None)
    ensures Prop(JObj([("title", title), ("duration", duration)]), key) ==
            (if key == "title" then Some(title) else if key == "duration" then Some(duration) else None)
  {
    TwoMembers("Title", title, "Duration", duration, key);
    TwoMembers("title", title, "duration", duration, key);
  }

  /** A property read on a two-member object. */
  lemma TwoMembers(n1: string, v1: Json, n2: string, v2: Json, key: string)
    ensures Prop(JObj([(n1, v1), (n2, v2)]), key) == (if key == n1 then Some(v1) else if key == n2 then Some(v2) else None)
  {
    var fields := [(n1, v1), (n2, v2)];
    assert fields[1..] == [(n2, v2)] && fields[1..][1..] == [];
    assert Lookup(fields[1..], key) == if key == n2 then Some(v2) else Lookup([], key);
  }

  /** A phase given as a string, a number or `{}` becomes the default phase. */
  lemma PhaseDefaults(phase: Json)
    requires !phase.JNull? && (phase.JObj? ==> phase.fields == [])
    ensures NormalisePhase(phase) == Ok(Phase(JStr("Phase"), JStr("TBD"), JArr([]), JArr([]), JArr([]), JArr([]), JArr([])))
  {
  }

  /** The callback of the milestone map; a `null` milestone throws. */
  function NormaliseMilestone(m: Json): (r: Attempt<Milestone>)
    ensures r.Threw? <==> m.JNull?
    ensures r.Ok? ==> Truthy(Some(r.value.name))
    ensures r.Ok? ==> Truthy(Some(r.value.targetDate)) || r.value.targetDate == JStr("")
    ensures r.Ok? ==> Truthy(Some(r.value.description)) || r.value.description == JStr("")
  {
    if m.JNull? then Threw
    else Ok(Milestone(
      OrDefault(Or(Or(Prop(m, "Milestone"), Prop(m, "milestone")), Prop(m, "name")), JStr("Milestone")),
      OrEmpty(Or(Or(Prop(m, "Target Date"), Prop(m, "target_date")), Prop(m, "date"))),
      OrEmpty(Or(Prop(m, "Description"), Prop(m, "description")))))
  }

  function PhaseMembers(p: Phase): seq<(string, Json)>
  {
    [("title", p.title), ("duration", p.duration), ("objectives", p.objectives),
     ("deliverables", p.deliverables), ("resources", p.resources),
     ("successMetrics", p.successMetrics), ("risks", p.risks)]
  }

  /** The object literal the phase callback returns. */
  function PhaseJson(p: Phase): Json
  {
    JObj(PhaseMembers(p))
  }

  function MilestoneJson(m: Milestone): Json
  {
    JObj([("name", m.name), ("targetDate", m.targetDate), ("description", m.description)])
  }

  function PhasesJson(ps: seq<Phase>): (r: seq<Json>)
    ensures |r| == |ps| && forall i :: 0 <= i < |ps| ==> r[i] == PhaseJson(ps[i])
  {
    seq(|ps|, i requires 0 <= i < |ps| => PhaseJson(ps[i]))
  }

  function MilestonesJson(ms: seq<Milestone>): (r: seq<Json>)
    ensures |r| == |ms| && forall i :: 0 <= i < |ms| ==> r[i] == MilestoneJson(ms[i])
  {
    seq(|ms|, i requires 0 <= i < |ms| => MilestoneJson(ms[i]))
  }

  /**
   * Rewriting a rewritten phase keeps it, except its success metrics: the
   * callback reads "Success Metrics" and "success_metrics" but never
   * `successMetrics`, so they fall back to `[]`.
   */
  lemma RenormalisePhase(p: Phase)
    requires Complete(p)
    ensures NormalisePhase(PhaseJson(p)) == Ok(p.(successMetrics := JArr([])))
  {
    PhaseJsonNames(p);
    PhaseJsonAliases(p);
  }

  /** The phase object carries each member under its own name. */
  lemma PhaseJsonNames(p: Phase)
    ensures var v := PhaseJson(p);
      && Prop(v, "title") == Some(p.title) && Prop(v, "duration") == Some(p.duration)
      && Prop(v, "objectives") == Some(p.objectives) && Prop(v, "deliverables") == Some(p.deliverables)
      && Prop(v, "resources") == Some(p.resources) && Prop(v, "risks") == Some(p.risks)
  {
    var fs := PhaseMembers(p);
    assert DistinctNames(fs);
    LookupDistinct(fs, 0);
    LookupDistinct(fs, 1);
    LookupDistinct(fs, 2);
    LookupDistinct(fs, 3);
    LookupDistinct(fs, 4);
    LookupDistinct(fs, 6);
  }

  /** The phase object has none of the other names the callback reads. */
  lemma PhaseJsonAliases(p: Phase)
    ensures var v := PhaseJson(p);
      && Prop(v, "Title") == None && Prop(v, "Duration") == None && Prop(v, "Key Objectives") == None
      && Prop(v, "Deliverables/Milestones") == None && Prop(v, "Required Resources") == None
      && Prop(v, "Success Metrics") == None && Prop(v, "success_metrics") == None
      && Prop(v, "Potential Risks") == None
  {
    var fs := PhaseMembers(p);
    LookupAbsent(fs, "Title");
    LookupAbsent(fs, "Duration");
    LookupAbsent(fs, "Key Objectives");
    LookupAbsent(fs, "Deliverables/Milestones");
    LookupAbsent(fs, "Required Resources");
    LookupAbsent(fs, "Success Metrics");
    LookupAbsent(fs, "success_metrics");
    LookupAbsent(fs, "Potential Risks");
  }

  /**
   * Rewriting a rewritten milestone keeps it, except its target date: the
   * callback never reads `targetDate`, so it falls back to `''`.
   */
  lemma RenormaliseMilestone(m: Milestone)
    requires Truthy(Some(m.name))
    requires Truthy(Some(m.description)) || m.description == JStr("")
    ensures NormaliseMilestone(MilestoneJson(m)) == Ok(m.(targetDate := JStr("")))
  {
    var fs := [("name", m.name), ("targetDate", m.targetDate), ("description", m.description)];
    assert DistinctNames(fs);
    LookupAbsent(fs, "Milestone");
    LookupAbsent(fs, "milestone");
    LookupDistinct(fs, 0);
    LookupAbsent(fs, "Target Date");
    LookupAbsent(fs, "target_date");
    LookupAbsent(fs, "date");
    LookupAbsent(fs, "Description");
    LookupDistinct(fs, 2);
  }

  /** `roadmap.Phases = ...`: the member is given a new value (only ever on an object). */
  function Assign(roadmap: Json, key: string, value: Json): (r: Json)
    requires roadmap.JObj?
    ensures r.JObj? && Prop(r, key) == Some(value)
    ensures forall k :: k != key ==> Prop(r, k) == Prop(roadmap, k)
  {
    JObj(SetField(roadmap.fields, key, value))
  }

  /** The phase step: an array under `Phases` is rewritten, anything else left alone. */
  function WithPhases(roadmap: Json): (r: Attempt<Json>)
  {
    var phases := Prop(roadmap, "Phases");
    if IsArray(phases) then
      match MapAttempt(phases.value.items, NormalisePhase)
      case Threw => Threw
      case Ok(ps) => Ok(Assign(roadmap, "Phases", JArr(PhasesJson(ps))))
    else Ok(roadmap)
  }

  /** The milestone list the route reads: `Milestones` when it is an array, else `Key Milestones` when that is. */
  function MilestoneSource(roadmap: Json): (r: Option<seq<Json>>)
    ensures IsArray(Prop(roadmap, "Milestones")) ==> r == Some(Prop(roadmap, "Milestones").value.items)
    ensures !IsArray(Prop(roadmap, "Milestones")) && IsArray(Prop(roadmap, "Key Milestones")) ==>
              r == Some(Prop(roadmap, "Key Milestones").value.items)
    ensures r.None? <==> !IsArray(Prop(roadmap, "Milestones")) && !IsArray(Prop(roadmap, "Key Milestones"))
  {
    if IsArray(Prop(roadmap, "Milestones")) then Some(Prop(roadmap, "Milestones").value.items)
    else if IsArray(Prop(roadmap, "Key Milestones")) then Some(Prop(roadmap, "Key Milestones").value.items)
    else None
  }

  /** The milestone step: the rewritten list goes under `Milestones`. */
  function WithMilestones(roadmap: Json): (r: Attempt<Json>)
  {
    match MilestoneSource(roadmap)
    case None => Ok(roadmap)
    case Some(items) =>
      match MapAttempt(items, NormaliseMilestone)
      case Threw => Threw
      case Ok(ms) => Ok(Assign(roadmap, "Milestones", JArr(MilestonesJson(ms))))
  }

  /** The document a truthy "Project Roadmap" member wraps, or the parsed value itself. */
  function Unwrap(parsed: Json): Json
  {
    if Truthy(Prop(parsed, "Project Roadmap")) then Prop(parsed, "Project Roadmap").value else parsed
  }

  /** From the selected value (`null` when no block parsed) to the normalised document. */
  function NormaliseRoadmap(parsed: Option<Json>): Attempt<Json>
  {
    if !Truthy(parsed) then Threw
    else
      match WithPhases(Unwrap(parsed.value))
      case Threw => Threw
      case Ok(r) => WithMilestones(r)
  }

  /** The `roadmap` member of the response: the document, or the raw text flagged as a parse error. */
  datatype RoadmapDoc = Document(doc: Json) | ParseFailure(rawContent: string)

  function RoadmapFor(aiResponse: string, parse: string -> Option<Json>): (r: RoadmapDoc)
    ensures r.ParseFailure? ==> r.rawContent == aiResponse
  {
    match NormaliseRoadmap(Selected(Blocks(Unfenced(aiResponse)), parse))
    case Ok(d) => Document(d)
    case Threw => ParseFailure(aiResponse)
  }

  /** The JSON the route sends for the `roadmap` member. */
  function RoadmapDocJson(r: RoadmapDoc): Json
  {
    match r
    case Document(d) => d
    case ParseFailure(raw) => JObj([("rawContent", JStr(raw)), ("parseError", JBool(true))])
  }

  /**
   * The route fails over to the raw text exactly when nothing truthy was
   * selected, or a phase or a milestone it rewrites is `null`.
   */
  lemma RoadmapFailsExactly(parsed: Option<Json>)
    ensures NormaliseRoadmap(parsed).Threw? <==>
      || !Truthy(parsed)
      || (var u := Unwrap(parsed.value);
          || (IsArray(Prop(u, "Phases")) && exists i :: 0 <= i < |Prop(u, "Phases").value.items|
                                                      && Prop(u, "Phases").value.items[i].JNull?)
          || (WithPhases(u).Ok? && MilestoneSource(WithPhases(u).value).Some?
              && exists i :: 0 <= i < |MilestoneSource(WithPhases(u).value).value|
                             && MilestoneSource(WithPhases(u).value).value[i].JNull?))
  {
  }

  /**
   * A rewritten document keeps every member other than `Phases` and
   * `Milestones`; its phases are the old ones rewritten one for one, in
   * order.
   */
  lemma PhasesRewrittenInPlace(roadmap: Json)
    requires IsArray(Prop(roadmap, "Phases")) && WithPhases(roadmap).Ok?
    ensures var out := WithPhases(roadmap).value;
      && var before := Prop(roadmap, "Phases").value.items;
      && IsArray(Prop(out, "Phases"))
      && var after := Prop(out, "Phases").value.items;
      && |after| == |before|
      && (forall i :: 0 <= i < |before| ==> exists p :: NormalisePhase(before[i]) == Ok(p) && after[i] == PhaseJson(p))
      && (forall k :: k != "Phases" ==> Prop(out, k) == Prop(roadmap, k))
  {
    var before := Prop(roadmap, "Phases").value.items;
    var ps := MapAttempt(before, NormalisePhase).value;
    var after := PhasesJson(ps);
    forall i | 0 <= i < |before|
      ensures exists p :: NormalisePhase(before[i]) == Ok(p) && after[i] == PhaseJson(p)
    {
      assert NormalisePhase(before[i]) == Ok(ps[i]);
    }
  }

  /**
   * `Key Milestones` is read only when `Milestones` is not an array; either
   * way the rewritten list is stored under `Milestones`, one entry per
   * milestone, and nothing else changes.
   */
  lemma MilestonesRewritten(roadmap: Json)
    requires MilestoneSource(roadmap).Some? && WithMilestones(roadmap).Ok?
    ensures var out := WithMilestones(roadmap).value;
      && var src := MilestoneSource(roadmap).value;
      && IsArray(Prop(out, "Milestones"))
      && |Prop(out, "Milestones").value.items| == |src|
      && (forall i :: 0 <= i < |src| ==> exists m :: NormaliseMilestone(src[i]) == Ok(m)
                                                    && Prop(out, "Milestones").value.items[i] == MilestoneJson(m))
      && (forall k :: k != "Milestones" ==> Prop(out, k) == Prop(roadmap, k))
  {
    var src := MilestoneSource(roadmap).value;
    var ms := MapAttempt(src, NormaliseMilestone).value;
    forall i | 0 <= i < |src|
      ensures exists m :: NormaliseMilestone(src[i]) == Ok(m) && MilestonesJson(ms)[i] == MilestoneJson(m)
    {
      assert NormaliseMilestone(src[i]) == Ok(ms[i]);
    }
  }

  /**
   * A document wrapped in a "Project Roadmap" member normalises exactly as
   * the document itself, provided it does not carry such a member too.
   */
  lemma WrapperIsTransparent(inner: Json, rest: seq<(string, Json)>)
    requires Truthy(Some(inner)) && !Truthy(Prop(inner, "Project Roadmap"))
    ensures NormaliseRoadmap(Some(JObj([("Project Roadmap", inner)] + rest))) == NormaliseRoadmap(Some(inner))
  {
  }

  /**
   * The route's parse step as written: the blocks are extracted and selected
   * by the loops of `extractJSON` and the block loop, then normalised.
   */
  method ParseRoadmap(aiResponse: string, parse: string -> Option<Json>) returns (roadmap: RoadmapDoc)
    ensures roadmap == RoadmapFor(aiResponse, parse)
  {
    var text := Unfenced(aiResponse);
    var jsonBlocks := ExtractJson(text);
    var parsed := SelectBlock(jsonBlocks, parse);
    var normalised := NormaliseParsed(parsed);
    if normalised.Threw? {
      return ParseFailure(aiResponse);
    }
    roadmap := Document(normalised.value);
  }

  /**
   * The statements after the selection: unwrap, rewrite the phases in
   * place, then the milestones; a throw anywhere ends the attempt.
   */
  method NormaliseParsed(parsed: Option<Json>) returns (r: Attempt<Json>)
    ensures r == NormaliseRoadmap(parsed)
  {
    if !Truthy(parsed) {
      return Threw;
    }
    var doc := parsed.value;
    if Truthy(Prop(parsed.value, "Project Roadmap")) {
      doc := Prop(parsed.value, "Project Roadmap").value;
    }
    var phases := Prop(doc, "Phases");
    if IsArray(phases) {
      var normalised := MapAttempt(phases.value.items, NormalisePhase);
      if normalised.Threw? {
        return Threw;
      }
      doc := Assign(doc, "Phases", JArr(PhasesJson(normalised.value)));
    }
    assert WithPhases(Unwrap(parsed.value)) == Ok(doc);
    var milestones := MilestoneSource(doc);
    if milestones.Some? {
      var normalised := MapAttempt(milestones.value, NormaliseMilestone);
      if normalised.Threw? {
        return Threw;
      }
      doc := Assign(doc, "Milestones", JArr(MilestonesJson(normalised.value)));
    }
    r := Ok(doc);
  }
}
