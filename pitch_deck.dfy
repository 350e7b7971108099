/**
 * The parse step of `POST /api/ai/generate-pitch-deck`. The blocks of the
 * unfenced text are extracted and the first one that parses is taken, as
 * for the roadmap. Slides are then read from the first shape that matches:
 *
 *   1. a `pitch_deck` array of slides;
 *   2. a `Slides` array whose items each hold one "Slide ..." member;
 *   3. a top-level array: the "Slide..." members of its first element when
 *      it has any, otherwise every element is a slide;
 *   4. an object: its "Slide..." members.
 *
 * Every slide is finally rewritten onto seven fixed members. Any throw
 * replaces the deck by the raw text flagged `parseError`.
 */
module PitchDeck {
  import opened JsValues
  import opened JsStrings
  import opened BlockExtractor
  import opened BlockSelection

  /** `Slide ${idx + 1}`. */
  function SlideLabel(idx: nat): (r: Json)
    ensures r.JStr? && Truthy(Some(r))
  {
    JStr("Slide " + NatToString(idx + 1))
  }

  /**
   * `{...base, ...v}` for the object literals of the slide maps: each member
   * of an object `v` overrides the member of that name or is added at the
   * end. Spreading a string or an array adds index-named members, which
   * nothing downstream reads, and spreading a number or a boolean adds
   * nothing; both leave `base` here.
   */
  function Spread(base: seq<(string, Json)>, v: Json): seq<(string, Json)>
  {
    if v.JObj? then SpreadFields(base, v.fields) else base
  }

  function SpreadFields(base: seq<(string, Json)>, fields: seq<(string, Json)>): seq<(string, Json)>
    decreases |fields|
  {
    if fields == [] then base
    else SpreadFields(SetField(base, fields[0].0, fields[0].1), fields[1..])
  }

  /** After a spread, a name the spread object carries reads its value; any other name reads the base. */
  lemma {:induction false} SpreadFieldsLookup(base: seq<(string, Json)>, fields: seq<(string, Json)>, key: string)
    requires DistinctNames(fields)
    ensures Lookup(SpreadFields(base, fields), key) ==
      if Lookup(fields, key).Some? then Lookup(fields, key) else Lookup(base, key)
    decreases |fields|
  {
    if fields != [] {
      assert DistinctNames(fields[1..]) by {
        forall i, j | 0 <= i < j < |fields[1..]| ensures fields[1..][i].0 != fields[1..][j].0 {
          assert fields[1..][i] == fields[i + 1] && fields[1..][j] == fields[j + 1];
        }
      }
      SpreadFieldsLookup(SetField(base, fields[0].0, fields[0].1), fields[1..], key);
      if fields[0].0 == key {
        LookupAbsent(fields[1..], key);
      }
    }
  }

  // ---------------------------------------------------------------------
  // The slide builders of the four shapes
  // ---------------------------------------------------------------------

  /** The five members every slide builder writes, in the order it writes them. */
  function Built(title: Json, headline: Json, keyPoints: Json, supportingData: Json, visualSuggestion: Json)
    : seq<(string, Json)>
  {
    [("title", title), ("headline", headline), ("keyPoints", keyPoints),
     ("supportingData", supportingData), ("visualSuggestion", visualSuggestion)]
  }

  /** Each of the five members reads back, and every other name is absent. */
  lemma BuiltLookup(title: Json, headline: Json, keyPoints: Json, supportingData: Json, visualSuggestion: Json,
                    key: string)
    ensures Lookup(Built(title, headline, keyPoints, supportingData, visualSuggestion), key) ==
      if key == "title" then Some(title)
      else if key == "headline" then Some(headline)
      else if key == "keyPoints" then Some(keyPoints)
      else if key == "supportingData" then Some(supportingData)
      else if key == "visualSuggestion" then Some(visualSuggestion)
      else None
  {
    var fs := Built(title, headline, keyPoints, supportingData, visualSuggestion);
    assert DistinctNames(fs);
    if key == "title" {
      LookupDistinct(fs, 0);
    } else if key == "headline" {
      LookupDistinct(fs, 1);
    } else if key == "keyPoints" {
      LookupDistinct(fs, 2);
    } else if key == "supportingData" {
      LookupDistinct(fs, 3);
    } else if key == "visualSuggestion" {
      LookupDistinct(fs, 4);
    } else {
      LookupAbsent(fs, key);
    }
  }

  /** Shape 1, one `pitch_deck` item. */
  function DeckItem(item: Json, idx: nat): Attempt<Json>
  {
    if item.JNull? then Threw
    else Ok(JObj(Spread(Built(
      OrDefault(Or(Prop(item, "title"), Prop(item, "Title")), SlideLabel(idx)),
      OrEmpty(Or(Or(Prop(item, "headline"), Prop(item, "Headline")), Prop(item, "title"))),
      OrDefault(Or(Or(Prop(item, "key_points"), Prop(item, "Key Points")), Prop(item, "keyPoints")), JArr([])),
      OrEmpty(Or(Or(Prop(item, "supporting_data"), Prop(item, "Supporting Data")), Prop(item, "supportingData"))),
      OrEmpty(Or(Or(Or(Prop(item, "visual_suggestions"), Prop(item, "Visual Suggestions")),
                    Prop(item, "visualSuggestion")), Prop(item, "visual_suggestion")))),
      item)))
  }

  /**
   * A slide stored under a "Slide ..." member: the member name is the title,
   * and the slide data is spread over the defaults. Reading from `null` or
   * `undefined` data throws.
   */
  function KeyedSlide(key: string, slideData: Option<Json>): Attempt<Json>
  {
    if slideData.None? || slideData.value.JNull? then Threw
    else
      var d := slideData.value;
      Ok(JObj(Spread(Built(
        JStr(key),
        Or(Or(Prop(d, "Headline"), Prop(d, "headline")), Some(JStr(key))).value,
        OrDefault(Or(Prop(d, "Key Points"), Prop(d, "keyPoints")), JArr([])),
        OrEmpty(Or(Prop(d, "Supporting Data"), Prop(d, "supportingData"))),
        OrEmpty(Or(Or(Prop(d, "Visual Suggestions"), Prop(d, "Visual Suggestion")), Prop(d, "visualSuggestion")))),
        d)))
  }

  /**
   * The member names of `Object.keys(v)` that can hold "Slide": those of an
   * object. A string or an array has only index names and a number or a
   * boolean none, so they contribute nothing.
   */
  function NamedKeys(v: Json): seq<string>
  {
    if v.JObj? then Keys(v.fields) else []
  }

  /** `keys.find(k => k.includes('Slide'))`. */
  function FindSlideKey(keys: seq<string>): (r: Option<string>)
    ensures r.Some? ==> Contains(r.value, "Slide") && r.value in keys
    ensures r.None? ==> forall k :: k in keys ==> !Contains(k, "Slide")
  {
    if keys == [] then None
    else if Contains(keys[0], "Slide") then Some(keys[0])
    else FindSlideKey(keys[1..])
  }

  /** `keys.filter(k => k.startsWith('Slide'))`. */
  function SlideKeys(keys: seq<string>): (r: seq<string>)
    ensures forall k :: k in r ==> "Slide" <= k && k in keys
    ensures forall k :: k in keys && "Slide" <= k ==> k in r
  {
    if keys == [] then []
    else if "Slide" <= keys[0] then [keys[0]] + SlideKeys(keys[1..])
    else SlideKeys(keys[1..])
  }

  /** Shape 2, one `Slides` item: its first member whose name holds "Slide", or a plain fallback. */
  function SlidesItem(item: Json, idx: nat): Attempt<Json>
  {
    if item.JNull? then Threw
    else
      match FindSlideKey(NamedKeys(item))
      case Some(key) => KeyedSlide(key, Prop(item, key))
      case None => Ok(JObj(Built(
        OrDefault(Prop(item, "title"), SlideLabel(idx)),
        OrEmpty(Prop(item, "headline")),
        OrDefault(Prop(item, "keyPoints"), JArr([])),
        OrEmpty(Prop(item, "supportingData")),
        OrEmpty(Prop(item, "visualSuggestion")))))
  }

  /** Shape 3 without slide members: one element of the top-level array. */
  function ArrayItem(item: Json, idx: nat): Attempt<Json>
  {
    if item.JNull? then Threw
    else Ok(JObj(Spread(Built(
      OrDefault(Or(Prop(item, "title"), Prop(item, "Title")), SlideLabel(idx)),
      OrEmpty(Or(Prop(item, "headline"), Prop(item, "Headline"))),
      OrDefault(Or(Or(Prop(item, "key_points"), Prop(item, "Key Points")), Prop(item, "keyPoints")), JArr([])),
      OrEmpty(Or(Or(Prop(item, "supporting_data"), Prop(item, "Supporting Data")), Prop(item, "supportingData"))),
      OrEmpty(Or(Or(Prop(item, "visual_suggestions"), Prop(item, "Visual Suggestions")), Prop(item, "visualSuggestion")))),
      item)))
  }

  /** `slideKeys.map(key => ...)` over the members of `container`. */
  function KeyedSlides(container: Json, keys: seq<string>): (r: Attempt<seq<Json>>)
    ensures r.Threw? <==> exists i :: 0 <= i < |keys| && KeyedSlide(keys[i], Prop(container, keys[i])).Threw?
    ensures r.Ok? ==> |r.value| == |keys|
    ensures r.Ok? ==> forall i :: 0 <= i < |keys| ==> KeyedSlide(keys[i], Prop(container, keys[i])) == Ok(r.value[i])
  {
    if keys == [] then Ok([])
    else
      var init := KeyedSlides(container, keys[..|keys| - 1]);
      var last := KeyedSlide(keys[|keys| - 1], Prop(container, keys[|keys| - 1]));
      assert forall i :: 0 <= i < |keys| - 1 ==> keys[i] == keys[..|keys| - 1][i];
      if init.Threw? || last.Threw? then Threw else Ok(init.value + [last.value])
  }

  /** `typeof v === 'object'`: objects, arrays and `null`. */
  predicate IsObjectType(v: Json)
  {
    v.JObj? || v.JArr? || v.JNull?
  }

  /** The slides before the final rewrite, from the first shape that matches a truthy parsed value. */
  function RawSlides(parsed: Json): Attempt<seq<Json>>
  {
    if IsArray(Prop(parsed, "pitch_deck")) then MapIndexed(Prop(parsed, "pitch_deck").value.items, DeckItem)
    else if IsArray(Prop(parsed, "Slides")) then MapIndexed(Prop(parsed, "Slides").value.items, SlidesItem)
    else if parsed.JArr? then
      if |parsed.items| > 0 && IsObjectType(parsed.items[0]) then
        var firstItem := parsed.items[0];
        if firstItem.JNull? then Threw
        else
          var slideKeys := SlideKeys(NamedKeys(firstItem));
          if |slideKeys| > 0 then KeyedSlides(firstItem, slideKeys)
          else MapIndexed(parsed.items, ArrayItem)
      else Ok([])
    else if parsed.JObj? then
      var slideKeys := SlideKeys(NamedKeys(parsed));
      if |slideKeys| > 0 then KeyedSlides(parsed, slideKeys) else Ok([])
    else Ok([])
  }

  /** `keys.filter(k => k.startsWith('Slide'))` keeps every key when they all start with "Slide". */
  lemma {:induction false} SlideKeysKeepsAll(keys: seq<string>)
    requires forall i :: 0 <= i < |keys| ==> "Slide" <= keys[i]
    ensures SlideKeys(keys) == keys
  {
    if keys != [] {
      SlideKeysKeepsAll(keys[1..]);
      assert keys == [keys[0]] + keys[1..];
    }
  }

  /** With no key starting with "Slide", the filter keeps nothing. */
  lemma {:induction false} SlideKeysNone(keys: seq<string>)
    requires forall i :: 0 <= i < |keys| ==> !("Slide" <= keys[i])
    ensures SlideKeys(keys) == []
  {
    if keys != [] {
      SlideKeysNone(keys[1..]);
    }
  }

  /** Members named "Slide ...", each name once, none of them the `Slides` wrapper. */
  predicate SlideMembersOnly(fields: seq<(string, Json)>)
  {
    && DistinctNames(fields)
    && forall i :: 0 <= i < |fields| ==> "Slide" <= fields[i].0 && fields[i].0 != "Slides"
  }

  /** The same slides as Watson's `Slides` array lays them out: one single-member object per slide. */
  function Wrapped(fields: seq<(string, Json)>): (r: seq<Json>)
    ensures |r| == |fields| && forall i :: 0 <= i < |fields| ==> r[i] == JObj([fields[i]])
  {
    seq(|fields|, i requires 0 <= i < |fields| => JObj([fields[i]]))
  }

  /** A wrapped item is read exactly as the member it wraps is read from the object layout. */
  lemma WrappedItem(fields: seq<(string, Json)>, i: nat)
    requires SlideMembersOnly(fields) && i < |fields|
    ensures SlidesItem(Wrapped(fields)[i], i) == KeyedSlide(fields[i].0, Prop(JObj(fields), fields[i].0))
  {
    var key := fields[i].0;
    assert Contains(key, "Slide");
    assert NamedKeys(JObj([fields[i]])) == [key];
    assert FindSlideKey([key]) == Some(key);
    LookupDistinct(fields, i);
  }

  /** The object layout has neither a `pitch_deck` nor a `Slides` member. */
  lemma NoWrapperMembers(fields: seq<(string, Json)>)
    requires SlideMembersOnly(fields)
    ensures Prop(JObj(fields), "pitch_deck") == None && Prop(JObj(fields), "Slides") == None
  {
    forall i | 0 <= i < |fields| ensures fields[i].0 != "pitch_deck" {
      assert fields[i].0[0] == 'S';
    }
    LookupAbsent(fields, "pitch_deck");
    LookupAbsent(fields, "Slides");
  }

  /** An array holding the object of "Slide ..." members gives the slides the object gives. */
  lemma ArrayLayoutAgrees(fields: seq<(string, Json)>)
    requires SlideMembersOnly(fields) && |fields| > 0
    ensures RawSlides(JArr([JObj(fields)])) == RawSlides(JObj(fields))
  {
    NoWrapperMembers(fields);
    SlideKeysKeepsAll(Keys(fields));
  }

  /**
   * Watson's `Slides` array of single-member objects gives the slides the
   * object of those members gives.
   */
  lemma SlidesLayoutAgrees(fields: seq<(string, Json)>)
    requires SlideMembersOnly(fields) && |fields| > 0
    ensures RawSlides(JObj([("Slides", JArr(Wrapped(fields)))])) == RawSlides(JObj(fields))
  {
    var obj := JObj(fields);
    var keys := Keys(fields);
    NoWrapperMembers(fields);
    SlideKeysKeepsAll(keys);
    assert RawSlides(obj) == KeyedSlides(obj, keys);
    var a := MapIndexed(Wrapped(fields), SlidesItem);
    var b := KeyedSlides(obj, keys);
    forall i | 0 <= i < |fields|
      ensures SlidesItem(Wrapped(fields)[i], i) == KeyedSlide(keys[i], Prop(obj, keys[i]))
    {
      WrappedItem(fields, i);
    }
    assert a.Threw? <==> b.Threw?;
    if a.Ok? {
      assert a.value == b.value;
    }
    SlidesWrapper(Wrapped(fields));
  }

  /** An object with only a `Slides` array is read item by item from that array. */
  lemma SlidesWrapper(items: seq<Json>)
    ensures RawSlides(JObj([("Slides", JArr(items))])) == MapIndexed(items, SlidesItem)
  {
    var fields := [("Slides", JArr(items))];
    assert fields[0].0 != "pitch_deck";
    LookupAbsent(fields, "pitch_deck");
    LookupDistinct(fields, 0);
  }

  /** Scalars, an empty array and an object without slide members give no slides. */
  lemma NothingToRead(parsed: Json)
    requires parsed.JStr? || parsed.JNum? || parsed.JBool? || parsed == JArr([]) ||
      (parsed.JObj? && forall i :: 0 <= i < |parsed.fields| ==> !("Slide" <= parsed.fields[i].0) && parsed.fields[i].0 != "pitch_deck")
    ensures RawSlides(parsed) == Ok([])
  {
    if parsed.JObj? {
      LookupAbsent(parsed.fields, "pitch_deck");
      LookupAbsent(parsed.fields, "Slides");
      SlideKeysNone(NamedKeys(parsed));
    }
  }

  // ---------------------------------------------------------------------
  // The final rewrite
  // ---------------------------------------------------------------------

  /** A slide of the response: seven members, key points always an array. */
  datatype Slide = Slide(title: Json, headline: Json, keyPoints: seq<Json>, content: Json,
                         supportingData: Json, visualSuggestion: Json, slideType: Json)

  /** What the final rewrite guarantees of every slide. */
  predicate Finished(s: Slide)
  {
    && Truthy(Some(s.title)) && Truthy(Some(s.slideType))
    && (Truthy(Some(s.headline)) || s.headline == JStr(""))
    && (Truthy(Some(s.content)) || s.content == JStr(""))
    && (Truthy(Some(s.supportingData)) || s.supportingData == JStr(""))
    && (Truthy(Some(s.visualSuggestion)) || s.visualSuggestion == JStr(""))
  }

  /** `Array.isArray(a) ? a : Array.isArray(b) ? b : []`. */
  function FirstArray(a: Option<Json>, b: Option<Json>): seq<Json>
  {
    if IsArray(a) then a.value.items else if IsArray(b) then b.value.items else []
  }

  /** The callback of the final `slides.map`. */
  function FinalSlide(slide: Json, idx: nat): (r: Slide)
    ensures Finished(r)
  {
    Slide(
      OrDefault(Or(Prop(slide, "title"), Prop(slide, "Title")), SlideLabel(idx)),
      OrEmpty(Or(Prop(slide, "headline"), Prop(slide, "Headline"))),
      FirstArray(Prop(slide, "Key Points"), Prop(slide, "keyPoints")),
      OrEmpty(Or(Prop(slide, "content"), Prop(slide, "Content"))),
      OrEmpty(Or(Prop(slide, "Supporting Data"), Prop(slide, "supportingData"))),
      OrEmpty(Or(Prop(slide, "Visual Suggestions"), Prop(slide, "visualSuggestion"))),
      OrDefault(Or(Prop(slide, "type"), Prop(slide, "Type")), JStr("default")))
  }

  /** The final map: one slide per raw slide, in order. */
  function FinalSlides(raw: seq<Json>): (r: seq<Slide>)
    ensures |r| == |raw| && forall i :: 0 <= i < |raw| ==> r[i] == FinalSlide(raw[i], i)
  {
    seq(|raw|, i requires 0 <= i < |raw| => FinalSlide(raw[i], i))
  }

  function SlideMembers(s: Slide): seq<(string, Json)>
  {
    [("title", s.title), ("headline", s.headline), ("keyPoints", JArr(s.keyPoints)), ("content", s.content),
     ("supportingData", s.supportingData), ("visualSuggestion", s.visualSuggestion), ("type", s.slideType)]
  }

  /** The object sent for a slide. */
  function SlideJson(s: Slide): Json
  {
    JObj(SlideMembers(s))
  }

  /** The slide object carries each member under its own name. */
  lemma SlideJsonNames(s: Slide)
    ensures var v := SlideJson(s);
      && Prop(v, "title") == Some(s.title) && Prop(v, "headline") == Some(s.headline)
      && Prop(v, "keyPoints") == Some(JArr(s.keyPoints)) && Prop(v, "content") == Some(s.content)
      && Prop(v, "supportingData") == Some(s.supportingData)
      && Prop(v, "visualSuggestion") == Some(s.visualSuggestion) && Prop(v, "type") == Some(s.slideType)
  {
    var fs := SlideMembers(s);
    assert DistinctNames(fs);
    LookupDistinct(fs, 0);
    LookupDistinct(fs, 1);
    LookupDistinct(fs, 2);
    LookupDistinct(fs, 3);
    LookupDistinct(fs, 4);
    LookupDistinct(fs, 5);
    LookupDistinct(fs, 6);
  }

  /** The slide object has none of the alias names the final map also reads. */
  lemma SlideJsonAliases(s: Slide)
    ensures var v := SlideJson(s);
      && Prop(v, "Title") == None && Prop(v, "Headline") == None && Prop(v, "Key Points") == None
      && Prop(v, "Content") == None && Prop(v, "Supporting Data") == None
      && Prop(v, "Visual Suggestions") == None && Prop(v, "Type") == None
  {
    var fs := SlideMembers(s);
    LookupAbsent(fs, "Title");
    LookupAbsent(fs, "Headline");
    LookupAbsent(fs, "Key Points");
    LookupAbsent(fs, "Content");
    LookupAbsent(fs, "Supporting Data");
    LookupAbsent(fs, "Visual Suggestions");
    LookupAbsent(fs, "Type");
  }

  /** The final rewrite is idempotent: a finished slide, sent and rewritten again, is unchanged. */
  lemma RewriteIsIdempotent(s: Slide, idx: nat)
    requires Finished(s)
    ensures FinalSlide(SlideJson(s), idx) == s
  {
    SlideJsonNames(s);
    SlideJsonAliases(s);
  }

  /** A slide with nothing recognisable gets every default: `Slide i+1`, no points, type 'default'. */
  lemma FinalSlideDefaults(idx: nat)
    ensures FinalSlide(JObj([]), idx) ==
      Slide(SlideLabel(idx), JStr(""), [], JStr(""), JStr(""), JStr(""), JStr("default"))
  {
  }

  /**
   * A `pitch_deck` item with only a title: the title doubles as the
   * headline and everything else takes its default.
   */
  lemma TitleOnlyItem(t: string, idx: nat)
    requires t != ""
    ensures DeckItem(JObj([("title", JStr(t))]), idx).Ok?
    ensures FinalSlide(DeckItem(JObj([("title", JStr(t))]), idx).value, idx) ==
      Slide(JStr(t), JStr(t), [], JStr(""), JStr(""), JStr(""), JStr("default"))
  {
    var base := Built(JStr(t), JStr(t), JArr([]), JStr(""), JStr(""));
    TitleOnlyBuilt(t, idx);
    TitleOnlyFinal(t, idx, SetField(base, "title", JStr(t)));
  }

  /** The builder's side of `TitleOnlyItem`: the title fills title and headline, the spread rewrites the title. */
  lemma TitleOnlyBuilt(t: string, idx: nat)
    requires t != ""
    ensures DeckItem(JObj([("title", JStr(t))]), idx) ==
      Ok(JObj(SetField(Built(JStr(t), JStr(t), JArr([]), JStr(""), JStr("")), "title", JStr(t))))
  {
    var item := JObj([("title", JStr(t))]);
    var fs := item.fields;
    LookupDistinct(fs, 0);
    LookupAbsent(fs, "Title");
    LookupAbsent(fs, "headline");
    LookupAbsent(fs, "Headline");
    LookupAbsent(fs, "key_points");
    LookupAbsent(fs, "Key Points");
    LookupAbsent(fs, "keyPoints");
    LookupAbsent(fs, "supporting_data");
    LookupAbsent(fs, "Supporting Data");
    LookupAbsent(fs, "supportingData");
    LookupAbsent(fs, "visual_suggestions");
    LookupAbsent(fs, "Visual Suggestions");
    LookupAbsent(fs, "visualSuggestion");
    LookupAbsent(fs, "visual_suggestion");
    var base := Built(JStr(t), JStr(t), JArr([]), JStr(""), JStr(""));
    assert DeckItem(item, idx) == Ok(JObj(Spread(base, item)));
    assert fs[1..] == [];
    assert SpreadFields(base, fs) == SpreadFields(SetField(base, "title", JStr(t)), []);
  }

  /** The final map's side of `TitleOnlyItem`. */
  lemma TitleOnlyFinal(t: string, idx: nat, spread: seq<(string, Json)>)
    requires t != ""
    requires spread == SetField(Built(JStr(t), JStr(t), JArr([]), JStr(""), JStr("")), "title", JStr(t))
    ensures FinalSlide(JObj(spread), idx) == Slide(JStr(t), JStr(t), [], JStr(""), JStr(""), JStr(""), JStr("default"))
  {
    var v := JObj(spread);
    var base := Built(JStr(t), JStr(t), JArr([]), JStr(""), JStr(""));
    BuiltLookup(JStr(t), JStr(t), JArr([]), JStr(""), JStr(""), "headline");
    BuiltLookup(JStr(t), JStr(t), JArr([]), JStr(""), JStr(""), "Headline");
    BuiltLookup(JStr(t), JStr(t), JArr([]), JStr(""), JStr(""), "Title");
    BuiltLookup(JStr(t), JStr(t), JArr([]), JStr(""), JStr(""), "Key Points");
    BuiltLookup(JStr(t), JStr(t), JArr([]), JStr(""), JStr(""), "keyPoints");
    BuiltLookup(JStr(t), JStr(t), JArr([]), JStr(""), JStr(""), "content");
    BuiltLookup(JStr(t), JStr(t), JArr([]), JStr(""), JStr(""), "Content");
    BuiltLookup(JStr(t), JStr(t), JArr([]), JStr(""), JStr(""), "Supporting Data");
    BuiltLookup(JStr(t), JStr(t), JArr([]), JStr(""), JStr(""), "supportingData");
    BuiltLookup(JStr(t), JStr(t), JArr([]), JStr(""), JStr(""), "Visual Suggestions");
    BuiltLookup(JStr(t), JStr(t), JArr([]), JStr(""), JStr(""), "visualSuggestion");
    BuiltLookup(JStr(t), JStr(t), JArr([]), JStr(""), JStr(""), "type");
    BuiltLookup(JStr(t), JStr(t), JArr([]), JStr(""), JStr(""), "Type");
  }

  // ---------------------------------------------------------------------
  // The whole step
  // ---------------------------------------------------------------------

  /** From the selected value (`null` when no block parsed) to the slides. */
  function DeckSlides(parsed: Option<Json>): (r: Attempt<seq<Slide>>)
    ensures r.Ok? ==> Truthy(parsed) && RawSlides(parsed.value).Ok? && |r.value| == |RawSlides(parsed.value).value|
    ensures r.Ok? ==> forall i :: 0 <= i < |r.value| ==> Finished(r.value[i])
  {
    if !Truthy(parsed) then Threw
    else
      match RawSlides(parsed.value)
      case Threw => Threw
      case Ok(raw) => Ok(FinalSlides(raw))
  }

  /** The `pitchDeck` member of the response. */
  datatype PitchDeckDoc = Deck(slides: seq<Slide>) | DeckParseFailure(rawContent: string)

  function PitchDeckFor(aiResponse: string, parse: string -> Option<Json>): (r: PitchDeckDoc)
    ensures r.DeckParseFailure? ==> r.rawContent == aiResponse
  {
    match DeckSlides(Selected(Blocks(Unfenced(aiResponse)), parse))
    case Ok(slides) => Deck(slides)
    case Threw => DeckParseFailure(aiResponse)
  }

  /** The parse step of the route: extraction and selection loops, then the slide maps. */
  method ParsePitchDeck(aiResponse: string, parse: string -> Option<Json>) returns (pitchDeck: PitchDeckDoc)
    ensures pitchDeck == PitchDeckFor(aiResponse, parse)
  {
    var text := Unfenced(aiResponse);
    var jsonBlocks := ExtractJson(text);
    var parsed := SelectBlock(jsonBlocks, parse);
    match DeckSlides(parsed)
    case Ok(slides) => pitchDeck := Deck(slides);
    case Threw => pitchDeck := DeckParseFailure(aiResponse);
  }
}
