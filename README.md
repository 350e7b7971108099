# AI Innovation Planner — a Dafny model of its core

This project models the parts of the AI Innovation Planner that turn text
into structured documents. Each part is stated in Dafny and proved.

- **Server routes in `server/src/routes/ai.js`.**
  - Four routes: idea generation, roadmap, pitch deck and idea enhancement.
  - Cleaning the model's completion text.
  - Finding JSON in that text with three different scanners:
    - the literal-aware `extractJSON` block scan;
    - the bracket counter of the idea route, with its repair of a truncated array;
    - the greedy `{...}` match of the enhancement route.
  - Picking the first block that parses.
  - Normalising the result into the shapes the client reads.
  - The error classification that decides between a fallback template (status 200) and a server error (status 500).
- **Google Trends endpoint in `server/src/index.js`.**
  - The live answer is mapped through optional chaining.
  - The fallback CSV parser.
  - The export request check.
- **Idea store in `server/src/routes/ideas.js`.**
  - The suggestion stub.
  - Save, both the merge-by-title upsert and the plain create.
  - The favourites and all-ideas listings, newest first.
- **Client in `client/src/SmartIdeaFinder.jsx`.**
  - `generateIdea`, which turns a trend name into an idea.
  - Building the idea list from the top and rising trends.
  - The saved toggle.

JavaScript values are modelled by `JsValues.Json`. Integers are unbounded and objects are ordered member lists.

`JsValues` also models:
- truthiness and `||`;
- property reads that throw on `null`;
- `map` callbacks that may throw.

`JSON.parse` is a parameter (`string -> Option<Json>`), so every result holds for any parser.

Upstream services are modelled as inputs: the retrieval service, the completion service, Google Trends and MongoDB's connection state.

Modules, one per file:

- `JsValues` and `JsStrings`: JavaScript value and string semantics used by the rest.
- `BlockExtractor` and `JsonText`: `extractJSON` and what it finds in compactly rendered JSON.
- `JsonLayout`: the same results for JSON texts in any layout: whitespace between tokens (pretty-printed answers) and any backslash escape in string literals. The compact rendering is proved to be one such layout.
- `BlockSelection`: comment stripping and the first-parse-wins selection loop.
- `IdeaList`: cleaning, the bracket counter, the repair, and idea normalisation.
- `Roadmap` and `PitchDeck`: the two normalisers.
- `AiRoutes`: the route handlers, their templates and the error classification.
- `TrendsServer`: `/api/trends` (live mapping and CSV fallback) and the `/api/export` check.
- `IdeaStore`: the `/api/ideas` routes. Save is a method of the `Collection` class, proved against the `AfterSave` function.
- `TrendIdeas`: the client's trend-to-idea code. An idea from `generateIdea` is kept as its name, type and chosen branch; `TrendIdea.Title()` and `TrendIdea.Description()` give the two strings `generateIdea` returns, and a list entry holds the idea in place of its spread `title` and `description`.

Where the code departs from what its comments or names suggest, the model follows the code:
- The roadmap fallback template uses the lower-case names `phases` and `milestones`, and names its phases with `name` (`ai.js:429-441`). A parsed roadmap carries `Phases`, `Milestones` and `title` (`AiRoutes.TemplateNamesDiffer`).
- The enhancement route falls back on five markers; its list lacks the `watson` and `404` of the generation routes (`ai.js:839-846` against `ai.js:173-182`). A `404` therefore gives the generation routes their template but the enhancement route a 500 (`AiRoutes.NotFoundIsGenerationOnly`).
- The completion client prefixes the errors of the call itself, but a client that was never set up throws `Watson client not initialized. Please check your credentials.` without the prefix (`watsonService.js:42-44`). That message names `watson`, so the generation routes fall back and the enhancement route answers 500 (`AiRoutes.UninitialisedClientFallsBack`, `AiRoutes.UninitialisedClientFailsEnhancement`).
- The idea route is modelled with its repair slice as written (`IdeaList.IdeasFor`), which loses the opening bracket of a repaired array that does not start the text (see "## Findings"). `IdeaList.IntendedIdeasFor` is the answer with the slice taken whole, and `IdeaList.RouteDiffersOnlyAfterRepair` says the two differ only in that case.
- The client sends `saved: !idea.saved` to `/api/ideas/save`, but the server stores `saved: true` whatever the body says (`IdeaStore.SaveAlwaysMarksSaved`).
- The client's save handler flips the idea's flag once the reply's body parses as JSON, without reading the status. The save route answers its refusals (a missing title, no database) with JSON bodies, so a refused save still shows as saved (`TrendIdeas.RefusedSaveStillMarked`, see "## Findings").
- The roadmap callbacks write `successMetrics` and `targetDate` but never read those names. Normalising a normalised roadmap again therefore resets both (`Roadmap.RenormalisePhase`, `Roadmap.RenormaliseMilestone`).

## Model

| member | source | states |
|---|---|---|
| JsValues.Or | server/src/routes/ai.js:142-148 | `a \|\| b` is truthy iff either operand is; it is `a` when `a` is truthy, else `b` |
| JsValues.OrDefault | server/src/routes/ai.js:371-377 | `a \|\| d` with a truthy default is never undefined and always truthy; it is `a` when `a` is truthy |
| JsValues.OrEmpty | server/src/routes/ai.js:385-386 | `a \|\| ''` is `a` when truthy, else the empty string |
| JsValues.LookupFinds | server/src/routes/ai.js:142-148 | a property read finds a value iff some member has that name, and then the first such member |
| JsValues.Access | server/src/routes/ai.js:141-149 | reading a property throws exactly when the value is `null`; otherwise it is the property's value |
| JsValues.SetField | server/src/routes/ai.js:370 | assigning a member makes it read back the new value, leaves every other name unchanged and grows the object by at most one member |
| JsValues.Keys | server/src/routes/ai.js:646 | `Object.keys` lists every member name, in order |
| JsValues.MapAttempt | server/src/routes/ai.js:370-378 | `xs.map(f)` throws iff some element's callback throws; otherwise it holds one image per element, in order |
| JsValues.MapIndexed | server/src/routes/ai.js:634-641 | the same for callbacks that take the index |
| JsStrings.TrimStart | server/src/routes/ai.js:94 | the result is a suffix of the text that is empty or starts with a non-whitespace character |
| JsStrings.TrimStartDropsSpaces | server/src/routes/ai.js:94 | every character removed from the front is whitespace |
| JsStrings.TrimEnd | server/src/routes/ai.js:94 | the result is a prefix of the text that is empty or ends with a non-whitespace character |
| JsStrings.TrimEndDropsSpaces | server/src/routes/ai.js:94 | every character removed from the end is whitespace |
| JsStrings.IndexOf | server/src/routes/ai.js:100 | `indexOf(c, from)` finds the first occurrence at or after `from`, or none when there is none |
| JsStrings.LastIndexOf | server/src/routes/ai.js:125 | `lastIndexOf(c)` finds the last occurrence, or none when there is none |
| JsStrings.StripMarker | server/src/routes/ai.js:90-91 | removing a marker with its trailing whitespace never lengthens the text |
| JsStrings.StripMarkerKeeps | server/src/routes/ai.js:90-91 | text in which no marker can start passes through the removal unchanged |
| JsStrings.NatToString | server/src/routes/ai.js:635 | the decimal form of a count is a non-empty string of digits |
| BlockExtractor.Step | server/src/routes/ai.js:286-322 | one scan step ends a block only on `]` or `}` outside a literal at depth zero; inside a literal only `"` matters; a backslash consumes the next character; an unescaped quote toggles the literal flag |
| BlockExtractor.BlockEnd | server/src/routes/ai.js:286-322 | where the scan ends a block, the last character is `]` or `}` |
| BlockExtractor.Run | server/src/routes/ai.js:286-322 | the scan over a stretch of text closes only on a closing character |
| BlockExtractor.RunConcat | server/src/routes/ai.js:286-322 | scanning `a + b` is scanning `a`, then `b` if the block is still open |
| BlockExtractor.BlockEndRun | server/src/routes/ai.js:286-322 | the index-based loop agrees with the stretch-based scan |
| BlockExtractor.NextOpener | server/src/routes/ai.js:268-275 | the scan resumes at the first `[` or `{` at or after the cursor, or stops when there is none |
| BlockExtractor.Spans | server/src/routes/ai.js:266-329 | every block found lies within the text, and the scan ends it exactly where the block ends |
| BlockExtractor.SpansOrdered | server/src/routes/ai.js:266-329 | blocks are found left to right without overlap, and the scan stops for good after the last one |
| BlockExtractor.BlocksFromStep | server/src/routes/ai.js:266-329 | each block found is followed by the blocks found from its end |
| BlockExtractor.BlocksFromStop | server/src/routes/ai.js:266-324 | with no opener left, or an opener that never closes, no further block is found |
| BlockExtractor.NoOpenerNoBlocks | server/src/routes/ai.js:272-273 | a text without `[` or `{` yields no block |
| BlockExtractor.BlocksShape | server/src/routes/ai.js:326-327 | every block starts with an opener, ends with a closer and is at least two characters long |
| BlockExtractor.UnclosedBlockHidesLaterBlocks | server/src/routes/ai.js:324 | an unclosed block stops the whole scan: `[{}` yields nothing, though `{}` alone is a block |
| BlockExtractor.FindBlockEnd | server/src/routes/ai.js:280-322 | the inner loop returns -1 iff the block never closes, and otherwise its end index |
| BlockExtractor.ExtractJson | server/src/routes/ai.js:262-332 | `extractJSON` returns exactly the blocks of the left-to-right scan |
| JsonText.EscapeRun | server/src/routes/ai.js:289-297 | escaped literal contents never end a block and leave the scan state as it was |
| JsonText.QuoteRun | server/src/routes/ai.js:289-304 | a quoted string is passed over whole, brackets inside it included |
| JsonText.RenderRun | server/src/routes/ai.js:286-322 | scanning the text of any JSON value starting at depth zero ends exactly at its last character when it is an array or object; at any other depth, and for a scalar, the scan leaves it in the state it entered |
| JsonText.ItemsRun | server/src/routes/ai.js:286-322 | array elements never end a block opened outside them |
| JsonText.MemberRun | server/src/routes/ai.js:286-322 | an object member never ends a block opened outside it |
| JsonText.MembersRun | server/src/routes/ai.js:286-322 | object members never end a block opened outside them |
| JsonText.RenderIsWholeBlock | server/src/routes/ai.js:286-322 | the compact text of every array and object is one whole block, whatever its string literals hold |
| JsonText.NextBlockIs | server/src/routes/ai.js:266-329 | when the first opener after the cursor starts a whole block, that block is the next one found |
| JsonText.LastBlock | server/src/routes/ai.js:266-329 | quiet text, one whole block, then quiet text: that block is all the scan finds |
| JsonText.OneBlock | server/src/routes/ai.js:262-332 | prose without openers around one whole block yields exactly that block |
| JsonText.TwoBlocks | server/src/routes/ai.js:262-332 | prose around two whole blocks yields exactly those two, in order |
| JsonText.EmbeddedJsonIsOneBlock | server/src/routes/ai.js:262-332 | the compact text of a JSON array or object, embedded in bracket-free prose, is returned as exactly one block, equal to that text |
| JsonText.SiblingJsonAreTwoBlocks | server/src/routes/ai.js:262-332 | the compact texts of two values separated by prose come back as two blocks, in order |
| JsonLayout.CharsRun | server/src/routes/ai.js:289-297 | string-literal contents with any backslash escape never end a block and leave the scan state as it was |
| JsonLayout.QuotedRun | server/src/routes/ai.js:289-304 | a string literal with any escapes is passed over whole |
| JsonLayout.LayoutRun | server/src/routes/ai.js:286-322 | scanning a JSON text in any layout (whitespace between tokens, any escapes) from depth zero ends exactly at its last character when it is an array or object; otherwise the scan leaves the state it entered |
| JsonLayout.ArrRun | server/src/routes/ai.js:306-321 | an array, whitespace inside its brackets included, is scanned one level deeper and closes the block exactly at its `]` at depth zero |
| JsonLayout.ObjRun | server/src/routes/ai.js:306-321 | an object, whitespace inside its braces included, is scanned one level deeper and closes the block exactly at its `}` at depth zero |
| JsonLayout.PaddedRun | server/src/routes/ai.js:286-322 | a value with whitespace before and after it never ends a block opened outside it |
| JsonLayout.PaddedListRun | server/src/routes/ai.js:286-322 | array elements in any layout never end a block opened outside them |
| JsonLayout.PairRun | server/src/routes/ai.js:286-322 | an object member with whitespace around its name, colon and value never ends a block opened outside it |
| JsonLayout.PairListRun | server/src/routes/ai.js:286-322 | object members in any layout never end a block opened outside them |
| JsonLayout.LayoutIsWholeBlock | server/src/routes/ai.js:286-322 | every well-formed array or object, pretty-printed or not, is one whole block |
| JsonLayout.EmbeddedTextIsOneBlock | server/src/routes/ai.js:262-332 | a JSON array or object in any layout, embedded in bracket-free prose, is returned as exactly one block, equal to its text |
| JsonLayout.SiblingTextsAreTwoBlocks | server/src/routes/ai.js:262-332 | two JSON texts in any layout, separated by bracket-free prose, come back as two blocks, in order |
| JsonLayout.LitChars | server/src/routes/ai.js:289-297 | escaping only `"` and `\` gives well-formed literal characters whose text is the compact escaping |
| JsonLayout.CompactIsRender | server/src/routes/ai.js:262-332 | the whitespace-free layout of a value is well formed and spells its compact text, so the compact results are a special case of the layout ones |
| JsonLayout.CompactItemsText | server/src/routes/ai.js:262-332 | the compact layout of array elements is well formed and spells their compact text |
| JsonLayout.CompactPairsText | server/src/routes/ai.js:262-332 | the compact layout of object members is well formed and spells their compact text |
| JsonLayout.PrettyPrintedExample | server/src/routes/ai.js:262-332 | the pretty-printed `{\n  "a": [1, 2]\n}` between two lines of prose is returned whole |
| JsonText.BracketInLiteralExample | server/src/routes/ai.js:299-321 | a `[x]` inside a string value neither splits the block nor cuts it short |
| BlockSelection.LineEnd | server/src/routes/ai.js:343 | `.*$` stops at the first line terminator, or at the end of the text |
| BlockSelection.StripLineCommentsLeavesNone | server/src/routes/ai.js:343 | after removing `//` comments, no `//` is left |
| BlockSelection.StripLineCommentsNoop | server/src/routes/ai.js:343 | a text without `//` is unchanged |
| BlockSelection.CommentClose | server/src/routes/ai.js:344 | finds the first `*/` at or after a position, or there is none |
| BlockSelection.StripBlockCommentsNoop | server/src/routes/ai.js:344 | a text without `/*` is unchanged |
| BlockSelection.StripCommentsNoop | server/src/routes/ai.js:342-345 | a block without comment markers or surrounding whitespace is parsed exactly as found |
| BlockSelection.CommentRunsToLineEnd | server/src/routes/ai.js:343 | comment removal ignores string literals: a `//` inside a URL removes the rest of the line, closing quote and brace included |
| BlockSelection.FirstParsedFrom | server/src/routes/ai.js:338-354 | the chosen block is the first one that parses once stripped; every earlier one fails to parse, and none means none parses |
| BlockSelection.LaterBlocksNotConsulted | server/src/routes/ai.js:350 | once a block parses, appending further blocks changes nothing |
| BlockSelection.NothingParsesNothingSelected | server/src/routes/ai.js:356-358 | with no block parsing, nothing is selected |
| BlockSelection.SelectBlock | server/src/routes/ai.js:337-354 | the selection loop returns the first parse that succeeds |
| BlockSelection.FirstOfSiblingsWins | server/src/routes/ai.js:334-354 | of two compactly written JSON documents in one answer, the first is taken however the second reads, given a parser that reads back the rendered text |
| BlockSelection.RenderedIsClean | server/src/routes/ai.js:342-345 | the compact text of an array or object without comment markers passes comment stripping unchanged |
| BlockSelection.FirstOfTwo | server/src/routes/ai.js:347-350 | when the first of two blocks parses, its parse is selected |
| IdeaList.DropLeadingQuotes | server/src/routes/ai.js:92 | removes the maximal run of leading quote characters, nothing more |
| IdeaList.DropTrailingQuotes | server/src/routes/ai.js:93 | removes the maximal run of trailing quote characters, nothing more |
| IdeaList.TidyEnds | server/src/routes/ai.js:92-94 | the quote and whitespace steps leave a tidy body alone, and drop a trailing line break |
| IdeaList.OpeningFenceGoes | server/src/routes/ai.js:90 | the first replacement removes the opening ```` ```json ```` fence and its line break |
| IdeaList.ClosingFenceGoes | server/src/routes/ai.js:91 | the second replacement removes the closing fence |
| IdeaList.FenceRoundTrip | server/src/routes/ai.js:89-94 | cleaning gives back a tidy body, whether bare or wrapped in a ```` ```json ```` fence |
| IdeaList.FirstBalanced | server/src/routes/ai.js:106-117 | the first end point at which the brackets counted from the start balance; all earlier points are unbalanced |
| IdeaList.FindArrayEnd | server/src/routes/ai.js:106-117 | the counting loop returns -1 iff the brackets never balance, and otherwise the first balancing end |
| IdeaList.CountingIgnoresLiterals | server/src/routes/ai.js:106-117 | on `["]"]` the counter stops after three characters while `extractJSON` takes all five |
| IdeaList.Repair | server/src/routes/ai.js:119-131 | a repaired text ends with a line break and `]` |
| IdeaList.Substring | server/src/routes/ai.js:134 | `substring` clamps both ends to the text and swaps reversed ends |
| IdeaList.AsWrittenDiffersOnlyAfterRepair | server/src/routes/ai.js:119-134 | the code as written and the corrected slice differ iff the array is repaired and does not start the text |
| IdeaList.RepairSliceCounterexample | server/src/routes/ai.js:127-134 | on `x[{}`, the corrected slice is `[{}\n]` while the code as written yields `{}\n]` |
| IdeaList.RepairAt | server/src/routes/ai.js:119-134 | with the first `[` at p, no `]` after it and the last `}` at q, the slice is the text from p to q plus a closing line |
| IdeaList.RepairKeepsCompleteObjects | server/src/routes/ai.js:119-134 | an array cut off inside an object keeps exactly the complete objects before the cut |
| IdeaList.ClosedAt | server/src/routes/ai.js:100-134 | a closed array is sliced from its `[` to its balancing end, both as written and corrected |
| IdeaList.ClosedArrayIsSliced | server/src/routes/ai.js:100-134 | a closed array after bracket-free prose is sliced out whole, whatever follows it |
| IdeaList.NormaliseIdea | server/src/routes/ai.js:141-149 | the mapping callback throws exactly on a `null` element |
| IdeaList.TitleCaseNamesWin | server/src/routes/ai.js:142-148 | for each of the six paired fields, the title-case name wins when truthy, else the camel-case one is taken; the score is `Innovation Score` when truthy, else `innovationScore` when truthy, else `score` |
| IdeaList.NoTitleCaseNamesSent | server/src/routes/ai.js:141-149 | the object sent carries none of the title-case names and no `score` |
| IdeaList.CamelCaseNamesSent | server/src/routes/ai.js:141-149 | the object sent carries every field under its camel-case name |
| IdeaList.RenormaliseKeepsIdea | server/src/routes/ai.js:141-149 | normalising what the route sends gives the entry back, except a falsy innovation score, which is lost |
| IdeaList.NormaliseAll | server/src/routes/ai.js:141-149 | the map throws iff some element is `null`; otherwise one normalised entry per element, in order |
| IdeaList.IdeasShape | server/src/routes/ai.js:84-163 | the route yields either the single placeholder, or one normalised entry per element of the array parsed from the slice as written |
| IdeaList.RouteDiffersOnlyAfterRepair | server/src/routes/ai.js:119-134 | the route's ideas differ from the intended ones only when a truncated array that does not start the cleaned text was repaired |
| IdeaList.RepairedRouteCounterexample | server/src/routes/ai.js:119-162 | on `x[{}`, any parser that rejects `{}\n]` makes the route answer the placeholder |
| IdeaList.RepairedRouteIntended | server/src/routes/ai.js:119-149 | on `x[{}`, the intended slice `[{}\n]` parsed as one empty object gives one idea with every field undefined |
| IdeaList.UnparsableGivesPlaceholder | server/src/routes/ai.js:150-162 | a slice, as written, that cannot be found, repaired or parsed as an array gives the placeholder |
| IdeaList.NormaliseEach | server/src/routes/ai.js:141-149 | the loop over elements equals the map |
| IdeaList.FirstJsonArray | server/src/routes/ai.js:100-134 | the method finds, counts, repairs and slices exactly as the as-written slice function, the repaired text cut from the old `firstArrayStart` |
| IdeaList.ParseIdeas | server/src/routes/ai.js:84-163 | the route's parse step, with the slice as written, equals its specification |
| IdeaList.ParseSlice | server/src/routes/ai.js:134-162 | the entries are the normalised elements of the parsed slice, or the single `Parsing Error` placeholder when there is no slice, it does not parse to an array, or an element read throws |
| Roadmap.NormalisePhase | server/src/routes/ai.js:370-378 | the phase callback throws exactly on `null`; otherwise every field of the phase is set |
| Roadmap.RepeatedRiskAliasIsRedundant | server/src/routes/ai.js:377 | the second read of `Potential Risks` never changes the result |
| Roadmap.PhaseAliasPrecedence | server/src/routes/ai.js:371-377 | every phase member is the first truthy of its names in the order the callback reads them (`Title`, `title`, `Phase`, and so on), else its default |
| Roadmap.AliasedPhasesAgree | server/src/routes/ai.js:371-372 | `{Title, Duration}` and `{title, duration}` with the same values give the same phase |
| Roadmap.PhaseDefaults | server/src/routes/ai.js:371-377 | a phase without recognised members becomes the default phase (`Phase`, `TBD`, empty lists) |
| Roadmap.NormaliseMilestone | server/src/routes/ai.js:383-387 | the milestone callback throws exactly on `null`; the name is truthy, and the date and description are truthy or empty |
| Roadmap.RenormalisePhase | server/src/routes/ai.js:370-378 | rewriting a rewritten phase keeps everything except its success metrics, which are reset because `successMetrics` is never read |
| Roadmap.PhaseJsonNames | server/src/routes/ai.js:370-378 | the rewritten phase object carries each field under its own name |
| Roadmap.PhaseJsonAliases | server/src/routes/ai.js:370-378 | the rewritten phase object carries none of the alias names the callback reads |
| Roadmap.RenormaliseMilestone | server/src/routes/ai.js:383-387 | rewriting a rewritten milestone keeps everything except its target date, which is reset because `targetDate` is never read |
| Roadmap.Assign | server/src/routes/ai.js:369-394 | the assignment sets one member and leaves every other one unchanged |
| Roadmap.MilestoneSource | server/src/routes/ai.js:382-394 | `Milestones` is read when it is an array, else `Key Milestones` when that is; when neither is an array there is nothing to rewrite |
| Roadmap.RoadmapFor | server/src/routes/ai.js:401-407 | a parse failure carries the raw completion |
| Roadmap.RoadmapFailsExactly | server/src/routes/ai.js:356-407 | the route fails over to the raw text exactly when nothing truthy was selected, or a phase or milestone it rewrites is `null` |
| Roadmap.PhasesRewrittenInPlace | server/src/routes/ai.js:369-379 | phases are rewritten one for one, in order, and every other member is kept |
| Roadmap.MilestonesRewritten | server/src/routes/ai.js:382-394 | the rewritten list always goes under `Milestones`, one entry per source milestone, and nothing else changes |
| Roadmap.WrapperIsTransparent | server/src/routes/ai.js:361-366 | a document wrapped in `Project Roadmap` normalises exactly as the document itself |
| Roadmap.ParseRoadmap | server/src/routes/ai.js:251-407 | the extraction, selection and normalisation loops together compute the roadmap specification |
| Roadmap.NormaliseParsed | server/src/routes/ai.js:356-395 | unwrapping, the phase rewrite and the milestone rewrite compute the normalisation specification, a throw included |
| PitchDeck.SlideLabel | server/src/routes/ai.js:635 | `Slide ${idx + 1}` is a non-empty string |
| PitchDeck.SpreadFieldsLookup | server/src/routes/ai.js:640 | after a spread, a name the spread object carries reads its value; any other name reads the base |
| PitchDeck.BuiltLookup | server/src/routes/ai.js:634-641 | the built slide reads back each of its five members, and nothing else |
| PitchDeck.FindSlideKey | server/src/routes/ai.js:646 | finds a key containing `Slide`, or none when no key contains it |
| PitchDeck.SlideKeys | server/src/routes/ai.js:672 | keeps exactly the keys starting with `Slide` |
| PitchDeck.KeyedSlides | server/src/routes/ai.js:676-686 | one slide per key, in order; it throws iff one key's slide throws |
| PitchDeck.SlideKeysKeepsAll | server/src/routes/ai.js:672 | when every key starts with `Slide`, all are kept |
| PitchDeck.SlideKeysNone | server/src/routes/ai.js:701 | when no key starts with `Slide`, none is kept |
| PitchDeck.WrappedItem | server/src/routes/ai.js:644-657 | an item of the `Slides` array is read exactly as the member it wraps |
| PitchDeck.ArrayLayoutAgrees | server/src/routes/ai.js:667-716 | an array holding the object of `Slide …` members gives the same slides as the object itself |
| PitchDeck.SlidesLayoutAgrees | server/src/routes/ai.js:642-716 | the `Slides` array of single-member objects gives the same slides as the object of those members |
| PitchDeck.SlidesWrapper | server/src/routes/ai.js:642-666 | an object holding only a `Slides` array is read item by item from that array |
| PitchDeck.NothingToRead | server/src/routes/ai.js:630-716 | scalars, an empty array and an object without slide members give no slides |
| PitchDeck.FinalSlide | server/src/routes/ai.js:722-731 | every slide leaving the final map is complete |
| PitchDeck.FinalSlides | server/src/routes/ai.js:721-732 | the final map yields one slide per raw slide, in order |
| PitchDeck.SlideJsonNames | server/src/routes/ai.js:722-731 | the slide object carries each field under its own name |
| PitchDeck.SlideJsonAliases | server/src/routes/ai.js:722-731 | the slide object carries none of the alias names the final map reads |
| PitchDeck.RewriteIsIdempotent | server/src/routes/ai.js:722-731 | rewriting a finished slide again leaves it unchanged |
| PitchDeck.FinalSlideDefaults | server/src/routes/ai.js:723-730 | an empty slide gets every default: `Slide i+1`, no points and type `default` |
| PitchDeck.TitleOnlyItem | server/src/routes/ai.js:633-731 | a `pitch_deck` item with only a title uses that title as the headline too; everything else takes its default |
| PitchDeck.TitleOnlyBuilt | server/src/routes/ai.js:634-641 | the builder fills title and headline from the title, and the spread writes the title back |
| PitchDeck.TitleOnlyFinal | server/src/routes/ai.js:722-731 | the final map's side of the title-only item |
| PitchDeck.DeckSlides | server/src/routes/ai.js:622-732 | slides come only from a truthy selection, one finished slide per raw slide |
| PitchDeck.PitchDeckFor | server/src/routes/ai.js:733-739 | a parse failure carries the raw completion |
| PitchDeck.ParsePitchDeck | server/src/routes/ai.js:517-739 | the route's loops together compute the pitch-deck specification |
| AiRoutes.CompletionErrorsFallBack | server/src/services/watsonService.js:101 | every rethrown completion error, whatever its detail, gives every route its template |
| AiRoutes.EnhancementListIsNarrower | server/src/routes/ai.js:839-846 | the enhancement route falls back only on messages the other routes would also fall back on |
| AiRoutes.NoMessageIsServerError | server/src/routes/ai.js:173 | an error without a message is never a fallback |
| AiRoutes.UninitialisedIsGenerationOnly | server/src/services/watsonService.js:42-44 | the unprefixed message of a client never set up falls back on the generation routes' markers, not on the enhancement route's |
| AiRoutes.UninitialisedClientFallsBack | server/src/services/watsonService.js:42-44 | that message gives the idea, roadmap and pitch-deck routes their templates, whether retrieval was skipped or answered |
| AiRoutes.UninitialisedClientFailsEnhancement | server/src/routes/ai.js:837-864 | that message gives the enhancement route a server error with status 500, whether retrieval was skipped or answered for a present idea |
| AiRoutes.NotFoundIsGenerationOnly | server/src/routes/ai.js:840-846 | a `404 Not Found` gives the generation routes their template but the enhancement route a 500 |
| AiRoutes.Status | server/src/routes/ai.js:183-195 | a reply's status is 200 or 500, and 500 exactly for a server error |
| AiRoutes.Recover | server/src/routes/ai.js:171-196 | the `catch` gives the template with its warning iff the message is classified as unavailable, otherwise a server error carrying the message |
| AiRoutes.Respond | server/src/routes/ai.js:46-197 | a route answers with the parsed document exactly when retrieval (unless skipped) and the completion answered; each failure goes through the `catch` |
| AiRoutes.FallbackBase | server/src/routes/ai.js:9-10 | the fallback base is `keywords` when non-empty, else the domain |
| AiRoutes.FallbackIdeas | server/src/routes/ai.js:9-40 | three fallback ideas with scores 7, 8 and 6 |
| AiRoutes.FallbackIdeasNameRequest | server/src/routes/ai.js:9-40 | every fallback title starts with `keywords \|\| domain`, and every description names the domain |
| AiRoutes.EmptyDomainIsKept | server/src/routes/ai.js:9 | an empty domain is kept, not replaced by `General`; only a missing domain is |
| AiRoutes.TemplateNamesDiffer | server/src/routes/ai.js:429-441 | the roadmap template uses `phases`, `milestones` and phase `name`s, not the names a parsed roadmap carries |
| AiRoutes.FallbackRoadmapShape | server/src/routes/ai.js:429-441 | the template has four phases of two objectives each, and four milestones |
| AiRoutes.TextOr | server/src/routes/ai.js:763-771 | a text field or its fallback when the field is missing or empty |
| AiRoutes.FallbackSlides | server/src/routes/ai.js:762-773 | ten numbered slides with the template's titles; only slides 1, 2, 5, 6 and 10 take request text |
| AiRoutes.TemplateReadsFiveFields | server/src/routes/ai.js:762-773 | the target market does not affect the template, and empty fields count as missing |
| AiRoutes.GreedySpan | server/src/routes/ai.js:826 | `/\{[\s\S]*\}/` spans from the first `{` to the last `}` after it, and matches nothing iff no `{` precedes a `}` |
| AiRoutes.GreedyCoversBoth | server/src/routes/ai.js:826 | with two objects in the answer, the greedy match takes both and everything between them |
| AiRoutes.Enhance | server/src/routes/ai.js:824-830 | the enhancement is the parse of the greedy match; what does not parse is sent back raw |
| AiRoutes.NoEnhancementMarker | server/src/routes/ai.js:840-846 | a text missing certain letters and letter pairs holds none of the five enhancement markers |
| AiRoutes.IdeaCompletionFailure | server/src/routes/ai.js:171-190 | a failed completion gives the idea route its fallback ideas with their warning |
| AiRoutes.RoadmapCompletionFailure | server/src/routes/ai.js:415-447 | a failed completion gives the roadmap template with its warning |
| AiRoutes.PitchDeckCompletionFailure | server/src/routes/ai.js:747-779 | a failed completion gives the pitch-deck template with its warning |
| AiRoutes.EnhanceCompletionFailure | server/src/routes/ai.js:837-864 | a failed completion gives the generic enhancement with its warning |
| AiRoutes.MissingIdeaNeverAnswered | server/src/routes/ai.js:794-799 | with retrieval on, a request without an idea never gets a document, whatever retrieval and the completion would give |
| AiRoutes.DocumentOnlyWhenAnswered | server/src/routes/ai.js:46-170 | the idea route answers with the ideas parsed from the slice as written exactly when both upstream calls answered |
| TrendsServer.Split | server/src/index.js:113 | `split(',')` yields at least one piece, and no piece holds the separator |
| TrendsServer.SplitJoin | server/src/index.js:113 | joining the pieces with the separator gives the text back |
| TrendsServer.JoinSplit | server/src/index.js:113 | splitting joined separator-free pieces gives the pieces back |
| TrendsServer.Lines | server/src/index.js:99 | `split(/\r?\n/)` yields one line per line break, plus one |
| TrendsServer.LinesRoundTrip | server/src/index.js:99 | lines joined with `\n` or `\r\n` split back into themselves |
| TrendsServer.Header | server/src/index.js:104-111 | a header names a section |
| TrendsServer.EntryOfFields | server/src/index.js:113-122 | a line `name,value` gives the trimmed pair iff both fields are non-empty before trimming |
| TrendsServer.ExtraFieldsIgnored | server/src/index.js:113 | fields after the second are ignored |
| TrendsServer.NoCommaNoEntry | server/src/index.js:113-114 | a line without a comma gives no entry |
| TrendsServer.Step | server/src/index.js:103-124 | one line only appends to the lists, and adds at most one entry |
| TrendsServer.ParseCsv | server/src/index.js:98-124 | the parsing loop yields exactly the lists of the line-by-line specification |
| TrendsServer.StepSection | server/src/index.js:104-111 | a header switches the section; any other line keeps it |
| TrendsServer.RunSection | server/src/index.js:100-111 | the section after a run of lines is the one named by its last header |
| TrendsServer.StepList | server/src/index.js:112-123 | a line appends its entry to a section's list exactly when it is a data line of that section |
| TrendsServer.EntriesComeFromDataLines | server/src/index.js:103-124 | every entry of a section comes from a data line under that section's header |
| TrendsServer.DataLinesAreEntries | server/src/index.js:103-124 | every data line under a section's header gives an entry of that section |
| TrendsServer.BlankHasNoComma | server/src/index.js:112-118 | a blank line holds no comma |
| TrendsServer.HeaderEmitsNothing | server/src/index.js:104-111 | a header line switches the section and adds nothing |
| TrendsServer.NothingOutsideASection | server/src/index.js:100-123 | outside a section, and on a blank line, nothing is added |
| TrendsServer.NoHeaderNoEntries | server/src/index.js:100-124 | a file without headers gives two empty lists |
| TrendsServer.ListsOnlyGrow | server/src/index.js:103-124 | the lists after any prefix of the lines are prefixes of the final lists |
| TrendsServer.Chain | server/src/index.js:65-79 | `?.` on a missing value or `null` is missing; on an object it reads the member |
| TrendsServer.ChainIndex | server/src/index.js:65-79 | `?.[k]` on an array is defined iff the index is in range, and is then the element |
| TrendsServer.OrDefaultZero | server/src/index.js:78 | `v \|\| 0` is `v` when truthy, else `0` |
| TrendsServer.MapOrEmpty | server/src/index.js:65-68 | `x?.map(f) \|\| []` is empty for a missing or `null` list, throws on a non-array, and maps an array |
| TrendsServer.LiveTrends | server/src/index.js:61-79 | a `null` answer throws; otherwise the top, rising and timeline lists are the three mapped lists |
| TrendsServer.RisingPrefersFormatted | server/src/index.js:70-73 | a rising entry's value is `formattedValue` when truthy, else `value` |
| TrendsServer.TimelineValues | server/src/index.js:76-79 | every timeline value is truthy or `0` |
| TrendsServer.NoDefaultNoTrends | server/src/index.js:65-79 | answers without `default` give three empty lists |
| TrendsServer.NullItemThrows | server/src/index.js:65-73 | a `null` query item makes the mapping throw |
| TrendsServer.TrendsResponse | server/src/index.js:40-134 | the live lists when the live call and mapping succeed; otherwise the CSV lists when the file can be read; otherwise a 500 |
| TrendsServer.CheckExport | server/src/index.js:142-145 | rejected with 400 iff `ideas` is not a non-empty array; otherwise that array is passed on |
| IdeaStore.Suggestions | server/src/routes/ideas.js:7-15 | the two suggestions with their scores, titles, descriptions and domain |
| IdeaStore.UpdateData | server/src/routes/ideas.js:44-52 | the update holds exactly the truthy merge fields of the body, with the body's values |
| IdeaStore.Updated | server/src/routes/ideas.js:53-59 | an update overwrites the given members, keeps the rest and sets `saved` |
| IdeaStore.Created | server/src/routes/ideas.js:62-76 | a created record is saved, belongs to the user, and takes defaults for a missing description, score and domain |
| IdeaStore.FindIdea | server/src/routes/ideas.js:55-56 | finds the first record with that user and title, or none when none has them |
| IdeaStore.Upsert | server/src/routes/ideas.js:55-59 | the upsert always answers with a saved record |
| IdeaStore.AfterSave | server/src/routes/ideas.js:18-85 | no title gives 400 and no database gives 500, both with the store unchanged; otherwise the save succeeds |
| IdeaStore.SaveKeepsIds | server/src/routes/ideas.js:41-80 | ids stay fresh, and a successful save's record is in the store |
| IdeaStore.SaveAlwaysMarksSaved | server/src/routes/ideas.js:53-67 | the body's `saved` flag is ignored, and the stored record is always saved |
| IdeaStore.SaveMarksSaved | server/src/routes/ideas.js:53-67 | every save that reaches the database answers with a record marked saved |
| IdeaStore.MergeUpdatesInPlace | server/src/routes/ideas.js:43-60 | merging into an existing record updates it in place, changing only its members and flag |
| IdeaStore.MergeInsertsWhenMissing | server/src/routes/ideas.js:55-59 | merging with no matching record inserts one holding just the truthy members |
| IdeaStore.MergeIgnoresTitle | server/src/routes/ideas.js:20-59 | the merge key is `_mergeTitle`; the value of `title` changes nothing |
| IdeaStore.MergeTwiceIsMergeOnce | server/src/routes/ideas.js:43-60 | merging the same body twice stores what merging it once stores |
| IdeaStore.CreateAddsWithDefaults | server/src/routes/ideas.js:61-77 | creating appends one saved record with the body's title and the defaults |
| IdeaStore.Collection.Save | server/src/routes/ideas.js:18-85 | the save method's new store and reply are those of the save specification |
| IdeaStore.Mine | server/src/routes/ideas.js:97-119 | the query selects exactly the user's records, and only the saved ones for favourites |
| IdeaStore.NewestFirst | server/src/routes/ideas.js:97-119 | sorting is a permutation |
| IdeaStore.NewestFirstIsOrdered | server/src/routes/ideas.js:97-119 | sorting puts the newest creation time first |
| IdeaStore.ListingsAreTheUsersRecords | server/src/routes/ideas.js:88-126 | each listing is a permutation of the user's (saved) records, newest first |
| IdeaStore.SavedIsFavourite | server/src/routes/ideas.js:41-97 | a successfully saved record appears among the user's favourites |
| TrendIdeas.Classify | client/src/SmartIdeaFinder.jsx:274-285 | the AI category iff the name contains `ai`; the generic category iff it contains none of the seven keywords |
| TrendIdeas.FirstAi | client/src/SmartIdeaFinder.jsx:289 | finds the first case-insensitive `ai` at or after a position, or none when there is none |
| TrendIdeas.RemoveFirstAi | client/src/SmartIdeaFinder.jsx:289 | `replace(/ai/i, '')` removes two characters when there is a match, otherwise nothing |
| TrendIdeas.AiMatchIffLowerContains | client/src/SmartIdeaFinder.jsx:287-289 | the case-insensitive match exists iff the lower-cased name contains `ai` |
| TrendIdeas.GenerateIdea | client/src/SmartIdeaFinder.jsx:271-323 | no idea iff the trend name is missing or empty |
| TrendIdeas.DescriptionEndsWithExisting | client/src/SmartIdeaFinder.jsx:271-323 | every description ends with the kind and the list of existing products for the name's category |
| TrendIdeas.EmailLosesItsAi | client/src/SmartIdeaFinder.jsx:289 | in `Email marketing` the first `ai` is at index 2, and removing it gives `Eml marketing` |
| TrendIdeas.AiWinsAnywhere | client/src/SmartIdeaFinder.jsx:287-293 | `Email marketing` is treated as an AI trend, and its title mangles the name |
| TrendIdeas.BareAiUsesDefaults | client/src/SmartIdeaFinder.jsx:289 | the trend `AI` gets the default subject |
| TrendIdeas.Entry | client/src/SmartIdeaFinder.jsx:327-336 | a trend gives an entry iff its name is non-empty |
| TrendIdeas.Ideas | client/src/SmartIdeaFinder.jsx:326-337 | there are no more entries than trends |
| TrendIdeas.PushIdeas | client/src/SmartIdeaFinder.jsx:326-337 | one loop appends exactly the list's ideas, in order, after what was already there |
| TrendIdeas.BuildIdeaList | client/src/SmartIdeaFinder.jsx:325-356 | the two loops build exactly the list of the specification |
| TrendIdeas.IdeasAreFresh | client/src/SmartIdeaFinder.jsx:329-335 | every entry is unsaved, in the requested domain, has no store id, and has an id with its list's prefix |
| TrendIdeas.OneIdeaPerNamedTrend | client/src/SmartIdeaFinder.jsx:326-337 | one entry per trend with a non-empty name |
| TrendIdeas.IdKeepsTrendIndex | client/src/SmartIdeaFinder.jsx:327-334 | a named trend's entry is listed, with the trend's own index in its id |
| TrendIdeas.TopBeforeRising | client/src/SmartIdeaFinder.jsx:325-352 | all top entries come first, then all rising entries |
| TrendIdeas.NoArraysNoIdeas | client/src/SmartIdeaFinder.jsx:268-356 | without trend arrays the list is empty |
| TrendIdeas.ToggleTwiceRestores | client/src/SmartIdeaFinder.jsx:377-381 | toggling twice restores the list |
| TrendIdeas.ToggleTouchesOnlyMatches | client/src/SmartIdeaFinder.jsx:377-381 | only the `saved` flag of matching ideas changes; with no match, nothing changes |
| TrendIdeas.AfterSave | client/src/SmartIdeaFinder.jsx:363-385 | the list is unchanged when no idea matches, when the fetch rejects or when the reply's body is not JSON; ideas that do not match never change |
| TrendIdeas.ErrorReplyStillToggles | client/src/SmartIdeaFinder.jsx:376-383 | a reply with a JSON body flips every matching idea's flag whatever its status, a 400 or 500 included |
| TrendIdeas.RefusedSaveStillMarked | client/src/SmartIdeaFinder.jsx:366-383 | when the save route refuses (store unchanged, non-2xx status), the page still flips the idea |
| TrendIdeas.IntendedAfterSave | client/src/SmartIdeaFinder.jsx:376-383 | the corrected handler changes the list only for a 2xx reply with a JSON body |
| TrendIdeas.SaveDiffersOnlyOnRefusal | client/src/SmartIdeaFinder.jsx:376-383 | the handler as written and the corrected one differ exactly for a JSON error reply to a save of a listed idea |
| TrendIdeas.IntendedFollowsStore | client/src/SmartIdeaFinder.jsx:366-383 | with the corrected handler, the page flips a listed idea exactly when the save route stored it |

## Left out

- Network, file and console I/O, the clock, authentication middleware, Express plumbing and PDF layout (`server/src/index.js:146-230`) are not modelled. Retrieval, completion, Google Trends, the CSV file and MongoDB's connection state are inputs. Timestamps are passed in.
- The retrieval and completion services are not part of this model beyond two messages of the completion service: the prefix `Failed to generate AI completion: ` it adds to the errors of the call (`server/src/services/watsonService.js:101`), and the unprefixed message of a client never set up (`server/src/services/watsonService.js:42-44`).
- A `Failed` retrieval is an over-approximation: `ragQuery` catches every error and answers with an empty context (`server/src/services/ragService.js:89-113`). Only the enhancement route's read of `idea.title`, made before the call, can make retrieval throw. The routes' replies to other retrieval failures are proved but cannot happen.
- `JSON.parse` is a parameter, so no property depends on a particular parser. Numbers are integers; floating point is not modelled.
- JavaScript objects are modelled as ordered member lists, and property reads take the first member with a name. `JSON.parse` keeps the last of duplicate names, so documents with duplicate names are not faithfully modelled.
- `toLowerCase` is modelled on the ASCII letters only; Unicode case mapping is not modelled. `trim` and `\s` use JavaScript's full whitespace set.
- PitchDeck.DeckItem: spreading a string or an array item adds no members, whereas JavaScript adds one member per index.
- Roadmap.PhasesRewrittenInPlace: the route mutates the parsed object in place. The model returns a new value, so aliasing between `parsed` and `roadmap` is not captured; it makes no difference to the reply.
- AiRoutes.MissingIdeaNeverAnswered: states only that no document is produced for a missing idea. It is not proved that the TypeError's message, which comes from the JavaScript engine, holds no enhancement marker, so it is not proved that the reply is a 500.
- TrendsServer.EntryOfFields: a TOP value is kept as the trimmed string; `Number(...)` on it is not modelled.
- Request fields and trend names are modelled as strings or missing. Other JSON types in those places are not modelled.
- The `req.query` defaults, the `geo` mapping and the 90-day window of `/api/trends` only shape the upstream call and are not modelled.
- IdeaStore.NewestFirst: sorting is stable, so records with the same creation time keep collection order; MongoDB leaves their order unspecified. Ids are a counter, not ObjectIds.
- The store is a sequence of records, not a MongoDB collection: query operators in `_mergeTitle` and Mongoose's schema casting are not modelled.
- The client's `setSavedIdeas` append, its alerts and the fetch itself are not modelled. The fetch's outcome reaches the list as a `TrendIdeas.SaveResponse`: no reply, or a status and whether the body parsed as JSON. The `auth` middleware's replies are not part of this model.
- A `null` element in the trend arrays makes `trend.name` throw on the client; the model's trend list has no `null` elements.

## Findings

| source | as written | input that shows it | evidently intended | confidence | as-written member | corrected member |
|---|---|---|---|---|---|---|
| server/src/routes/ai.js:119-134 | when the array never balances, the text is repaired from `firstArrayStart` on, but the slice is then taken from `firstArrayStart` of the repaired text, which already starts at the `[` | `x[{}`: the repair gives `[{}\n]`, and `substring(1, ...)` cuts it to `{}\n]`, which is not an array, so the route answers the `Parsing Error` placeholder | the slice of a repaired array starts at its `[` (`[{}\n]`), keeping the complete objects before the cut | not executed | IdeaList.RepairedRouteCounterexample | IdeaList.RepairKeepsCompleteObjects |
| client/src/SmartIdeaFinder.jsx:376-383 | the handler awaits `res.json()` and flips the idea's `saved` flag without checking `res.ok`; the save route sends its refusals as JSON bodies with status 400 or 500 | saving a listed idea while the database is not connected: the route answers 500 with the JSON body `{"success": false, "error": "Database connection error", ...}` and stores nothing, yet the page shows the idea as saved | flip the flag only for a 2xx reply, so that the page agrees with the store | not executed | TrendIdeas.RefusedSaveStillMarked | TrendIdeas.IntendedFollowsStore |
