/**
 * The ideas routes of the server: the suggestion stub, the save handler
 * (merge into the record a title names, or create a new record), and the
 * two listings, favourites and all ideas, newest first.
 *
 * The database collection is a sequence of records in insertion order:
 * the create path adds a record even when one with the same user and
 * title exists, so a map keyed on (user, title) could not hold it.
 */
module IdeaStore {
  import opened JsValues

  // ---------------------------------------------------------------------
  // The suggestion stub
  // ---------------------------------------------------------------------

  /** `'...' + v`: the text JavaScript puts in a string for a request value. */
  function JsText(v: Option<Json>): string
  {
    if v.None? then "undefined" else JsonText(v.value)
  }

  function JsonText(j: Json): string
    decreases j, 1
  {
    match j
    case JNull => "null"
    case JBool(b) => if b then "true" else "false"
    case JNum(n) => IntText(n)
    case JStr(s) => s
    case JArr(items) => JoinTexts(items)
    case JObj(_) => "[object Object]"
  }

  /** An array in a string: its elements joined with commas, `null` elements empty. */
  function JoinTexts(items: seq<Json>): string
    decreases items, 0
  {
    if items == [] then ""
    else
      var first := if items[0].JNull? then "" else JsonText(items[0]);
      if |items| == 1 then first else first + "," + JoinTexts(items[1..])
  }

  function IntText(n: int): string
  {
    if n < 0 then "-" + NatText(-n) else NatText(n)
  }

  function NatText(n: nat): string
  {
    if n < 10 then [('0' as int + n) as char] else NatText(n / 10) + [('0' as int + n % 10) as char]
  }

  const AiStartup := "AI Startup"
  const EcoApp := "Eco App"
  const AiFor := "AI for "
  const EcoFor := "Eco for "

  /** An entry of the stub's answer; `domain` is left out of the JSON when undefined. */
  datatype Suggestion = Suggestion(title: string, description: string, score: int, domain: Option<Json>)

  /** `POST /api/ideas`: two fixed ideas, whatever the trends. */
  function Suggestions(domain: Option<Json>, region: Option<Json>): (r: seq<Suggestion>)
    ensures |r| == 2
    ensures r[0].score == 90 && r[1].score == 80
    ensures r[0].title == AiStartup && r[1].title == EcoApp
    ensures r[0].description == AiFor + JsText(domain) && r[1].description == EcoFor + JsText(region)
    ensures r[0].domain == domain && r[1].domain == domain
  {
    [Suggestion(AiStartup, AiFor + JsText(domain), 90, domain),
     Suggestion(EcoApp, EcoFor + JsText(region), 80, domain)]
  }

  // ---------------------------------------------------------------------
  // Records
  // ---------------------------------------------------------------------

  /**
   * A stored idea. `content` holds the free-form members the merge path may
   * write (`description` and the seven extended fields); a member that was
   * never given is absent.
   */
  datatype Idea = Idea(id: nat, user: string, title: Option<Json>, score: Option<Json>, domain: Option<Json>,
                       saved: bool, createdAt: int, content: map<string, Json>)

  /** A request body, member by member. */
  type Body = map<string, Json>

  function Get(body: Body, key: string): Option<Json>
  {
    if key in body then Some(body[key]) else None
  }

  /** The members the merge path copies when truthy. */
  const MergeFields: set<string> :=
    {"description", "roadmap", "pitchDeck", "ideas", "targetMarket", "businessModel", "competitiveAdvantage", "fundingGoal"}

  /** The members the create path copies as given (besides title, description, score and domain). */
  const ExtendedFields: set<string> :=
    {"roadmap", "pitchDeck", "ideas", "targetMarket", "businessModel", "competitiveAdvantage", "fundingGoal"}

  /** `updateData` without its `saved`: exactly the truthy members among the merge fields. */
  function UpdateData(body: Body): (r: map<string, Json>)
    ensures forall k :: k in r <==> k in MergeFields && Truthy(Get(body, k))
    ensures forall k :: k in r ==> k in body && r[k] == body[k]
  {
    map k | k in MergeFields && k in body && Truthy(Some(body[k])) :: body[k]
  }

  /** `$set` of `updateData` on an existing record: the given members replaced, `saved` set, the rest kept. */
  function Updated(idea: Idea, update: map<string, Json>): (r: Idea)
    ensures r.content.Keys == idea.content.Keys + update.Keys
    ensures forall k :: k in r.content ==> r.content[k] == if k in update then update[k] else idea.content[k]
    ensures r == idea.(saved := true, content := r.content)
  {
    idea.(saved := true, content := idea.content + update)
  }

  /** The record an upsert inserts: the filter's user and title, `updateData`, and the schema's defaults. */
  function Upserted(id: nat, user: string, mergeTitle: Json, update: map<string, Json>, now: int): Idea
  {
    Idea(id, user, Some(mergeTitle), None, None, true, now, update)
  }

  const UntitledIdea := "Untitled Idea"
  const General := "General"

  /** `Idea.create({...})` on the non-merge path. */
  function Created(id: nat, user: string, body: Body, now: int): (r: Idea)
    ensures r.saved && r.user == user && r.id == id && r.createdAt == now
    ensures Truthy(Get(body, "title")) ==> r.title == Get(body, "title")
    ensures "description" in r.content
    ensures !Truthy(Get(body, "description")) ==> r.content["description"] == JStr("")
    ensures !Truthy(Get(body, "score")) ==> r.score == Some(JNum(0))
    ensures !Truthy(Get(body, "domain")) ==> r.domain == Some(JStr(General))
    ensures forall k :: k in ExtendedFields ==> (k in r.content <==> k in body)
  {
    var extended := map k | k in ExtendedFields && k in body :: body[k];
    Idea(id, user, Some(OrDefault(Get(body, "title"), JStr(UntitledIdea))), Or(Get(body, "score"), Some(JNum(0))),
         Some(OrDefault(Get(body, "domain"), JStr(General))), true, now,
         extended["description" := OrEmpty(Get(body, "description"))])
  }

  /** The record `findOneAndUpdate` matches on `{ user, title }`: the first in the collection. */
  function FindIdea(records: seq<Idea>, user: string, title: Json): (r: Option<nat>)
    ensures r.Some? ==> r.value < |records| && records[r.value].user == user && records[r.value].title == Some(title)
    ensures r.Some? ==> forall j :: 0 <= j < r.value ==> !(records[j].user == user && records[j].title == Some(title))
    ensures r.None? ==> forall j :: 0 <= j < |records| ==> !(records[j].user == user && records[j].title == Some(title))
  {
    if records == [] then None
    else if records[0].user == user && records[0].title == Some(title) then Some(0)
    else match FindIdea(records[1..], user, title)
      case None => None
      case Some(k) => Some(k + 1)
  }

  // ---------------------------------------------------------------------
  // Save
  // ---------------------------------------------------------------------

  const TitleRequired := "Title is required"

  datatype SaveReply = BadRequest(status: int, error: string) | DatabaseError(status: int) | Saved(idea: Idea)

  /** The collection, the next record id and the reply after one save. */
  datatype SaveOutcome = SaveOutcome(records: seq<Idea>, nextId: nat, reply: SaveReply)

  /**
   * The merge path: the record (user, `_mergeTitle`) takes the update, or
   * a new one is inserted when there is none.
   */
  function Upsert(records: seq<Idea>, nextId: nat, user: string, mergeTitle: Json, update: map<string, Json>, now: int)
    : (r: SaveOutcome)
    ensures r.reply.Saved?
  {
    match FindIdea(records, user, mergeTitle)
    case Some(k) => SaveOutcome(records[k := Updated(records[k], update)], nextId, Saved(Updated(records[k], update)))
    case None =>
      var created := Upserted(nextId, user, mergeTitle, update, now);
      SaveOutcome(records + [created], nextId + 1, Saved(created))
  }

  /** `POST /api/ideas/save` for `user`, with `now` the clock. */
  function AfterSave(records: seq<Idea>, nextId: nat, connected: bool, user: string, body: Body, now: int): (r: SaveOutcome)
    ensures !Truthy(Get(body, "title")) ==> r == SaveOutcome(records, nextId, BadRequest(400, TitleRequired))
    ensures Truthy(Get(body, "title")) && !connected ==> r == SaveOutcome(records, nextId, DatabaseError(500))
    ensures r.reply.Saved? <==> Truthy(Get(body, "title")) && connected
  {
    if !Truthy(Get(body, "title")) then SaveOutcome(records, nextId, BadRequest(400, TitleRequired))
    else if !connected then SaveOutcome(records, nextId, DatabaseError(500))
    else if Truthy(Get(body, "_mergeTitle")) then
      Upsert(records, nextId, user, Get(body, "_mergeTitle").value, UpdateData(body), now)
    else
      var created := Created(nextId, user, body, now);
      SaveOutcome(records + [created], nextId + 1, Saved(created))
  }

  /** Record ids are below the next id and pairwise different. */
  predicate IdsFresh(records: seq<Idea>, nextId: nat)
  {
    (forall k :: 0 <= k < |records| ==> records[k].id < nextId) &&
    (forall j, k :: 0 <= j < k < |records| ==> records[j].id != records[k].id)
  }

  /** A save keeps ids unique, and the record it answers with is the one in the collection. */
  lemma SaveKeepsIds(records: seq<Idea>, nextId: nat, connected: bool, user: string, body: Body, now: int)
    requires IdsFresh(records, nextId)
    ensures var r := AfterSave(records, nextId, connected, user, body, now);
      IdsFresh(r.records, r.nextId) && nextId <= r.nextId &&
      (r.reply.Saved? ==> r.reply.idea in r.records)
  {
    var r := AfterSave(records, nextId, connected, user, body, now);
    if r.reply.Saved? {
      if Truthy(Get(body, "_mergeTitle")) {
        var t := Get(body, "_mergeTitle").value;
        var found := FindIdea(records, user, t);
        if found.Some? {
          var k := found.value;
          assert r.records == records[k := Updated(records[k], UpdateData(body))];
          assert r.records[k] == r.reply.idea;
        } else {
          assert r.records == records + [r.reply.idea];
          assert r.records[|records|] == r.reply.idea;
        }
      } else {
        assert r.records == records + [r.reply.idea];
        assert r.records[|records|] == r.reply.idea;
      }
    }
  }

  /** Whatever the body says about `saved`, a saved record is marked saved. */
  lemma SaveAlwaysMarksSaved(records: seq<Idea>, nextId: nat, user: string, body: Body, now: int, flag: Json)
    requires Truthy(Get(body, "title"))
    ensures AfterSave(records, nextId, true, user, body["saved" := flag], now).reply.idea.saved
    ensures AfterSave(records, nextId, true, user, body["saved" := flag], now) ==
            AfterSave(records, nextId, true, user, body, now)
  {
    var body' := body["saved" := flag];
    SavedFlagIgnored(body, flag);
    SaveMarksSaved(records, nextId, user, body', now);
    CreatedIgnoresSavedFlag(nextId, user, body, now, flag);
    SameFieldsSameSave(records, nextId, user, body', body, now);
  }

  /** Every successful save answers with a record marked saved. */
  lemma SaveMarksSaved(records: seq<Idea>, nextId: nat, user: string, body: Body, now: int)
    requires Truthy(Get(body, "title"))
    ensures AfterSave(records, nextId, true, user, body, now).reply.idea.saved
  {
  }

  /** The members a save reads other than through `Created` are not `saved`. */
  lemma SavedFlagIgnored(body: Body, flag: Json)
    ensures Get(body["saved" := flag], "title") == Get(body, "title")
    ensures Get(body["saved" := flag], "_mergeTitle") == Get(body, "_mergeTitle")
    ensures UpdateData(body["saved" := flag]) == UpdateData(body)
  {
    assert "saved" !in MergeFields;
  }

  lemma CreatedIgnoresSavedFlag(id: nat, user: string, body: Body, now: int, flag: Json)
    ensures Created(id, user, body["saved" := flag], now) == Created(id, user, body, now)
  {
    var body' := body["saved" := flag];
    assert "saved" !in ExtendedFields;
    var e1 := map k | k in ExtendedFields && k in body' :: body'[k];
    var e2 := map k | k in ExtendedFields && k in body :: body[k];
    assert e1 == e2;
    assert Get(body', "title") == Get(body, "title") && Get(body', "score") == Get(body, "score");
    assert Get(body', "domain") == Get(body, "domain") && Get(body', "description") == Get(body, "description");
  }

  /** A save depends on the body only through its title, its merge key, its update and its created record. */
  lemma SameFieldsSameSave(records: seq<Idea>, nextId: nat, user: string, b1: Body, b2: Body, now: int)
    requires Get(b1, "title") == Get(b2, "title") && Get(b1, "_mergeTitle") == Get(b2, "_mergeTitle")
    requires UpdateData(b1) == UpdateData(b2) && Created(nextId, user, b1, now) == Created(nextId, user, b2, now)
    ensures AfterSave(records, nextId, true, user, b1, now) == AfterSave(records, nextId, true, user, b2, now)
  {
  }

  /**
   * The merge path: an existing record (user, `_mergeTitle`) keeps its
   * place, id, title, score, domain and creation time; its members take
   * the truthy values of the body and keep the others; no other record
   * changes.
   */
  lemma MergeUpdatesInPlace(records: seq<Idea>, nextId: nat, user: string, body: Body, now: int, k: nat)
    requires Truthy(Get(body, "title")) && Truthy(Get(body, "_mergeTitle"))
    requires FindIdea(records, user, Get(body, "_mergeTitle").value) == Some(k)
    ensures var r := AfterSave(records, nextId, true, user, body, now);
      |r.records| == |records| && r.nextId == nextId &&
      (forall j :: 0 <= j < |records| && j != k ==> r.records[j] == records[j]) &&
      r.records[k].id == records[k].id && r.records[k].title == records[k].title &&
      r.records[k].score == records[k].score && r.records[k].domain == records[k].domain &&
      r.records[k].createdAt == records[k].createdAt && r.records[k].saved &&
      (forall f :: f in MergeFields && Truthy(Get(body, f)) ==> r.records[k].content[f] == body[f]) &&
      (forall f :: f in records[k].content && !(f in MergeFields && Truthy(Get(body, f))) ==>
         r.records[k].content[f] == records[k].content[f])
  {
  }

  /** Without a record (user, `_mergeTitle`), the merge path inserts one holding just the truthy members. */
  lemma MergeInsertsWhenMissing(records: seq<Idea>, nextId: nat, user: string, body: Body, now: int)
    requires Truthy(Get(body, "title")) && Truthy(Get(body, "_mergeTitle"))
    requires FindIdea(records, user, Get(body, "_mergeTitle").value).None?
    ensures var r := AfterSave(records, nextId, true, user, body, now);
      r.records == records + [r.reply.idea] && r.nextId == nextId + 1 &&
      r.reply.idea.title == Get(body, "_mergeTitle") && r.reply.idea.user == user && r.reply.idea.saved &&
      (forall f :: f in r.reply.idea.content <==> f in MergeFields && Truthy(Get(body, f)))
  {
  }

  /** The merge key is `_mergeTitle`: the body's `title` only has to be truthy, and its value changes nothing. */
  lemma MergeIgnoresTitle(records: seq<Idea>, nextId: nat, user: string, body: Body, now: int, other: Json)
    requires Truthy(Get(body, "title")) && Truthy(Some(other)) && Truthy(Get(body, "_mergeTitle"))
    ensures AfterSave(records, nextId, true, user, body["title" := other], now) ==
            AfterSave(records, nextId, true, user, body, now)
  {
    var body' := body["title" := other];
    assert Get(body', "_mergeTitle") == Get(body, "_mergeTitle");
    assert UpdateData(body') == UpdateData(body);
  }

  /** Merging the same body twice stores what merging it once stores. */
  lemma {:induction false} MergeTwiceIsMergeOnce(records: seq<Idea>, nextId: nat, user: string, body: Body, now: int, later: int)
    requires Truthy(Get(body, "title")) && Truthy(Get(body, "_mergeTitle"))
    ensures var once := AfterSave(records, nextId, true, user, body, now);
      var twice := AfterSave(once.records, once.nextId, true, user, body, later);
      twice.records == once.records && twice.nextId == once.nextId && twice.reply == once.reply
  {
    var t := Get(body, "_mergeTitle").value;
    var update := UpdateData(body);
    var once := AfterSave(records, nextId, true, user, body, now);
    match FindIdea(records, user, t)
    case Some(k) =>
      FindAfterUpdate(records, user, t, k, update);
      assert Updated(Updated(records[k], update), update) == Updated(records[k], update);
    case None =>
      FindAfterAppend(records, user, t, once.reply.idea);
      assert once.records[|records|] == once.reply.idea;
      assert Updated(once.reply.idea, update) == once.reply.idea;
  }

  /** After an update of the found record, the same record is found again. */
  lemma FindAfterUpdate(records: seq<Idea>, user: string, title: Json, k: nat, update: map<string, Json>)
    requires FindIdea(records, user, title) == Some(k)
    ensures FindIdea(records[k := Updated(records[k], update)], user, title) == Some(k)
  {
    var after := records[k := Updated(records[k], update)];
    FindFirst(after, user, title, k);
  }

  /** A record appended after none matched is the one found. */
  lemma FindAfterAppend(records: seq<Idea>, user: string, title: Json, idea: Idea)
    requires FindIdea(records, user, title).None?
    requires idea.user == user && idea.title == Some(title)
    ensures FindIdea(records + [idea], user, title) == Some(|records|)
  {
    FindFirst(records + [idea], user, title, |records|);
  }

  /** The first matching position is what `FindIdea` returns. */
  lemma {:induction false} FindFirst(records: seq<Idea>, user: string, title: Json, k: nat)
    requires k < |records| && records[k].user == user && records[k].title == Some(title)
    requires forall j :: 0 <= j < k ==> !(records[j].user == user && records[j].title == Some(title))
    ensures FindIdea(records, user, title) == Some(k)
  {
    if k > 0 {
      FindFirst(records[1..], user, title, k - 1);
    }
  }

  /** The create path always adds a record, with the defaults for what the body leaves falsy. */
  lemma CreateAddsWithDefaults(records: seq<Idea>, nextId: nat, user: string, body: Body, now: int)
    requires Truthy(Get(body, "title")) && !Truthy(Get(body, "_mergeTitle"))
    ensures var r := AfterSave(records, nextId, true, user, body, now);
      r.records == records + [r.reply.idea] && r.nextId == nextId + 1 &&
      r.reply.idea.saved && r.reply.idea.title == Get(body, "title") &&
      (!Truthy(Get(body, "description")) ==> r.reply.idea.content["description"] == JStr("")) &&
      (!Truthy(Get(body, "score")) ==> r.reply.idea.score == Some(JNum(0))) &&
      (!Truthy(Get(body, "domain")) ==> r.reply.idea.domain == Some(JStr(General)))
  {
  }

  /**
   * The collection behind the routes. `connected` is the state of the
   * database connection; `nextId` stands for the ids the database hands out.
   */
  class Collection {
    var records: seq<Idea>
    var connected: bool
    var nextId: nat

    ghost predicate Valid()
      reads this
    {
      IdsFresh(records, nextId)
    }

    constructor(connected: bool)
      ensures Valid() && records == [] && this.connected == connected
    {
      records := [];
      this.connected := connected;
      nextId := 0;
    }

    /** `POST /api/ideas/save`: the title check, the connection check, then merge or create. */
    method Save(user: string, body: Body, now: int) returns (reply: SaveReply)
      requires Valid()
      modifies this
      ensures Valid() && connected == old(connected)
      ensures SaveOutcome(records, nextId, reply) == AfterSave(old(records), old(nextId), connected, user, body, now)
    {
      SaveKeepsIds(records, nextId, connected, user, body, now);
      var title := Get(body, "title");
      if !Truthy(title) {
        return BadRequest(400, TitleRequired);
      }
      if !connected {
        return DatabaseError(500);
      }
      var mergeTitle := Get(body, "_mergeTitle");
      if Truthy(mergeTitle) {
        var updateData := UpdateData(body);
        var found := FindIdea(records, user, mergeTitle.value);
        if found.Some? {
          var idea := Updated(records[found.value], updateData);
          records := records[found.value := idea];
          reply := Saved(idea);
        } else {
          var idea := Upserted(nextId, user, mergeTitle.value, updateData, now);
          records := records + [idea];
          nextId := nextId + 1;
          reply := Saved(idea);
        }
      } else {
        var idea := Created(nextId, user, body, now);
        records := records + [idea];
        nextId := nextId + 1;
        reply := Saved(idea);
      }
    }

    /** `GET /api/ideas/favorites`. */
    function FavouritesOf(user: string): seq<Idea>
      reads this
    {
      Favourites(records, user)
    }
  }

  // ---------------------------------------------------------------------
  // Listings
  // ---------------------------------------------------------------------

  /** The records of `user`, and only the saved ones when `onlySaved`, in collection order. */
  function Mine(records: seq<Idea>, user: string, onlySaved: bool): (r: seq<Idea>)
    ensures forall x :: x in r <==> x in records && x.user == user && (onlySaved ==> x.saved)
    ensures |r| <= |records|
  {
    if records == [] then []
    else
      var rest := Mine(records[1..], user, onlySaved);
      if records[0].user == user && (onlySaved ==> records[0].saved) then [records[0]] + rest else rest
  }

  /** Newest first: creation times never increase along the list. */
  predicate NewestFirstOrder(xs: seq<Idea>)
  {
    forall j, k :: 0 <= j < k < |xs| ==> xs[j].createdAt >= xs[k].createdAt
  }

  /** `x` placed before the first record older than it. */
  function Insert(x: Idea, xs: seq<Idea>): (r: seq<Idea>)
    ensures |r| == |xs| + 1
    ensures multiset(r) == multiset(xs) + multiset{x}
  {
    if xs == [] || x.createdAt >= xs[0].createdAt then [x] + xs
    else
      assert xs == [xs[0]] + xs[1..];
      [xs[0]] + Insert(x, xs[1..])
  }

  /** Inserting into a newest-first list keeps it newest first. */
  lemma {:induction false} InsertKeepsOrder(x: Idea, xs: seq<Idea>)
    requires NewestFirstOrder(xs)
    ensures NewestFirstOrder(Insert(x, xs))
    ensures Insert(x, xs)[0] == x || Insert(x, xs)[0] == xs[0]
  {
    if xs != [] && x.createdAt < xs[0].createdAt {
      var rest := Insert(x, xs[1..]);
      InsertKeepsOrder(x, xs[1..]);
      var r := [xs[0]] + rest;
      forall j, k | 0 <= j < k < |r| ensures r[j].createdAt >= r[k].createdAt {
        if j == 0 {
          if k == 1 {
            assert r[1] == rest[0];
          } else {
            assert rest[0].createdAt >= rest[k - 1].createdAt;
            assert r[1] == rest[0];
          }
        }
      }
    }
  }

  /** `.sort({ createdAt: -1 })`. */
  function NewestFirst(xs: seq<Idea>): (r: seq<Idea>)
    ensures multiset(r) == multiset(xs)
  {
    if xs == [] then []
    else
      assert xs == [xs[0]] + xs[1..];
      Insert(xs[0], NewestFirst(xs[1..]))
  }

  /** The sort gives newest first. */
  lemma {:induction false} NewestFirstIsOrdered(xs: seq<Idea>)
    ensures NewestFirstOrder(NewestFirst(xs))
  {
    if xs != [] {
      NewestFirstIsOrdered(xs[1..]);
      InsertKeepsOrder(xs[0], NewestFirst(xs[1..]));
    }
  }

  /** `Idea.find({ user, saved: true }).sort({ createdAt: -1 })`. */
  function Favourites(records: seq<Idea>, user: string): seq<Idea>
  {
    NewestFirst(Mine(records, user, true))
  }

  /** `Idea.find({ user }).sort({ createdAt: -1 })`. */
  function AllIdeas(records: seq<Idea>, user: string): seq<Idea>
  {
    NewestFirst(Mine(records, user, false))
  }

  /**
   * Favourites are exactly this user's saved records, each as often as in
   * the collection, newest first; all ideas are this user's records.
   */
  lemma ListingsAreTheUsersRecords(records: seq<Idea>, user: string)
    ensures multiset(Favourites(records, user)) == multiset(Mine(records, user, true))
    ensures NewestFirstOrder(Favourites(records, user))
    ensures forall x :: x in Favourites(records, user) <==> x in records && x.user == user && x.saved
    ensures multiset(AllIdeas(records, user)) == multiset(Mine(records, user, false))
    ensures NewestFirstOrder(AllIdeas(records, user))
    ensures forall x :: x in AllIdeas(records, user) <==> x in records && x.user == user
  {
    var fav := Mine(records, user, true);
    var all := Mine(records, user, false);
    NewestFirstIsOrdered(fav);
    NewestFirstIsOrdered(all);
    forall x ensures x in Favourites(records, user) <==> x in fav {
      assert x in Favourites(records, user) <==> x in multiset(Favourites(records, user));
    }
    forall x ensures x in AllIdeas(records, user) <==> x in all {
      assert x in AllIdeas(records, user) <==> x in multiset(AllIdeas(records, user));
    }
  }

  /** A save through the merge or create path puts the record among the user's favourites. */
  lemma SavedIsFavourite(records: seq<Idea>, nextId: nat, user: string, body: Body, now: int)
    requires IdsFresh(records, nextId)
    requires Truthy(Get(body, "title"))
    ensures var r := AfterSave(records, nextId, true, user, body, now);
      r.reply.idea in Favourites(r.records, user)
  {
    var r := AfterSave(records, nextId, true, user, body, now);
    SaveKeepsIds(records, nextId, true, user, body, now);
    ListingsAreTheUsersRecords(r.records, user);
  }
}
