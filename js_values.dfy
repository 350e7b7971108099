/**
 * JavaScript values as the server sees them after `JSON.parse`, together with
 * the few pieces of JavaScript semantics the normalisation code relies on:
 * truthiness, the `||` operator, property reads (which throw on `null`) and
 * property writes on plain objects.
 */
module JsValues {

  datatype Option<T> = None | Some(value: T)

  /** The outcome of evaluating a JavaScript expression that may throw. */
  datatype Attempt<T> = Ok(value: T) | Threw

  /**
   * A parsed JSON value. Numbers are integers (see README, "Left out").
   * Object members keep the order in which they appear in the text.
   */
  datatype Json =
    | JNull
    | JBool(b: bool)
    | JNum(n: int)
    | JStr(s: string)
    | JArr(items: seq<Json>)
    | JObj(fields: seq<(string, Json)>)

  /** JavaScript truthiness; `None` stands for `undefined`. */
  predicate Truthy(v: Option<Json>)
  {
    match v
    case None => false
    case Some(JNull) => false
    case Some(JBool(b)) => b
    case Some(JNum(n)) => n != 0
    case Some(JStr(s)) => s != ""
    case Some(JArr(_)) => true
    case Some(JObj(_)) => true
  }

  /** `a || b`: the left operand when it is truthy, otherwise the right one. */
  function Or(a: Option<Json>, b: Option<Json>): (r: Option<Json>)
    ensures Truthy(r) <==> Truthy(a) || Truthy(b)
    ensures Truthy(a) ==> r == a
    ensures !Truthy(a) ==> r == b
  {
    if Truthy(a) then a else b
  }

  /** `a || d` with a truthy default `d`: never `undefined`, always truthy. */
  function OrDefault(a: Option<Json>, d: Json): (r: Json)
    requires Truthy(Some(d))
    ensures Truthy(Some(r))
    ensures Truthy(a) ==> Some(r) == a
    ensures !Truthy(a) ==> r == d
  {
    Or(a, Some(d)).value
  }

  /** `a || ''`: the left operand when truthy, the empty string otherwise. */
  function OrEmpty(a: Option<Json>): (r: Json)
    ensures Truthy(Some(r)) || r == JStr("")
    ensures Truthy(a) ==> Some(r) == a
    ensures !Truthy(a) ==> r == JStr("")
  {
    if Truthy(a) then a.value else JStr("")
  }

  /** `Array.isArray(v)`. */
  predicate IsArray(v: Option<Json>)
  {
    v.Some? && v.value.JArr?
  }

  /** The value of the first member named `key`, if any. */
  function Lookup(fields: seq<(string, Json)>, key: string): Option<Json>
  {
    if fields == [] then None
    else if fields[0].0 == key then Some(fields[0].1)
    else Lookup(fields[1..], key)
  }

  /** `Lookup` finds a member exactly when one is named `key`, and then the first such member. */
  lemma {:induction false} LookupFinds(fields: seq<(string, Json)>, key: string)
    ensures Lookup(fields, key).Some? <==> exists i :: 0 <= i < |fields| && fields[i].0 == key
    ensures Lookup(fields, key).Some? ==>
      exists i :: 0 <= i < |fields| && fields[i] == (key, Lookup(fields, key).value)
                  && forall j :: 0 <= j < i ==> fields[j].0 != key
  {
    if fields != [] && fields[0].0 != key {
      LookupFinds(fields[1..], key);
      assert forall i :: 1 <= i < |fields| ==> fields[i] == fields[1..][i - 1];
      if Lookup(fields, key).Some? {
        var i :| 0 <= i < |fields[1..]| && fields[1..][i] == (key, Lookup(fields, key).value)
                 && forall j :: 0 <= j < i ==> fields[1..][j].0 != key;
        assert fields[i + 1] == (key, Lookup(fields, key).value);
      }
    }
  }

  /** No member is named `key`: nothing is found. */
  lemma {:induction false} LookupAbsent(fields: seq<(string, Json)>, key: string)
    requires forall i :: 0 <= i < |fields| ==> fields[i].0 != key
    ensures Lookup(fields, key) == None
  {
    if fields != [] {
      LookupAbsent(fields[1..], key);
    }
  }

  /** Member names that are pairwise different. */
  predicate DistinctNames(fields: seq<(string, Json)>)
  {
    forall i, j :: 0 <= i < j < |fields| ==> fields[i].0 != fields[j].0
  }

  /** With distinct names, each name finds its own member. */
  lemma {:induction false} LookupDistinct(fields: seq<(string, Json)>, i: nat)
    requires i < |fields| && DistinctNames(fields)
    ensures Lookup(fields, fields[i].0) == Some(fields[i].1)
  {
    if i > 0 {
      assert fields[1..][i - 1] == fields[i];
      LookupDistinct(fields[1..], i - 1);
    }
  }

  /**
   * `v[key]` (or `v.key`) on a value that is not `null`: only objects have the
   * named properties the normaliser reads; on strings, numbers, booleans and
   * arrays the result is `undefined`.
   */
  function Prop(v: Json, key: string): Option<Json>
  {
    if v.JObj? then Lookup(v.fields, key) else None
  }

  /** `v.key` where reading a property of `null` throws a TypeError. */
  function Access(v: Json, key: string): (r: Attempt<Option<Json>>)
    ensures r.Threw? <==> v.JNull?
    ensures r.Ok? ==> r.value == Prop(v, key)
  {
    if v.JNull? then Threw else Ok(Prop(v, key))
  }

  /**
   * `obj[key] = value` on a plain object: an existing member keeps its place
   * and takes the new value, a new member goes at the end.
   */
  function SetField(fields: seq<(string, Json)>, key: string, value: Json): (r: seq<(string, Json)>)
    ensures Lookup(r, key) == Some(value)
    ensures forall k :: k != key ==> Lookup(r, k) == Lookup(fields, k)
    ensures |r| == |fields| || |r| == |fields| + 1
  {
    if fields == [] then [(key, value)]
    else if fields[0].0 == key then [(key, value)] + fields[1..]
    else [fields[0]] + SetField(fields[1..], key, value)
  }

  /** The member names in order (`Object.keys` for names that are not array indices). */
  function Keys(fields: seq<(string, Json)>): (r: seq<string>)
    ensures |r| == |fields|
    ensures forall i :: 0 <= i < |fields| ==> r[i] == fields[i].0
  {
    seq(|fields|, i requires 0 <= i < |fields| => fields[i].0)
  }

  /**
   * `xs.map(f)` where the callback may throw: the first throw ends the map,
   * otherwise every element is replaced by its image, in order.
   */
  function MapAttempt<T>(xs: seq<Json>, f: Json -> Attempt<T>): (r: Attempt<seq<T>>)
    ensures r.Threw? <==> exists i :: 0 <= i < |xs| && f(xs[i]).Threw?
    ensures r.Ok? ==> |r.value| == |xs| && forall i :: 0 <= i < |xs| ==> f(xs[i]) == Ok(r.value[i])
  {
    if xs == [] then Ok([])
    else
      var init := MapAttempt(xs[..|xs| - 1], f);
      assert forall i :: 0 <= i < |xs| - 1 ==> xs[i] == xs[..|xs| - 1][i];
      if init.Threw? || f(xs[|xs| - 1]).Threw? then Threw
      else Ok(init.value + [f(xs[|xs| - 1]).value])
  }

  /** `xs.map((item, idx) => ...)` where the callback may throw. */
  function MapIndexed<T>(xs: seq<Json>, f: (Json, nat) -> Attempt<T>): (r: Attempt<seq<T>>)
    ensures r.Threw? <==> exists i :: 0 <= i < |xs| && f(xs[i], i).Threw?
    ensures r.Ok? ==> |r.value| == |xs| && forall i :: 0 <= i < |xs| ==> f(xs[i], i) == Ok(r.value[i])
  {
    if xs == [] then Ok([])
    else
      var init := MapIndexed(xs[..|xs| - 1], f);
      assert forall i :: 0 <= i < |xs| - 1 ==> xs[i] == xs[..|xs| - 1][i];
      if init.Threw? || f(xs[|xs| - 1], |xs| - 1).Threw? then Threw
      else Ok(init.value + [f(xs[|xs| - 1], |xs| - 1).value])
  }
}
