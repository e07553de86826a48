/** The loosely typed values the language model answers with, as `json.loads`
    hands them to the merge: dictionaries keep their members in order, a
    repeated key keeps its last value, and Python's truthiness and iteration
    rules apply. Floating-point numbers are not modelled. */
module Json {
  import opened Wrappers

  datatype Json =
    | JNull
    | JBool(b: bool)
    | JNum(n: int)
    | JStr(s: string)
    | JArr(items: seq<Json>)
    | JObj(members: Object)

  /** A JSON object: its members in document order. */
  type Object = seq<(string, Json)>

  predicate HasKey(o: Object, key: string) {
    exists i :: 0 <= i < |o| && o[i].0 == key
  }

  /** `d[key]` after `json.loads`: the last member with that key wins. */
  function Get(o: Object, key: string): (r: Option<Json>)
    ensures r.None? <==> !HasKey(o, key)
    ensures r.Some? ==> exists i :: 0 <= i < |o| && o[i] == (key, r.value)
                          && forall k :: i < k < |o| ==> o[k].0 != key
  {
    if o == [] then None
    else if o[|o| - 1].0 == key then Some(o[|o| - 1].1)
    else
      var r := Get(o[..|o| - 1], key);
      assert forall i :: 0 <= i < |o| - 1 ==> o[..|o| - 1][i] == o[i];
      r
  }

  /** `d.get(key, default)`. */
  function GetOr(o: Object, key: string, default: Json): Json {
    Get(o, key).GetOr(default)
  }

  /** A member written after all others is what `Get` finds. */
  lemma GetLast(o: Object, key: string, v: Json)
    ensures Get(o + [(key, v)], key) == Some(v)
  {
  }

  /** A member with another key does not hide what `Get` finds before it. */
  lemma GetSkip(o: Object, m: (string, Json), key: string)
    requires m.0 != key
    ensures Get(o + [m], key) == Get(o, key)
  {
    assert (o + [m])[..|o|] == o;
  }

  /** The member found for a key is the last one carrying it. */
  lemma {:induction false} GetUnique(o: Object, i: nat, key: string)
    requires i < |o| && o[i].0 == key
    requires forall k :: i < k < |o| ==> o[k].0 != key
    ensures Get(o, key) == Some(o[i].1)
    decreases |o|
  {
    if i < |o| - 1 {
      var front := o[..|o| - 1];
      GetUnique(front, i, key);
    }
  }

  /** No key occurs twice. */
  predicate DistinctKeys(o: Object) {
    forall a, b :: 0 <= a < b < |o| ==> o[a].0 != o[b].0
  }

  /** With distinct keys, every member is found by its key. */
  lemma GetDistinct(o: Object, i: nat, key: string, v: Json)
    requires i < |o| && DistinctKeys(o) && o[i] == (key, v)
    ensures Get(o, key) == Some(v)
  {
    GetUnique(o, i, key);
  }

  /** With distinct keys, a string member is read back by its key. */
  lemma StrFieldAt(o: Object, i: nat, key: string, v: string, default: string)
    requires i < |o| && DistinctKeys(o) && o[i] == (key, JStr(v))
    ensures StrField(o, key, default) == v
  {
    GetDistinct(o, i, key, JStr(v));
  }

  /** Python's `bool(x)`. */
  predicate Truthy(j: Json) {
    match j
    case JNull => false
    case JBool(b) => b
    case JNum(n) => n != 0
    case JStr(s) => s != ""
    case JArr(xs) => xs != []
    case JObj(m) => m != []
  }

  /** The keys of an object once, in the order of their first appearance, as
      iterating a Python dict yields them. */
  function Keys(o: Object): (r: seq<string>)
    ensures forall i, j :: 0 <= i < j < |r| ==> r[i] != r[j]
    ensures forall k :: k in r <==> HasKey(o, k)
  {
    if o == [] then []
    else
      var front := Keys(o[..|o| - 1]);
      assert forall i :: 0 <= i < |o| - 1 ==> o[..|o| - 1][i] == o[i];
      if o[|o| - 1].0 in front then front else front + [o[|o| - 1].0]
  }

  /** `for x in j` / `list.extend(j)`: an array yields its items, a string its
      one-character strings, an object its keys; anything else is not
      iterable (`TypeError`). */
  function Iterate(j: Json): (r: Option<seq<Json>>)
    ensures r.None? <==> (j.JNull? || j.JBool? || j.JNum?)
    ensures j.JArr? ==> r == Some(j.items)
    ensures j.JStr? ==> r.Some? && |r.value| == |j.s|
  {
    match j
    case JArr(xs) => Some(xs)
    case JStr(s) => Some(seq(|s|, i requires 0 <= i < |s| => JStr([s[i]])))
    case JObj(m) => var ks := Keys(m); Some(seq(|ks|, i requires 0 <= i < |ks| => JStr(ks[i])))
    case _ => None
  }

  /** `d.get(key, default)` read as text: a missing key gives the default, and
      so does a value that is not a string. */
  function StrField(o: Object, key: string, default: string): (r: string)
    ensures Get(o, key) == Some(JStr(r)) || r == default
    ensures Get(o, key).None? ==> r == default
  {
    match Get(o, key)
    case Some(JStr(s)) => s
    case _ => default
  }

  /** The truth value of `d.get(key, False)`. */
  predicate Flag(o: Object, key: string) {
    match Get(o, key)
    case Some(v) => Truthy(v)
    case None => false
  }

  /** Items of a list of strings: a string item is kept, any other item is read
      as the empty string. */
  function TextItems(xs: seq<Json>): (r: seq<string>)
    ensures |r| == |xs|
    ensures forall i :: 0 <= i < |xs| ==> (xs[i] == JStr(r[i]) || (!xs[i].JStr? && r[i] == ""))
  {
    seq(|xs|, i requires 0 <= i < |xs| => if xs[i].JStr? then xs[i].s else "")
  }

  /** The items of an iterable whose every item must be a string, as
      `' & '.join(j)` needs; `None` when one is not (`TypeError`). */
  function StrictTextItems(j: Json): (r: Option<seq<string>>)
    ensures r.Some? <==> (Iterate(j).Some? && forall i :: 0 <= i < |Iterate(j).value| ==> Iterate(j).value[i].JStr?)
    ensures r.Some? ==> |r.value| == |Iterate(j).value|
                        && forall i :: 0 <= i < |r.value| ==> Iterate(j).value[i] == JStr(r.value[i])
  {
    match Iterate(j)
    case None => None
    case Some(xs) =>
      if forall i :: 0 <= i < |xs| ==> xs[i].JStr? then Some(TextItems(xs)) else None
  }

  /** The dictionaries of a sequence of values that are all dictionaries. */
  function Members(xs: seq<Json>): (r: seq<Object>)
    requires forall i :: 0 <= i < |xs| ==> xs[i].JObj?
    ensures |r| == |xs| && forall i :: 0 <= i < |xs| ==> xs[i] == JObj(r[i])
  {
    seq(|xs|, i requires 0 <= i < |xs| && xs[i].JObj? => xs[i].members)
  }

  lemma MembersSnoc(xs: seq<Json>, i: nat)
    requires i < |xs| && forall k :: 0 <= k < |xs| ==> xs[k].JObj?
    ensures Members(xs[..i + 1]) == Members(xs[..i]) + [xs[i].members]
  {
    assert Members(xs[..i + 1])[i] == xs[i].members;
  }

  /** The items of an iterable whose every item must be a dictionary, as a loop
      calling `.get` on each needs; `None` when one is not (`AttributeError`)
      or the value is not iterable. */
  function ObjectItems(j: Json): (r: Option<seq<Object>>)
    ensures r.Some? <==> (Iterate(j).Some? && forall i :: 0 <= i < |Iterate(j).value| ==> Iterate(j).value[i].JObj?)
    ensures r.Some? ==> |r.value| == |Iterate(j).value|
                        && forall i :: 0 <= i < |r.value| ==> Iterate(j).value[i] == JObj(r.value[i])
  {
    match Iterate(j)
    case None => None
    case Some(xs) =>
      if forall i :: 0 <= i < |xs| ==> xs[i].JObj? then Some(Members(xs)) else None
  }

  /** A list of dictionaries iterates as exactly those dictionaries. */
  lemma ObjectItemsOfArray(objs: seq<Object>)
    ensures ObjectItems(JArr(seq(|objs|, i requires 0 <= i < |objs| => JObj(objs[i])))) == Some(objs)
  {
    var xs := seq(|objs|, i requires 0 <= i < |objs| => JObj(objs[i]));
    var r := ObjectItems(JArr(xs));
    assert r.Some?;
    assert forall i :: 0 <= i < |objs| ==> r.value[i] == objs[i];
    assert r.value == objs;
  }

  /** A non-empty string is never a usable list of dictionaries. */
  lemma ObjectItemsOfString(s: string)
    requires s != ""
    ensures ObjectItems(JStr(s)) == None
  {
    assert Iterate(JStr(s)).value[0] == JStr([s[0]]);
  }

  /** Joining a string iterates its characters: `' & '.join("ab")` uses "a" and "b". */
  lemma StrictTextItemsOfString(s: string)
    ensures StrictTextItems(JStr(s)) == Some(seq(|s|, i requires 0 <= i < |s| => [s[i]]))
  {
    var r := StrictTextItems(JStr(s));
    assert forall i :: 0 <= i < |s| ==> Iterate(JStr(s)).value[i] == JStr([s[i]]);
    assert r.Some?;
    var chars := seq(|s|, i requires 0 <= i < |s| => [s[i]]);
    assert forall i :: 0 <= i < |s| ==> r.value[i] == chars[i];
    assert r.value == chars;
  }
}
