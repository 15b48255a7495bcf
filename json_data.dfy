/** Parsed JSON values as the plugin sees them after `json.loads`, with the
    Python semantics the plugin relies on: truthiness, `dict.get` and
    `dict.keys()`. */
module JsonData {

  datatype Option<+T> = None | Some(value: T)

  /** A JSON value. An object keeps its members exactly as received, in order
      and with any duplicate names; `Get` and `Keys` below give the view of the
      Python dict that `json.loads` builds from those members. */
  datatype Json =
    | JNull
    | JBool(b: bool)
    | JInt(i: int)
    | JFloat(r: real)
    | JStr(s: string)
    | JArr(elems: seq<Json>)
    | JObj(members: seq<(string, Json)>)

  /** Python truthiness: None, False, zero, "" and empty containers are false. */
  predicate Truthy(j: Json)
    ensures Truthy(j) <==> j != JNull && j != JBool(false) && j != JInt(0) && j != JFloat(0.0) &&
                           j != JStr("") && j != JArr([]) && j != JObj([])
  {
    match j
    case JNull => false
    case JBool(b) => b
    case JInt(i) => i != 0
    case JFloat(r) => r != 0.0
    case JStr(s) => s != ""
    case JArr(es) => es != []
    case JObj(ms) => ms != []
  }

  predicate Distinct<T(==)>(s: seq<T>) {
    forall i, j :: 0 <= i < j < |s| ==> s[i] != s[j]
  }

  /** The member names as received, duplicates included. */
  function Names(ms: seq<(string, Json)>): (ns: seq<string>)
    ensures |ns| == |ms| && forall i :: 0 <= i < |ms| ==> ns[i] == ms[i].0
  {
    seq(|ms|, i requires 0 <= i < |ms| => ms[i].0)
  }

  /** `dict.keys()`: every member name once, in the order of its first occurrence. */
  function Keys(ms: seq<(string, Json)>): (ks: seq<string>)
    ensures Distinct(ks)
    ensures forall k :: k in ks <==> exists i :: 0 <= i < |ms| && ms[i].0 == k
    decreases |ms|
  {
    if ms == [] then []
    else
      var init := ms[..|ms| - 1];
      var ks' := Keys(init);
      var k := ms[|ms| - 1].0;
      assert forall i :: 0 <= i < |init| ==> init[i] == ms[i];
      if k in ks' then ks' else ks' + [k]
  }

  /** `dict[k]`: the value of the LAST member named `k` (a later duplicate
      overrides an earlier one), or None when no member is named `k`. */
  function Get(ms: seq<(string, Json)>, k: string): (v: Option<Json>)
    ensures v.Some? <==> k in Keys(ms)
    ensures v.Some? ==> exists i :: 0 <= i < |ms| && ms[i] == (k, v.value) &&
                                    forall j :: i < j < |ms| ==> ms[j].0 != k
    decreases |ms|
  {
    if ms == [] then None
    else if ms[|ms| - 1].0 == k then Some(ms[|ms| - 1].1)
    else
      var init := ms[..|ms| - 1];
      assert forall i :: 0 <= i < |init| ==> init[i] == ms[i];
      Get(init, k)
  }

  /** `dict.get(k)`: like `Get`, with Python's None for a missing name. */
  function DictGet(ms: seq<(string, Json)>, k: string): (v: Json)
    ensures k !in Keys(ms) ==> v == JNull
    ensures k in Keys(ms) ==> exists i :: 0 <= i < |ms| && ms[i] == (k, v) &&
                                         forall j :: i < j < |ms| ==> ms[j].0 != k
  {
    match Get(ms, k)
    case Some(v) => v
    case None => JNull
  }

  /** When the received names are all different, `dict.keys()` lists them
      exactly as received. */
  lemma {:induction false} KeysOfDistinctNames(ms: seq<(string, Json)>)
    requires Distinct(Names(ms))
    ensures Keys(ms) == Names(ms)
    decreases |ms|
  {
    if ms != [] {
      var init := ms[..|ms| - 1];
      assert Names(init) == Names(ms)[..|ms| - 1];
      KeysOfDistinctNames(init);
      assert Names(ms) == Names(init) + [ms[|ms| - 1].0];
    }
  }

  /** The position of the first member named `k`. */
  function First(ms: seq<(string, Json)>, k: string): (i: nat)
    requires k in Keys(ms)
    ensures i < |ms| && ms[i].0 == k && forall j :: 0 <= j < i ==> ms[j].0 != k
    decreases |ms|
  {
    var init := ms[..|ms| - 1];
    assert forall j :: 0 <= j < |init| ==> init[j] == ms[j];
    if k in Keys(init) then First(init, k) else |ms| - 1
  }

  /** A name that already occurs before the last member first occurs where it did there. */
  lemma FirstInInit(ms: seq<(string, Json)>, k: string)
    requires ms != [] && k in Keys(ms[..|ms| - 1])
    ensures k in Keys(ms) && First(ms, k) == First(ms[..|ms| - 1], k)
  {
  }

  /** `dict.keys()` lists the names in the order in which each first occurs,
      whatever duplicates follow. */
  lemma {:induction false} KeysInFirstOrder(ms: seq<(string, Json)>)
    ensures forall a, b :: 0 <= a < b < |Keys(ms)| ==> First(ms, Keys(ms)[a]) < First(ms, Keys(ms)[b])
    decreases |ms|
  {
    if ms != [] {
      var init := ms[..|ms| - 1];
      var ks', ks := Keys(init), Keys(ms);
      KeysInFirstOrder(init);
      assert ks == if ms[|ms| - 1].0 in ks' then ks' else ks' + [ms[|ms| - 1].0];
      forall a, b | 0 <= a < b < |ks|
        ensures First(ms, ks[a]) < First(ms, ks[b])
      {
        assert ks[a] == ks'[a];
        FirstInInit(ms, ks[a]);
        if b < |ks'| {
          assert ks[b] == ks'[b];
          FirstInInit(ms, ks[b]);
        }
      }
    }
  }

  /** A dict is truthy exactly when it has a key. */
  lemma TruthyObjectIffKeys(ms: seq<(string, Json)>)
    ensures Truthy(JObj(ms)) <==> Keys(ms) != []
  {
    if ms != [] {
      assert ms[0].0 in Keys(ms);
    }
  }

  /** A name absent from the dict reads as None, which is falsy. */
  lemma MissingNameIsFalsy(ms: seq<(string, Json)>, k: string)
    requires forall i :: 0 <= i < |ms| ==> ms[i].0 != k
    ensures DictGet(ms, k) == JNull && !Truthy(DictGet(ms, k))
  {
  }
}
