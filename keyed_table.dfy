/**
 * A constant JavaScript object literal `{ k1: v1, k2: v2, ... }` used as a
 * string-keyed record: its entries in declaration order. `Object.values`
 * follows that order for the non-numeric keys used here.
 */
module KeyedTable {
  import opened Optional

  type Table<T> = seq<(string, T)>

  /** The keys in declaration order. */
  function Keys<T>(t: Table<T>): (ks: seq<string>)
    ensures |ks| == |t|
    ensures forall i :: 0 <= i < |t| ==> ks[i] == t[i].0
  {
    if t == [] then [] else [t[0].0] + Keys(t[1..])
  }

  /** `Object.values(t)`: the values in declaration order. */
  function Values<T>(t: Table<T>): (vs: seq<T>)
    ensures |vs| == |t|
    ensures forall i :: 0 <= i < |t| ==> vs[i] == t[i].1
  {
    if t == [] then [] else [t[0].1] + Values(t[1..])
  }

  /** An object literal never holds the same own key twice. */
  ghost predicate DistinctKeys<T>(t: Table<T>) {
    forall i, j :: 0 <= i < j < |t| ==> t[i].0 != t[j].0
  }

  /**
   * Property access `t[k]` restricted to own keys: `undefined` (None) when
   * `k` is not a key. For a repeated key the later entry wins, as in an
   * object literal.
   */
  function Get<T>(t: Table<T>, k: string): (r: Option<T>)
    ensures r.Some? <==> k in Keys(t)
    ensures r.Some? ==> (k, r.value) in t
  {
    if t == [] then None
    else if t[|t| - 1].0 == k then Some(t[|t| - 1].1)
    else
      assert forall i :: 0 <= i < |t| - 1 ==> Keys(t[..|t| - 1])[i] == t[i].0;
      Get(t[..|t| - 1], k)
  }

  /** With distinct keys, looking up the key of any entry yields that entry's value. */
  lemma {:induction false} GetEntry<T>(t: Table<T>, i: nat)
    requires DistinctKeys(t)
    requires i < |t|
    ensures Get(t, t[i].0) == Some(t[i].1)
  {
    if i < |t| - 1 {
      assert t[|t| - 1].0 != t[i].0;
      var front := t[..|t| - 1];
      assert front[i] == t[i];
      GetEntry(front, i);
    }
  }

  /** Every value listed by `Values` is found again under some key. */
  lemma ValuesAreFound<T>(t: Table<T>, v: T)
    requires DistinctKeys(t)
    requires v in Values(t)
    ensures exists k :: k in Keys(t) && Get(t, k) == Some(v)
  {
    var i :| 0 <= i < |t| && Values(t)[i] == v;
    GetEntry(t, i);
    assert Keys(t)[i] == t[i].0;
  }
}
