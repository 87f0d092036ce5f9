/** A JavaScript `Map` with string keys as its insertion-ordered entry
    list: `set` on a present key replaces the value in place, on an absent
    key appends. Used for the robot registry, the filtered rooms and the
    orchestrator's module table. */
module JsMap {
  import opened Common

  /** The keys, in insertion order. */
  function Keys<V>(m: seq<(string, V)>): (r: seq<string>)
    ensures |r| == |m|
    ensures forall i :: 0 <= i < |m| ==> r[i] == m[i].0
  {
    seq(|m|, i requires 0 <= i < |m| => m[i].0)
  }

  /** No key occurs twice. */
  predicate UniqueKeys<V>(m: seq<(string, V)>)
  {
    forall i, j :: 0 <= i < j < |m| ==> m[i].0 != m[j].0
  }

  /** The key of an entry. */
  function KeyOf<V>(e: (string, V)): string
  {
    e.0
  }

  /** The position of the first entry with key `k`, if any. */
  function IndexOfKey<V>(m: seq<(string, V)>, k: string): (r: Option<nat>)
    ensures r.None? <==> k !in Keys(m)
    ensures r.Some? ==> r.value < |m| && m[r.value].0 == k
    ensures r.Some? ==> forall j :: 0 <= j < r.value ==> m[j].0 != k
  {
    var r := FirstIndex(m, KeyOf, k);
    assert r.None? ==> forall i :: 0 <= i < |m| ==> Keys(m)[i] != k;
    r
  }

  /** `get(k)`: the value of the first entry with key `k`. */
  function Get<V>(m: seq<(string, V)>, k: string): (r: Option<V>)
    ensures r.None? <==> k !in Keys(m)
    ensures r.Some? ==> exists i :: 0 <= i < |m| && m[i] == (k, r.value)
  {
    match IndexOfKey(m, k)
    case None => None
    case Some(i) => Some(m[i].1)
  }

  /** `set(k, v)`: the key list grows only by a new key at the end, and
      keys stay unique. */
  function Set<V>(m: seq<(string, V)>, k: string, v: V): (r: seq<(string, V)>)
    ensures k in Keys(m) ==> Keys(r) == Keys(m)
    ensures k !in Keys(m) ==> Keys(r) == Keys(m) + [k]
    ensures UniqueKeys(m) ==> UniqueKeys(r)
  {
    match IndexOfKey(m, k)
    case None => m + [(k, v)]
    case Some(i) => m[i := (k, v)]
  }

  /** After `set(k, v)`, `k` maps to `v` and every other key keeps its
      value. */
  lemma SetGet<V>(m: seq<(string, V)>, k: string, v: V, k': string)
    ensures Get(Set(m, k, v), k) == Some(v)
    ensures k' != k ==> Get(Set(m, k, v), k') == Get(m, k')
  {
    var r := Set(m, k, v);
    match IndexOfKey(m, k)
    case None =>
      assert r[|m|] == (k, v);
      IndexOfKeyAt(r, k, |m|);
      if k' != k {
        if k' in Keys(m) {
          var j := IndexOfKey(m, k').value;
          IndexOfKeyAt(r, k', j);
        } else {
          assert k' !in Keys(r);
        }
      }
    case Some(i) =>
      IndexOfKeyAt(r, k, i);
      if k' != k {
        if k' in Keys(m) {
          var j := IndexOfKey(m, k').value;
          assert r[j] == m[j];
          IndexOfKeyAt(r, k', j);
        } else {
          assert Keys(r) == Keys(m);
        }
      }
  }

  /** The first position holding `k` is what `IndexOfKey` finds. */
  lemma IndexOfKeyAt<V>(m: seq<(string, V)>, k: string, p: nat)
    requires p < |m| && m[p].0 == k
    requires forall j :: 0 <= j < p ==> m[j].0 != k
    ensures IndexOfKey(m, k) == Some(p)
  {
    FirstIndexAt(m, KeyOf, k, p);
  }

  /** Setting the same key twice keeps only the later value, in the place
      the first set gave it. */
  lemma {:induction false} SetTwice<V>(m: seq<(string, V)>, k: string, v: V, w: V)
    ensures Set(Set(m, k, v), k, w) == Set(m, k, w)
    decreases |m|
  {
    if m != [] && m[0].0 != k {
      SetTwice(m[1..], k, v, w);
      assert ([m[0]] + Set(m[1..], k, v))[1..] == Set(m[1..], k, v);
    }
  }
}
