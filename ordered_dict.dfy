/**
 * Python's `dict`: an insertion-ordered mapping, kept as a sequence of
 * `(key, value)` entries whose keys are distinct.
 */
module OrderedDict {
  import opened Base

  function Keys<K, V>(d: seq<(K, V)>): (ks: seq<K>)
    ensures |ks| == |d|
    ensures forall i :: 0 <= i < |d| ==> ks[i] == d[i].0
  {
    if d == [] then [] else [d[0].0] + Keys(d[1..])
  }

  predicate Distinct<K(==)>(ks: seq<K>) {
    forall i, j :: 0 <= i < j < |ks| ==> ks[i] != ks[j]
  }

  /** The entries form a dictionary: no key occurs twice. */
  predicate IsDict<K(==,!new), V>(d: seq<(K, V)>) {
    Distinct(Keys(d))
  }

  /** `d.get(k)`: the value of the first entry with key `k`. */
  function Get<K(==,!new), V>(d: seq<(K, V)>, k: K): (r: Option<V>)
    ensures r.Some? <==> k in Keys(d)
  {
    if d == [] then None else if d[0].0 == k then Some(d[0].1) else Get(d[1..], k)
  }

  /** `d[k] = v`: an existing key keeps its place and takes the new value; a new key goes last. */
  function Put<K(==,!new), V>(d: seq<(K, V)>, k: K, v: V): (r: seq<(K, V)>)
    ensures Get(r, k) == Some(v)
    ensures forall k' :: k' != k ==> Get(r, k') == Get(d, k')
    ensures k in Keys(d) ==> Keys(r) == Keys(d)
    ensures k !in Keys(d) ==> Keys(r) == Keys(d) + [k]
  {
    if d == [] then [(k, v)]
    else if d[0].0 == k then [(k, v)] + d[1..]
    else [d[0]] + Put(d[1..], k, v)
  }

  /** `d.pop(k)` on the entries: every entry with key `k` is gone, the others keep their order. */
  function Remove<K(==,!new), V>(d: seq<(K, V)>, k: K): (r: seq<(K, V)>)
    ensures Get(r, k) == None
    ensures forall k' :: k' != k ==> Get(r, k') == Get(d, k')
    ensures forall x :: x in Keys(r) <==> x in Keys(d) && x != k
    ensures IsDict(d) ==> IsDict(r)
  {
    if d == [] then []
    else
      var rest := Remove(d[1..], k);
      if d[0].0 == k then rest
      else
        assert IsDict(d) ==> d[0].0 !in Keys(d[1..]) && IsDict(d[1..]) by {
          if IsDict(d) {
            forall i, j | 0 <= i < j < |d[1..]| ensures Keys(d[1..])[i] != Keys(d[1..])[j] {
              assert Keys(d)[i + 1] != Keys(d)[j + 1];
            }
            forall i | 0 <= i < |d[1..]| ensures Keys(d[1..])[i] != d[0].0 {
              assert Keys(d)[0] != Keys(d)[i + 1];
            }
          }
        }
        [d[0]] + rest
  }

  /** The value of the last entry with key `k`: what a dict built from `e` holds for `k`. */
  function GetLast<K(==,!new), V>(e: seq<(K, V)>, k: K): (r: Option<V>)
    ensures r.Some? <==> k in Keys(e)
  {
    if e == [] then None
    else
      match GetLast(e[1..], k)
      case Some(v) => Some(v)
      case None => if e[0].0 == k then Some(e[0].1) else None
  }

  /** `d.update(e)`: put every entry of `e`, in order. */
  function Update<K(==,!new), V>(d: seq<(K, V)>, e: seq<(K, V)>): (r: seq<(K, V)>)
    ensures forall k :: Get(r, k) == (if k in Keys(e) then GetLast(e, k) else Get(d, k))
    ensures forall x :: x in Keys(r) <==> x in Keys(d) || x in Keys(e)
    ensures IsDict(d) ==> IsDict(r)
    decreases |e|
  {
    if e == [] then d
    else
      var d' := Put(d, e[0].0, e[0].1);
      assert IsDict(d) ==> IsDict(d');
      Update(d', e[1..])
  }

  /** `dict(ps)` / `OrderedDict(ps)`: later pairs overwrite earlier ones with the same key. */
  function FromPairs<K(==,!new), V>(ps: seq<(K, V)>): (d: seq<(K, V)>)
    ensures IsDict(d)
    ensures forall x :: x in Keys(d) <==> x in Keys(ps)
    ensures forall k :: Get(d, k) == GetLast(ps, k)
  {
    Update([], ps)
  }

  /** In a dictionary, `Get` finds the entry at every position. */
  lemma {:induction false} GetAt<K(!new), V>(d: seq<(K, V)>, i: nat)
    requires IsDict(d) && i < |d|
    ensures Get(d, d[i].0) == Some(d[i].1)
  {
    if i > 0 {
      assert Keys(d)[0] != Keys(d)[i];
      assert IsDict(d[1..]) by {
        forall a, b | 0 <= a < b < |d[1..]| ensures Keys(d[1..])[a] != Keys(d[1..])[b] {
          assert Keys(d)[a + 1] != Keys(d)[b + 1];
        }
      }
      GetAt(d[1..], i - 1);
    }
  }

  /** A dictionary object that methods change in place. */
  class PyDict<K(==,!new), V> {
    var entries: seq<(K, V)>

    ghost predicate Valid()
      reads this
    {
      IsDict(entries)
    }

    constructor (entries: seq<(K, V)>)
      requires IsDict(entries)
      ensures Valid() && this.entries == entries
    {
      this.entries := entries;
    }
  }
}
