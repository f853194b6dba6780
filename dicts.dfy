/** Python's insertion-ordered `dict`, as a sequence of (key, value) entries.

    `Put` is `d[k] = v` (an existing key keeps its position and takes the new
    value, a new key goes at the end) and `Update` is `d.update(e)`, which is
    also what the display `{**d, **e}` builds. Link sets and header sets are
    dicts of this kind, and their order is what the `Link` header shows. */
module Dicts {
  import opened Base

  ghost predicate DistinctKeys<K, V>(d: seq<(K, V)>) {
    forall i, j :: 0 <= i < j < |d| ==> d[i].0 != d[j].0
  }

  /** A dict: no key occurs twice. */
  type Dict<K(==), V> = d: seq<(K, V)> | DistinctKeys(d) witness []

  function Keys<K, V>(d: seq<(K, V)>): (ks: seq<K>)
    ensures |ks| == |d|
  {
    if d == [] then [] else [d[0].0] + Keys(d[1..])
  }

  lemma {:induction false} KeysAt<K, V>(d: seq<(K, V)>)
    ensures forall i :: 0 <= i < |d| ==> Keys(d)[i] == d[i].0
  {
    if d != [] {
      KeysAt(d[1..]);
      assert forall i :: 1 <= i < |d| ==> d[1..][i - 1] == d[i];
    }
  }

  /** `d.get(k)`: the value stored under `k`, if any. */
  function Get<K(==), V>(d: seq<(K, V)>, k: K): (r: Option<V>)
    ensures r.None? <==> k !in Keys(d)
  {
    if d == [] then None
    else if d[0].0 == k then Some(d[0].1)
    else Get(d[1..], k)
  }

  /** `d[k] = v`. */
  function Put<K(==), V>(d: seq<(K, V)>, k: K, v: V): seq<(K, V)>
  {
    if d == [] then [(k, v)]
    else if d[0].0 == k then [(k, v)] + d[1..]
    else [d[0]] + Put(d[1..], k, v)
  }

  /** `d.update(e)`, entries of `e` taken in order. */
  function Update<K(==), V>(d: seq<(K, V)>, e: seq<(K, V)>): seq<(K, V)>
    decreases |e|
  {
    if e == [] then d else Update(Put(d, e[0].0, e[0].1), e[1..])
  }

  /** The keys of `ks` that are not among `seen`, in order. */
  function Unseen<K(==)>(ks: seq<K>, seen: seq<K>): seq<K>
  {
    if ks == [] then []
    else (if ks[0] in seen then [] else [ks[0]]) + Unseen(ks[1..], seen)
  }

  lemma {:induction false} GetPut<K, V>(d: seq<(K, V)>, k: K, v: V, q: K)
    ensures Get(Put(d, k, v), q) == if q == k then Some(v) else Get(d, q)
  {
    if d != [] && d[0].0 != k {
      GetPut(d[1..], k, v, q);
    }
  }

  lemma {:induction false} KeysPut<K, V>(d: seq<(K, V)>, k: K, v: V)
    ensures Keys(Put(d, k, v)) == if k in Keys(d) then Keys(d) else Keys(d) + [k]
  {
    if d != [] && d[0].0 != k {
      KeysPut(d[1..], k, v);
      assert Keys(d) == [d[0].0] + Keys(d[1..]);
    }
  }

  lemma {:induction false} DistinctPut<K, V>(d: seq<(K, V)>, k: K, v: V)
    requires DistinctKeys(d)
    ensures DistinctKeys(Put(d, k, v))
  {
    KeysPut(d, k, v);
    var p := Put(d, k, v);
    KeysAt(d);
    KeysAt(p);
    assert Keys(p) == if k in Keys(d) then Keys(d) else Keys(d) + [k];
    forall i, j | 0 <= i < j < |p| ensures p[i].0 != p[j].0 {
      assert p[i].0 == Keys(p)[i] && p[j].0 == Keys(p)[j];
      if j < |d| {
        assert Keys(d)[i] == d[i].0 && Keys(d)[j] == d[j].0;
      } else {
        assert Keys(d)[i] == d[i].0;
      }
    }
  }

  lemma {:induction false} DistinctUpdate<K, V>(d: seq<(K, V)>, e: seq<(K, V)>)
    requires DistinctKeys(d)
    ensures DistinctKeys(Update(d, e))
    decreases |e|
  {
    if e != [] {
      DistinctPut(d, e[0].0, e[0].1);
      DistinctUpdate(Put(d, e[0].0, e[0].1), e[1..]);
    }
  }

  /** The first key of a dict does not occur again in its tail, and the tail is a dict. */
  lemma HeadNotInTail<K, V>(e: seq<(K, V)>)
    requires DistinctKeys(e) && e != []
    ensures DistinctKeys(e[1..])
    ensures Keys(e) == [e[0].0] + Keys(e[1..])
    ensures e[0].0 !in Keys(e[1..])
  {
    var t := e[1..];
    KeysAt(t);
    forall i | 0 <= i < |t| ensures Keys(t)[i] != e[0].0 {
      assert t[i] == e[i + 1];
    }
  }

  /** The merge law: a key of `e` takes `e`'s value, any other key keeps `d`'s. */
  lemma {:induction false} GetUpdate<K, V>(d: seq<(K, V)>, e: seq<(K, V)>, q: K)
    requires DistinctKeys(e)
    ensures Get(Update(d, e), q) == if q in Keys(e) then Get(e, q) else Get(d, q)
    decreases |e|
  {
    if e != [] {
      HeadNotInTail(e);
      GetUpdate(Put(d, e[0].0, e[0].1), e[1..], q);
      GetPut(d, e[0].0, e[0].1, q);
    }
  }

  /** `GetUpdate` for every key at once. */
  lemma GetUpdateAll<K, V>(d: seq<(K, V)>, e: seq<(K, V)>)
    requires DistinctKeys(e)
    ensures forall q :: Get(Update(d, e), q) == if q in Keys(e) then Get(e, q) else Get(d, q)
  {
    forall q ensures Get(Update(d, e), q) == if q in Keys(e) then Get(e, q) else Get(d, q) {
      GetUpdate(d, e, q);
    }
  }

  /** The order law: `d`'s keys keep their places, `e`'s new keys follow in `e`'s order. */
  lemma {:induction false} KeysUpdate<K, V>(d: seq<(K, V)>, e: seq<(K, V)>)
    requires DistinctKeys(e)
    ensures Keys(Update(d, e)) == Keys(d) + Unseen(Keys(e), Keys(d))
    decreases |e|
  {
    if e != [] {
      var k := e[0].0;
      HeadNotInTail(e);
      KeysUpdate(Put(d, k, e[0].1), e[1..]);
      KeysPut(d, k, e[0].1);
      UnseenExtra(Keys(e[1..]), Keys(d), k);
      UnseenCons(k, Keys(e[1..]), Keys(d));
      AppendUnseen(Keys(d), k, Unseen(Keys(e[1..]), Keys(d)));
    }
  }

  /** `Unseen` on a non-empty key list, one step unfolded. */
  lemma UnseenCons<K>(k: K, t: seq<K>, seen: seq<K>)
    ensures Unseen([k] + t, seen) == (if k in seen then [] else [k]) + Unseen(t, seen)
  {
    assert ([k] + t)[1..] == t;
  }

  /** Adding `k` to the seen keys, then the rest, regroups as the seen keys
      followed by `k` (when new) and the rest. */
  lemma AppendUnseen<K>(kd: seq<K>, k: K, u: seq<K>)
    ensures (if k in kd then kd else kd + [k]) + u == kd + ((if k in kd then [] else [k]) + u)
  {
    if k in kd {
      assert [] + u == u;
    } else {
      assert (kd + [k]) + u == kd + ([k] + u);
    }
  }

  lemma {:induction false} UnseenExtra<K>(ks: seq<K>, seen: seq<K>, k: K)
    requires k !in ks
    ensures Unseen(ks, seen) == Unseen(ks, if k in seen then seen else seen + [k])
  {
    if ks != [] {
      UnseenExtra(ks[1..], seen, k);
    }
  }

  /** Updating with one more entry is one more `d[k] = v`. */
  lemma {:induction false} UpdateSnoc<K, V>(d: seq<(K, V)>, e: seq<(K, V)>, k: K, v: V)
    ensures Update(d, e + [(k, v)]) == Put(Update(d, e), k, v)
    decreases |e|
  {
    if e != [] {
      assert (e + [(k, v)])[1..] == e[1..] + [(k, v)];
      UpdateSnoc(Put(d, e[0].0, e[0].1), e[1..], k, v);
    }
  }
}
