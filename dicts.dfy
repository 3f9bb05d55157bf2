/**
 * Python dictionaries with string keys, as the ordered list of their
 * entries: iteration follows insertion order, and assigning to a present
 * key replaces its value where it stands.
 */
module Dicts {
  import opened Wrappers

  type Dict<V> = seq<(string, V)>

  function Keys<V(==)>(d: Dict<V>): set<string> {
    set e | e in d :: e.0
  }

  predicate DistinctKeys<V(==)>(d: Dict<V>) {
    forall i, j :: 0 <= i < j < |d| ==> d[i].0 != d[j].0
  }

  /** `d.get(k)`. */
  function Get<V(==)>(d: Dict<V>, k: string): (r: Option<V>)
    ensures r.None? <==> k !in Keys(d)
    ensures r.Some? ==> (k, r.value) in d
  {
    if |d| == 0 then None
    else if d[0].0 == k then Some(d[0].1)
    else
      assert forall e :: e in d[1..] ==> e in d;
      assert forall e :: e in d && e != d[0] ==> e in d[1..];
      Get(d[1..], k)
  }

  lemma KeysCons<V>(d: Dict<V>)
    requires |d| > 0
    ensures Keys(d) == {d[0].0} + Keys(d[1..])
  {
    assert forall e :: e in d <==> e == d[0] || e in d[1..];
  }

  /** `d[k] = v`. */
  function Put<V(==)>(d: Dict<V>, k: string, v: V): (r: Dict<V>)
    ensures Keys(r) == Keys(d) + {k}
    ensures k !in Keys(d) ==> r == d + [(k, v)]
    ensures |r| == if k in Keys(d) then |d| else |d| + 1
    ensures forall e :: e in r ==> e in d || e == (k, v)
  {
    if |d| == 0 then [(k, v)]
    else
      KeysCons(d);
      if d[0].0 == k then
        KeysCons([(k, v)] + d[1..]);
        assert ([(k, v)] + d[1..])[1..] == d[1..];
        [(k, v)] + d[1..]
      else
        var rest := Put(d[1..], k, v);
        var r := [d[0]] + rest;
        KeysCons(r);
        assert r[1..] == rest;
        r
  }

  lemma {:induction false} PutGet<V>(d: Dict<V>, k: string, v: V)
    ensures Get(Put(d, k, v), k) == Some(v)
    ensures forall k' :: k' != k ==> Get(Put(d, k, v), k') == Get(d, k')
  {
    if |d| > 0 && d[0].0 != k {
      PutGet(d[1..], k, v);
      assert Put(d, k, v)[1..] == Put(d[1..], k, v);
    } else if |d| > 0 {
      assert Put(d, k, v)[1..] == d[1..];
    }
  }

  lemma {:induction false} PutDistinct<V>(d: Dict<V>, k: string, v: V)
    requires DistinctKeys(d)
    ensures DistinctKeys(Put(d, k, v))
  {
    if |d| > 0 {
      DistinctTail(d);
      if d[0].0 == k {
        DistinctCons((k, v), d[1..]);
      } else {
        PutDistinct(d[1..], k, v);
        DistinctCons(d[0], Put(d[1..], k, v));
      }
    }
  }

  /** In a dictionary without repeated keys, every entry is what its key looks up. */
  lemma {:induction false} GetOfEntry<V>(d: Dict<V>, k: string, v: V)
    requires DistinctKeys(d) && (k, v) in d
    ensures Get(d, k) == Some(v)
  {
    var i :| 0 <= i < |d| && d[i] == (k, v);
    if d[0].0 == k {
      assert i == 0;
    } else {
      assert d[1..][i - 1] == (k, v);
      GetOfEntry(d[1..], k, v);
    }
  }

  /** `d.pop(k)` on a present key: the first entry with that key goes, the others keep their order. */
  function Remove<V(==)>(d: Dict<V>, k: string): (r: Dict<V>)
    ensures Keys(r) <= Keys(d)
    ensures k !in Keys(d) ==> r == d
    decreases |d|
  {
    if |d| == 0 then []
    else
      KeysCons(d);
      if d[0].0 == k then d[1..]
      else
        var r := [d[0]] + Remove(d[1..], k);
        KeysCons(r);
        assert r[1..] == Remove(d[1..], k);
        r
  }

  /** Without repeated keys, removing `k` loses `k` and nothing else. */
  lemma {:induction false} RemoveGet<V>(d: Dict<V>, k: string)
    requires DistinctKeys(d)
    ensures DistinctKeys(Remove(d, k))
    ensures Get(Remove(d, k), k) == None
    ensures forall k' :: k' != k ==> Get(Remove(d, k), k') == Get(d, k')
    decreases |d|
  {
    if |d| > 0 {
      DistinctTail(d);
      if d[0].0 != k {
        RemoveGet(d[1..], k);
        var rest := Remove(d[1..], k);
        assert ([d[0]] + rest)[1..] == rest;
        DistinctCons(d[0], rest);
      }
    }
  }

  /** The tail of a dictionary without repeated keys has none either, and lacks the first key. */
  lemma DistinctTail<V>(d: Dict<V>)
    requires |d| > 0 && DistinctKeys(d)
    ensures DistinctKeys(d[1..]) && d[0].0 !in Keys(d[1..])
  {
    forall i, j | 0 <= i < j < |d[1..]| ensures d[1..][i].0 != d[1..][j].0 {
      assert d[1..][i] == d[i + 1] && d[1..][j] == d[j + 1];
    }
    forall e | e in d[1..] ensures e.0 != d[0].0 {
      var m :| 0 <= m < |d[1..]| && d[1..][m] == e;
      assert d[m + 1] == e;
    }
  }

  /** An entry whose key the rest lacks can be put in front without repeating a key. */
  lemma DistinctCons<V>(x: (string, V), rest: Dict<V>)
    requires DistinctKeys(rest) && x.0 !in Keys(rest)
    ensures DistinctKeys([x] + rest)
  {
    var r := [x] + rest;
    forall i, j | 0 <= i < j < |r| ensures r[i].0 != r[j].0 {
      assert r[j] == rest[j - 1];
      assert rest[j - 1] in rest;
      if i > 0 { assert r[i] == rest[i - 1]; }
    }
  }

  /** The sum of a count read off every value, in entry order. */
  function SumOf<V>(d: Dict<V>, f: V -> nat): nat
    decreases |d|
  {
    if |d| == 0 then 0 else f(d[0].1) + SumOf(d[1..], f)
  }

  /** Assigning to a key trades the count of its old value, if any, for the count of the new one. */
  lemma {:induction false} PutSum<V>(d: Dict<V>, k: string, v: V, f: V -> nat)
    ensures Get(d, k).Some? ==> SumOf(Put(d, k, v), f) + f(Get(d, k).value) == SumOf(d, f) + f(v)
    ensures Get(d, k).None? ==> SumOf(Put(d, k, v), f) == SumOf(d, f) + f(v)
    decreases |d|
  {
    if |d| > 0 {
      if d[0].0 == k {
        assert Put(d, k, v)[1..] == d[1..];
      } else {
        PutSum(d[1..], k, v, f);
        assert Put(d, k, v)[1..] == Put(d[1..], k, v);
      }
    }
  }

  /** Every value satisfies `p`. */
  predicate All<V(==)>(d: Dict<V>, p: V -> bool) {
    forall e :: e in d ==> p(e.1)
  }

  /** Assigning a value that satisfies `p` keeps every value satisfying it, and so does looking one up. */
  lemma PutAll<V>(d: Dict<V>, k: string, v: V, p: V -> bool)
    requires All(d, p)
    ensures Get(d, k).Some? ==> p(Get(d, k).value)
    ensures p(v) ==> All(Put(d, k, v), p)
  {}
}
