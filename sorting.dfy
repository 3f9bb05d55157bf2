/**
 * Python's `sorted(items, key=k, reverse=True)`: a stable sort by a
 * numeric key, largest first, where items with equal keys keep their
 * input order.  Specified as insertion from the back, with the three
 * facts callers rely on proved about it: the result is ordered, it is
 * a permutation of the input, and equal-key items keep their order.
 */
module Sorting {

  /** Insert `x` in front of the first element whose key is not larger. */
  function InsertDesc<T>(x: T, t: seq<T>, key: T -> int): seq<T> {
    if |t| == 0 || key(t[0]) <= key(x) then [x] + t else [t[0]] + InsertDesc(x, t[1..], key)
  }

  /** `sorted(s, key=key, reverse=True)`. */
  function SortDesc<T>(s: seq<T>, key: T -> int): seq<T> {
    if |s| == 0 then [] else InsertDesc(s[0], SortDesc(s[1..], key), key)
  }

  predicate SortedDesc<T>(s: seq<T>, key: T -> int) {
    forall i, j :: 0 <= i < j < |s| ==> key(s[i]) >= key(s[j])
  }

  /** The items of `s` whose key is `k`, in order. */
  function WithKey<T>(s: seq<T>, key: T -> int, k: int): seq<T> {
    if |s| == 0 then []
    else if key(s[0]) == k then [s[0]] + WithKey(s[1..], key, k)
    else WithKey(s[1..], key, k)
  }

  lemma {:induction false} InsertDescMultiset<T>(x: T, t: seq<T>, key: T -> int)
    ensures multiset(InsertDesc(x, t, key)) == multiset{x} + multiset(t)
    ensures |InsertDesc(x, t, key)| == |t| + 1
    decreases |t|
  {
    if |t| > 0 && key(t[0]) > key(x) {
      InsertDescMultiset(x, t[1..], key);
      assert t == [t[0]] + t[1..];
    }
  }

  lemma {:induction false} InsertDescSorted<T>(x: T, t: seq<T>, key: T -> int)
    requires SortedDesc(t, key)
    ensures SortedDesc(InsertDesc(x, t, key), key)
    decreases |t|
  {
    if |t| > 0 && key(t[0]) > key(x) {
      var r' := InsertDesc(x, t[1..], key);
      var r := [t[0]] + r';
      InsertDescSorted(x, t[1..], key);
      InsertDescMultiset(x, t[1..], key);
      forall j | 0 <= j < |r'| ensures key(t[0]) >= key(r'[j]) {
        assert r'[j] in multiset(r');
        if r'[j] != x {
          assert r'[j] in multiset(t[1..]);
          var m :| 0 <= m < |t[1..]| && t[1..][m] == r'[j];
          assert t[m + 1] == r'[j];
        }
      }
      forall i, j | 0 <= i < j < |r| ensures key(r[i]) >= key(r[j]) {
        if i > 0 {
          assert r[i] == r'[i - 1] && r[j] == r'[j - 1];
        } else {
          assert r[j] == r'[j - 1];
        }
      }
    }
  }

  /** The result is ordered by key, largest first. */
  lemma {:induction false} SortDescSorted<T>(s: seq<T>, key: T -> int)
    ensures SortedDesc(SortDesc(s, key), key)
  {
    if |s| > 0 {
      SortDescSorted(s[1..], key);
      InsertDescSorted(s[0], SortDesc(s[1..], key), key);
    }
  }

  /** The result holds exactly the input items, each as often as in the input. */
  lemma {:induction false} SortDescPermutation<T>(s: seq<T>, key: T -> int)
    ensures multiset(SortDesc(s, key)) == multiset(s)
    ensures |SortDesc(s, key)| == |s|
  {
    if |s| > 0 {
      SortDescPermutation(s[1..], key);
      InsertDescMultiset(s[0], SortDesc(s[1..], key), key);
      assert s == [s[0]] + s[1..];
    }
  }

  lemma {:induction false} WithKeyInsert<T>(x: T, t: seq<T>, key: T -> int, k: int)
    requires SortedDesc(t, key)
    ensures WithKey(InsertDesc(x, t, key), key, k)
            == (if key(x) == k then [x] + WithKey(t, key, k) else WithKey(t, key, k))
    decreases |t|
  {
    if |t| == 0 || key(t[0]) <= key(x) {
      assert ([x] + t)[1..] == t;
    } else {
      assert SortedDesc(t[1..], key);
      WithKeyInsert(x, t[1..], key, k);
      assert ([t[0]] + InsertDesc(x, t[1..], key))[1..] == InsertDesc(x, t[1..], key);
      if key(x) == k {
        // every item before the insertion point has a larger key than k
        assert key(t[0]) != k;
      }
    }
  }

  /** Stability: the items sharing any one key appear in their input order. */
  lemma {:induction false} SortDescStable<T>(s: seq<T>, key: T -> int, k: int)
    ensures WithKey(SortDesc(s, key), key, k) == WithKey(s, key, k)
  {
    if |s| > 0 {
      SortDescStable(s[1..], key, k);
      SortDescSorted(s[1..], key);
      WithKeyInsert(s[0], SortDesc(s[1..], key), key, k);
    }
  }

  /** An input already in order is returned as it is. */
  lemma {:induction false} SortDescOfSorted<T>(s: seq<T>, key: T -> int)
    requires SortedDesc(s, key)
    ensures SortDesc(s, key) == s
  {
    if |s| > 0 {
      assert SortedDesc(s[1..], key);
      SortDescOfSorted(s[1..], key);
    }
  }
}
