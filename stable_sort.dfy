/**
 * `list.sort(key=...)`: a stable sort by a real-valued key.  The library's
 * algorithm is not part of the source; the model sorts by insertion, each new
 * element going after every element whose key is not larger, and proves what
 * the call promises: ascending keys, the same elements, and the original
 * relative order among equal keys.
 */
module StableSort {

  /** Keys ascend along s. */
  predicate Sorted<T>(s: seq<T>, key: T -> real)
  {
    forall i, j :: 0 <= i < j < |s| ==> key(s[i]) <= key(s[j])
  }

  /** The elements of s whose key is k, in their order in s. */
  function WithKey<T>(s: seq<T>, key: T -> real, k: real): seq<T>
  {
    if |s| == 0 then []
    else WithKey(s[..|s| - 1], key, k) + (if key(s[|s| - 1]) == k then [s[|s| - 1]] else [])
  }

  /** x placed after the last element of t whose key is at most key(x). */
  function Insert<T>(t: seq<T>, x: T, key: T -> real): (r: seq<T>)
    ensures multiset(r) == multiset(t) + multiset{x}
  {
    if |t| == 0 || key(t[|t| - 1]) <= key(x) then t + [x]
    else
      assert t == t[..|t| - 1] + [t[|t| - 1]];
      Insert(t[..|t| - 1], x, key) + [t[|t| - 1]]
  }

  /** The stable sort: the prefix sorted, then its last element inserted. */
  function Sort<T>(s: seq<T>, key: T -> real): (r: seq<T>)
    ensures multiset(r) == multiset(s)
  {
    if |s| == 0 then []
    else
      assert s == s[..|s| - 1] + [s[|s| - 1]];
      Insert(Sort(s[..|s| - 1], key), s[|s| - 1], key)
  }

  lemma {:induction false} WithKeyAppend<T>(a: seq<T>, b: seq<T>, key: T -> real, k: real)
    ensures WithKey(a + b, key, k) == WithKey(a, key, k) + WithKey(b, key, k)
    decreases |b|
  {
    if |b| == 0 {
      assert a + b == a;
    } else {
      var b' := b[..|b| - 1];
      assert (a + b)[..|a + b| - 1] == a + b';
      WithKeyAppend(a, b', key, k);
    }
  }

  /** No key along s exceeds b. */
  predicate AllAtMost<T>(s: seq<T>, key: T -> real, b: real)
  {
    forall i :: 0 <= i < |s| ==> key(s[i]) <= b
  }

  lemma {:induction false} InsertAtMost<T>(t: seq<T>, x: T, key: T -> real, b: real)
    requires AllAtMost(t, key, b) && key(x) <= b
    ensures AllAtMost(Insert(t, x, key), key, b)
  {
    if |t| == 0 || key(t[|t| - 1]) <= key(x) {
    } else {
      var t', last := t[..|t| - 1], t[|t| - 1];
      assert AllAtMost(t', key, b);
      InsertAtMost(t', x, key, b);
      var u := Insert(t', x, key);
      assert Insert(t, x, key) == u + [last];
      assert forall i :: 0 <= i < |u| ==> (u + [last])[i] == u[i];
    }
  }

  lemma {:induction false} InsertSorted<T>(t: seq<T>, x: T, key: T -> real)
    requires Sorted(t, key)
    ensures Sorted(Insert(t, x, key), key)
  {
    if |t| == 0 || key(t[|t| - 1]) <= key(x) {
    } else {
      var t', last := t[..|t| - 1], t[|t| - 1];
      assert Sorted(t', key);
      InsertSorted(t', x, key);
      assert AllAtMost(t', key, key(last));
      InsertAtMost(t', x, key, key(last));
      var u := Insert(t', x, key);
      assert Insert(t, x, key) == u + [last];
      forall i, j | 0 <= i < j < |u| + 1 ensures key((u + [last])[i]) <= key((u + [last])[j]) {
        assert (u + [last])[i] == u[i];
        if j < |u| {
          assert (u + [last])[j] == u[j];
        }
      }
    }
  }

  lemma {:induction false} InsertKeepsOrderOfKey<T>(t: seq<T>, x: T, key: T -> real, k: real)
    requires Sorted(t, key)
    ensures WithKey(Insert(t, x, key), key, k) == WithKey(t, key, k) + WithKey([x], key, k)
  {
    if |t| == 0 || key(t[|t| - 1]) <= key(x) {
      WithKeyAppend(t, [x], key, k);
    } else {
      var t', last := t[..|t| - 1], t[|t| - 1];
      assert Sorted(t', key);
      InsertKeepsOrderOfKey(t', x, key, k);
      WithKeyAppend(Insert(t', x, key), [last], key, k);
      WithKeyAppend(t', [last], key, k);
      assert t' + [last] == t;
      // last and x cannot both have key k, since key(last) > key(x)
      assert WithKey([x], key, k) + WithKey([last], key, k)
          == WithKey([last], key, k) + WithKey([x], key, k);
    }
  }

  lemma {:induction false} SortSorted<T>(s: seq<T>, key: T -> real)
    ensures Sorted(Sort(s, key), key)
  {
    if |s| > 0 {
      SortSorted(s[..|s| - 1], key);
      InsertSorted(Sort(s[..|s| - 1], key), s[|s| - 1], key);
    }
  }

  /** Stability: for every key, the elements carrying it keep their relative order. */
  lemma {:induction false} SortStable<T>(s: seq<T>, key: T -> real, k: real)
    ensures WithKey(Sort(s, key), key, k) == WithKey(s, key, k)
  {
    if |s| > 0 {
      var s', x := s[..|s| - 1], s[|s| - 1];
      SortStable(s', key, k);
      SortSorted(s', key);
      InsertKeepsOrderOfKey(Sort(s', key), x, key, k);
      WithKeyAppend(s', [x], key, k);
      assert s' + [x] == s;
    }
  }
}
