/**
 * `orderBy: { createdAt: 'desc' }`: records ordered newest first. The store
 * leaves the order of equal timestamps open; this model keeps them in their
 * store order (a stable sort).
 */
module Order {

  /** Keys never increase from left to right. */
  predicate NewestFirst<T>(s: seq<T>, key: T -> int)
  {
    forall i, j :: 0 <= i < j < |s| ==> key(s[i]) >= key(s[j])
  }

  /** `x` placed in front of the first element of `s` that is not newer than it. */
  function InsertNewest<T>(x: T, s: seq<T>, key: T -> int): (r: seq<T>)
    requires NewestFirst(s, key)
    ensures NewestFirst(r, key)
    ensures multiset(r) == multiset(s) + multiset{x}
    ensures |r| == |s| + 1
    ensures r[0] == x || (s != [] && r[0] == s[0])
  {
    if s == [] || key(x) >= key(s[0]) then [x] + s
    else
      assert s == [s[0]] + s[1..];
      [s[0]] + InsertNewest(x, s[1..], key)
  }

  /** The records of `s`, newest first. */
  function SortNewestFirst<T>(s: seq<T>, key: T -> int): (r: seq<T>)
    ensures NewestFirst(r, key)
    ensures multiset(r) == multiset(s)
    ensures |r| == |s|
  {
    if s == [] then []
    else
      assert s == [s[0]] + s[1..];
      InsertNewest(s[0], SortNewestFirst(s[1..], key), key)
  }

  /** Sorting keeps exactly the records it was given: membership is unchanged. */
  lemma SortKeepsMembers<T>(s: seq<T>, key: T -> int, x: T)
    ensures x in SortNewestFirst(s, key) <==> x in s
  {
    var r := SortNewestFirst(s, key);
    assert x in r <==> x in multiset(r);
    assert x in s <==> x in multiset(s);
  }

  /** A list already ordered newest first with distinct keys is left as it is. */
  lemma {:induction false} SortOrderedIsIdentity<T>(s: seq<T>, key: T -> int)
    requires forall i, j :: 0 <= i < j < |s| ==> key(s[i]) > key(s[j])
    ensures SortNewestFirst(s, key) == s
  {
    if s != [] {
      SortOrderedIsIdentity(s[1..], key);
      assert s == [s[0]] + s[1..];
    }
  }
  /** The records of `s` whose key is `k`, in their order in `s`. */
  function WithKey<T>(s: seq<T>, key: T -> int, k: int): (r: seq<T>)
    ensures |r| <= |s|
    ensures forall i :: 0 <= i < |r| ==> r[i] in s && key(r[i]) == k
  {
    if s == [] then [] else (if key(s[0]) == k then [s[0]] else []) + WithKey(s[1..], key, k)
  }

  /** Taking the records of one key from `[x] + s`: `x` first, if it has that key. */
  lemma WithKeyCons<T>(x: T, s: seq<T>, key: T -> int, k: int)
    ensures WithKey([x] + s, key, k) == (if key(x) == k then [x] else []) + WithKey(s, key, k)
  {
    assert ([x] + s)[0] == x && ([x] + s)[1..] == s;
  }

  /**
   * Inserting `x` puts it in front of every record with the same key, and
   * leaves the records of every key in their order.
   */
  lemma {:induction false} InsertNewestWithKey<T>(x: T, s: seq<T>, key: T -> int, k: int)
    requires NewestFirst(s, key)
    ensures WithKey(InsertNewest(x, s, key), key, k) == (if key(x) == k then [x] else []) + WithKey(s, key, k)
  {
    if s == [] || key(x) >= key(s[0]) {
      WithKeyCons(x, s, key, k);
    } else {
      var tail := s[1..];
      assert NewestFirst(tail, key);
      InsertNewestWithKey(x, tail, key, k);
      WithKeyCons(s[0], InsertNewest(x, tail, key), key, k);
      assert s == [s[0]] + tail;
      WithKeyCons(s[0], tail, key, k);
    }
  }

  /**
   * The sort is stable: the records that share a key appear in the result in
   * the order they had in `s`.
   */
  lemma {:induction false} SortIsStable<T>(s: seq<T>, key: T -> int, k: int)
    ensures WithKey(SortNewestFirst(s, key), key, k) == WithKey(s, key, k)
  {
    if s != [] {
      SortIsStable(s[1..], key, k);
      InsertNewestWithKey(s[0], SortNewestFirst(s[1..], key), key, k);
    }
  }
}
