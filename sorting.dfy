/** The stable sort behind Kotlin's `sortedWith`/`sortedBy`, for the
    comparators the artist screen builds: an integer first, then a string. */
module Sorting {
  import opened Text

  /** A comparator key: `compareBy({ primary }).thenBy { secondary }`. */
  datatype SortKey = SortKey(primary: int, secondary: string)

  predicate KeyLe(a: SortKey, b: SortKey) {
    a.primary < b.primary || (a.primary == b.primary && StrLe(a.secondary, b.secondary))
  }

  lemma KeyLeTotal(a: SortKey, b: SortKey)
    ensures KeyLe(a, b) || KeyLe(b, a)
    ensures KeyLe(a, b) && KeyLe(b, a) ==> a == b
  {
    StrLeTotal(a.secondary, b.secondary);
  }

  lemma KeyLeTransitive(a: SortKey, b: SortKey, c: SortKey)
    requires KeyLe(a, b) && KeyLe(b, c)
    ensures KeyLe(a, c)
  {
    if a.primary == b.primary == c.primary {
      StrLeTransitive(a.secondary, b.secondary, c.secondary);
    }
  }

  /** Each element's key is at most the next one's. */
  predicate SortedBy<T>(s: seq<T>, key: T -> SortKey) {
    forall i :: 0 < i < |s| ==> KeyLe(key(s[i - 1]), key(s[i]))
  }

  /** Inserts x after every element whose key is not greater than x's. */
  function Insert<T>(x: T, s: seq<T>, key: T -> SortKey): seq<T>
    decreases |s|
  {
    if s == [] then [x]
    else if KeyLe(key(s[0]), key(x)) then [s[0]] + Insert(x, s[1..], key)
    else [x] + s
  }

  /** The stable sort: insert the elements one by one, in input order. */
  function SortBy<T>(xs: seq<T>, key: T -> SortKey): seq<T>
    decreases |xs|
  {
    if xs == [] then [] else Insert(xs[|xs| - 1], SortBy(xs[..|xs| - 1], key), key)
  }

  lemma {:induction false} InsertIsPermutation<T>(x: T, s: seq<T>, key: T -> SortKey)
    ensures multiset(Insert(x, s, key)) == multiset(s) + multiset{x}
    decreases |s|
  {
    if s != [] && KeyLe(key(s[0]), key(x)) {
      InsertIsPermutation(x, s[1..], key);
      assert s == [s[0]] + s[1..];
    }
  }

  /** The sort loses and adds nothing. */
  lemma {:induction false} SortByIsPermutation<T>(xs: seq<T>, key: T -> SortKey)
    ensures multiset(SortBy(xs, key)) == multiset(xs)
    decreases |xs|
  {
    if xs != [] {
      var n := |xs| - 1;
      SortByIsPermutation(xs[..n], key);
      InsertIsPermutation(xs[n], SortBy(xs[..n], key), key);
      assert xs == xs[..n] + [xs[n]];
    }
  }

  lemma {:induction false} InsertKeepsSorted<T>(x: T, s: seq<T>, key: T -> SortKey)
    requires SortedBy(s, key)
    ensures SortedBy(Insert(x, s, key), key)
    decreases |s|
  {
    if s != [] && KeyLe(key(s[0]), key(x)) {
      InsertKeepsSorted(x, s[1..], key);
      var r := Insert(x, s[1..], key);
      if s[1..] != [] && KeyLe(key(s[1]), key(x)) {
        assert r[0] == s[1];
      } else {
        assert r[0] == x;
      }
    } else if s != [] {
      KeyLeTotal(key(s[0]), key(x));
    }
  }

  /** The result is sorted by the key. */
  lemma {:induction false} SortByIsSorted<T>(xs: seq<T>, key: T -> SortKey)
    ensures SortedBy(SortBy(xs, key), key)
    decreases |xs|
  {
    if xs != [] {
      SortByIsSorted(xs[..|xs| - 1], key);
      InsertKeepsSorted(xs[|xs| - 1], SortBy(xs[..|xs| - 1], key), key);
    }
  }

  /** The elements of s whose key is k, in order. */
  function WithKey<T>(s: seq<T>, key: T -> SortKey, k: SortKey): seq<T>
    decreases |s|
  {
    if s == [] then []
    else (if key(s[0]) == k then [s[0]] else []) + WithKey(s[1..], key, k)
  }

  lemma {:induction false} WithKeyConcat<T>(a: seq<T>, b: seq<T>, key: T -> SortKey, k: SortKey)
    ensures WithKey(a + b, key, k) == WithKey(a, key, k) + WithKey(b, key, k)
    decreases |a|
  {
    if a == [] {
      assert a + b == b;
    } else {
      WithKeyConcat(a[1..], b, key, k);
      assert (a + b)[1..] == a[1..] + b;
    }
  }

  /** In a sorted sequence, every element with key k comes before an element
      inserted with key k: it goes after them. */
  lemma {:induction false} InsertWithKey<T>(x: T, s: seq<T>, key: T -> SortKey, k: SortKey)
    requires SortedBy(s, key)
    ensures WithKey(Insert(x, s, key), key, k) == WithKey(s, key, k) + (if key(x) == k then [x] else [])
    decreases |s|
  {
    if s == [] {
      assert WithKey([x], key, k) == (if key(x) == k then [x] else []) + WithKey([], key, k);
    } else if KeyLe(key(s[0]), key(x)) {
      var r := Insert(x, s[1..], key);
      InsertWithKey(x, s[1..], key, k);
      assert ([s[0]] + r)[1..] == r;
    } else {
      assert ([x] + s)[1..] == s;
      if key(x) == k {
        NoneBelowKey(s, key, k);
      }
    }
  }

  /** A sorted sequence whose first key is greater than k holds no element with key k. */
  lemma {:induction false} NoneBelowKey<T>(s: seq<T>, key: T -> SortKey, k: SortKey)
    requires SortedBy(s, key) && s != [] && !KeyLe(key(s[0]), k)
    ensures WithKey(s, key, k) == []
    decreases |s|
  {
    KeyLeTotal(k, k);
    if |s| > 1 {
      if KeyLe(key(s[1]), k) {
        KeyLeTransitive(key(s[0]), key(s[1]), k);
      }
      assert s[1..][0] == s[1];
      NoneBelowKey(s[1..], key, k);
    }
  }

  /** In a sorted sequence every key is at most every later key. */
  lemma {:induction false} SortedPairwise<T>(s: seq<T>, key: T -> SortKey, i: nat, j: nat)
    requires SortedBy(s, key) && i <= j < |s|
    ensures KeyLe(key(s[i]), key(s[j]))
    decreases j
  {
    if i == j {
      KeyLeTotal(key(s[i]), key(s[i]));
    } else {
      SortedPairwise(s, key, i, j - 1);
      KeyLeTransitive(key(s[i]), key(s[j - 1]), key(s[j]));
    }
  }

  /** Stability: the elements sharing any one key keep their input order. */
  lemma {:induction false} SortByIsStable<T>(xs: seq<T>, key: T -> SortKey, k: SortKey)
    ensures WithKey(SortBy(xs, key), key, k) == WithKey(xs, key, k)
    decreases |xs|
  {
    if xs != [] {
      var n := |xs| - 1;
      SortByIsStable(xs[..n], key, k);
      SortByIsSorted(xs[..n], key);
      InsertWithKey(xs[n], SortBy(xs[..n], key), key, k);
      WithKeyConcat(xs[..n], [xs[n]], key, k);
      assert xs == xs[..n] + [xs[n]];
      assert WithKey([xs[n]], key, k) == (if key(xs[n]) == k then [xs[n]] else []) + WithKey([], key, k);
    }
  }
}
