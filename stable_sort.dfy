/**
  * `Array.prototype.sort` with a comparator, which is stable: elements the
  * comparator ranks equal keep their input order. Every comparator the client
  * passes compares a pair of integers lexicographically (a timestamp, or an
  * active flag and then a timestamp), so the comparator is given here by a
  * `Key` per element, and `cmp(a, b) < 0` is `Before(key(a), key(b))`.
  *
  * `SortBy` is insertion sort: each element, taken in input order, goes after
  * every element already placed whose key is not greater than its own.
  * `SortByCorrect` proves it sorted, a permutation and stable.
  */
module StableSort {

  /** A sort key, compared lexicographically: `major` first, then `minor`. */
  datatype Key = Key(major: int, minor: int)

  /** `a` sorts strictly before `b`. */
  predicate Before(a: Key, b: Key) {
    a.major < b.major || (a.major == b.major && a.minor < b.minor)
  }

  /** No element is followed by one whose key sorts strictly before its own. */
  ghost predicate SortedBy<T>(s: seq<T>, key: T -> Key) {
    forall i, j :: 0 <= i < j < |s| ==> !Before(key(s[j]), key(s[i]))
  }

  /** The elements of `s` whose key is `k`, in their order in `s`. */
  function WithKey<T>(s: seq<T>, key: T -> Key, k: Key): seq<T> {
    if s == [] then []
    else (if key(s[0]) == k then [s[0]] else []) + WithKey(s[1..], key, k)
  }

  /** `x` placed into `s` just before the first element whose key is greater than its own. */
  function Insert<T>(x: T, s: seq<T>, key: T -> Key): seq<T> {
    if s == [] then [x]
    else if Before(key(x), key(s[0])) then [x] + s
    else [s[0]] + Insert(x, s[1..], key)
  }

  /** A stable sort of `s` by `key`. */
  function SortBy<T>(s: seq<T>, key: T -> Key): seq<T> {
    if s == [] then [] else Insert(s[|s| - 1], SortBy(s[..|s| - 1], key), key)
  }

  lemma {:induction false} InsertPermutes<T>(x: T, s: seq<T>, key: T -> Key)
    ensures multiset(Insert(x, s, key)) == multiset(s) + multiset{x}
    ensures |Insert(x, s, key)| == |s| + 1
    decreases |s|
  {
    if s != [] && !Before(key(x), key(s[0])) {
      InsertPermutes(x, s[1..], key);
      assert s == [s[0]] + s[1..];
    }
  }

  /** Every element of `s` has a key not before `k`. */
  ghost predicate NoneBefore<T>(k: Key, s: seq<T>, key: T -> Key) {
    forall i :: 0 <= i < |s| ==> !Before(key(s[i]), k)
  }

  lemma {:induction false} InsertNoneBefore<T>(k: Key, x: T, s: seq<T>, key: T -> Key)
    requires NoneBefore(k, s, key) && !Before(key(x), k)
    ensures NoneBefore(k, Insert(x, s, key), key)
    decreases |s|
  {
    if s != [] && !Before(key(x), key(s[0])) {
      InsertNoneBefore(k, x, s[1..], key);
    }
  }

  lemma {:induction false} InsertSorted<T>(x: T, s: seq<T>, key: T -> Key)
    requires SortedBy(s, key)
    ensures SortedBy(Insert(x, s, key), key)
    decreases |s|
  {
    if s != [] {
      if Before(key(x), key(s[0])) {
        assert NoneBefore(key(x), s, key);
      } else {
        var t := Insert(x, s[1..], key);
        InsertSorted(x, s[1..], key);
        assert NoneBefore(key(s[0]), s[1..], key);
        InsertNoneBefore(key(s[0]), x, s[1..], key);
        var r := [s[0]] + t;
        forall i, j | 0 <= i < j < |r| ensures !Before(key(r[j]), key(r[i])) {
          if i > 0 {
            assert r[i] == t[i - 1] && r[j] == t[j - 1];
          } else {
            assert r[j] == t[j - 1];
          }
        }
      }
    }
  }

  lemma {:induction false} WithKeyAppend<T>(a: seq<T>, b: seq<T>, key: T -> Key, k: Key)
    ensures WithKey(a + b, key, k) == WithKey(a, key, k) + WithKey(b, key, k)
    decreases |a|
  {
    if a == [] {
      assert a + b == b;
    } else {
      assert (a + b)[1..] == a[1..] + b;
      WithKeyAppend(a[1..], b, key, k);
    }
  }

  lemma WithKeyLast<T>(init: seq<T>, last: T, key: T -> Key, k: Key)
    ensures WithKey(init + [last], key, k) == WithKey(init, key, k) + (if key(last) == k then [last] else [])
  {
    WithKeyAppend(init, [last], key, k);
    assert WithKey([last], key, k) == (if key(last) == k then [last] else []) + WithKey([], key, k);
  }

  lemma {:induction false} WithKeyAbsent<T>(s: seq<T>, key: T -> Key, k: Key)
    requires forall i :: 0 <= i < |s| ==> key(s[i]) != k
    ensures WithKey(s, key, k) == []
    decreases |s|
  {
    if s != [] {
      WithKeyAbsent(s[1..], key, k);
    }
  }

  /** Inserting into a sorted list puts `x` after every element with the same key. */
  lemma {:induction false} InsertWithKey<T>(x: T, s: seq<T>, key: T -> Key, k: Key)
    requires SortedBy(s, key)
    ensures WithKey(Insert(x, s, key), key, k)
         == WithKey(s, key, k) + (if key(x) == k then [x] else [])
    decreases |s|
  {
    if s == [] {
      assert WithKey([x], key, k) == (if key(x) == k then [x] else []) + WithKey([], key, k);
    } else if Before(key(x), key(s[0])) {
      assert ([x] + s)[1..] == s;
      if key(x) == k {
        forall i | 0 <= i < |s| ensures key(s[i]) != k {
          if i > 0 {
            assert !Before(key(s[i]), key(s[0]));
          }
        }
        WithKeyAbsent(s, key, k);
      }
    } else {
      var rest := Insert(x, s[1..], key);
      assert SortedBy(s[1..], key) by {
        forall i, j | 0 <= i < j < |s[1..]| ensures !Before(key(s[1..][j]), key(s[1..][i])) {
          assert s[1..][i] == s[i + 1] && s[1..][j] == s[j + 1];
        }
      }
      InsertWithKey(x, s[1..], key, k);
      var head := if key(s[0]) == k then [s[0]] else [];
      assert ([s[0]] + rest)[1..] == rest;
      assert WithKey([s[0]] + rest, key, k) == head + WithKey(rest, key, k);
      assert WithKey(s, key, k) == head + WithKey(s[1..], key, k);
    }
  }

  /** The three facts that make `SortBy` the stable sort of `s`: the result is in key
      order, it is a permutation of `s`, and for every key the elements carrying it
      appear in the same order as in `s`. */
  lemma {:induction false} SortByCorrect<T>(s: seq<T>, key: T -> Key)
    ensures SortedBy(SortBy(s, key), key)
    ensures multiset(SortBy(s, key)) == multiset(s)
    ensures |SortBy(s, key)| == |s|
    ensures forall k :: WithKey(SortBy(s, key), key, k) == WithKey(s, key, k)
    decreases |s|
  {
    if s != [] {
      var init, last := s[..|s| - 1], s[|s| - 1];
      var sorted := SortBy(init, key);
      SortByCorrect(init, key);
      InsertSorted(last, sorted, key);
      InsertPermutes(last, sorted, key);
      assert s == init + [last];
      forall k ensures WithKey(SortBy(s, key), key, k) == WithKey(s, key, k) {
        InsertWithKey(last, sorted, key, k);
        WithKeyLast(init, last, key, k);
      }
    }
  }

  /** Where `Insert` puts `x`: after the first `j` elements, when `x` is not before any
      of them and sorts strictly before the element at `j`. */
  lemma {:induction false} InsertAt<T>(x: T, s: seq<T>, key: T -> Key, j: nat)
    requires j <= |s|
    requires forall i :: 0 <= i < j ==> !Before(key(x), key(s[i]))
    requires j < |s| ==> Before(key(x), key(s[j]))
    ensures Insert(x, s, key) == s[..j] + [x] + s[j..]
    decreases j
  {
    if j == 0 {
      assert s[..0] + [x] + s[0..] == [x] + s;
    } else {
      InsertAt(x, s[1..], key, j - 1);
      assert s[..j] + [x] + s[j..] == [s[0]] + (s[1..][..j - 1] + [x] + s[1..][j - 1..]);
    }
  }

  /** A prefix of a sorted list is sorted. */
  lemma PrefixSorted<T>(s: seq<T>, key: T -> Key, n: nat)
    requires SortedBy(s, key) && n <= |s|
    ensures SortedBy(s[..n], key)
  {
    forall i, j | 0 <= i < j < n ensures !Before(key(s[..n][j]), key(s[..n][i])) {
      assert s[..n][i] == s[i] && s[..n][j] == s[j];
    }
  }

  /** Elements that all carry the same key keep their input order. */
  lemma {:induction false} SortByOneKey<T>(s: seq<T>, key: T -> Key, k: Key)
    requires forall i :: 0 <= i < |s| ==> key(s[i]) == k
    ensures SortBy(s, key) == s
    decreases |s|
  {
    if s != [] {
      var init, last := s[..|s| - 1], s[|s| - 1];
      SortByOneKey(init, key, k);
      InsertAt(last, init, key, |init|);
      assert init + [last] == s;
    }
  }
}
