/**
 * The two library sorts the generator scripts call: Rust's `Vec<String>::sort`
 * (lexicographic, a total order) and Python's `sorted`/`list.sort` with a key
 * (stable). Both are modelled by insertion sort on values.
 */
module Sorting {
  import opened Text

  // ---------------------------------------------------------------- by key

  ghost predicate SortedByKey<T>(s: seq<T>, key: T -> int) {
    forall i :: 0 <= i < |s| - 1 ==> key(s[i]) <= key(s[i + 1])
  }

  /** Inserts `x` in front of the first element whose key is not smaller than its own. */
  function InsertByKey<T>(x: T, s: seq<T>, key: T -> int): (r: seq<T>)
    ensures multiset(r) == multiset(s) + multiset{x}
    ensures |r| == |s| + 1 && (r[0] == x || (s != [] && r[0] == s[0]))
    ensures SortedByKey(s, key) ==> SortedByKey(r, key)
  {
    if s == [] || key(x) <= key(s[0]) then [x] + s
    else
      assert s == [s[0]] + s[1..];
      [s[0]] + InsertByKey(x, s[1..], key)
  }

  /** Python's `sorted(s, key=key)`. */
  function SortByKey<T>(s: seq<T>, key: T -> int): (r: seq<T>)
    ensures multiset(r) == multiset(s)
    ensures |r| == |s|
    ensures SortedByKey(r, key)
  {
    if s == [] then []
    else
      assert s == [s[0]] + s[1..];
      InsertByKey(s[0], SortByKey(s[1..], key), key)
  }

  /** Neighbour order by key extends to every pair. */
  lemma {:induction false} SortedByKeyPairwise<T>(s: seq<T>, key: T -> int, i: nat, j: nat)
    requires SortedByKey(s, key) && i <= j < |s|
    ensures key(s[i]) <= key(s[j])
    decreases j - i
  {
    if i < j {
      SortedByKeyPairwise(s, key, i + 1, j);
    }
  }

  /** The elements of `s` whose key is `k`, in their order in `s`. */
  function WithKey<T>(s: seq<T>, key: T -> int, k: int): seq<T>
  {
    if s == [] then [] else (if key(s[0]) == k then [s[0]] else []) + WithKey(s[1..], key, k)
  }

  lemma {:induction false} WithKeyInsert<T>(x: T, s: seq<T>, key: T -> int, k: int)
    ensures WithKey(InsertByKey(x, s, key), key, k) == (if key(x) == k then [x] else []) + WithKey(s, key, k)
    decreases |s|
  {
    var r := InsertByKey(x, s, key);
    if s == [] || key(x) <= key(s[0]) {
      assert r == [x] + s;
      assert r[0] == x && r[1..] == s;
    } else {
      var r' := InsertByKey(x, s[1..], key);
      assert r[0] == s[0] && r[1..] == r';
      WithKeyInsert(x, s[1..], key, k);
      var rest := WithKey(s[1..], key, k);
      if key(s[0]) == k {
        assert WithKey(r, key, k) == [s[0]] + WithKey(r', key, k);
        assert WithKey(r', key, k) == rest;
        assert WithKey(s, key, k) == [s[0]] + rest;
      } else {
        assert WithKey(r, key, k) == WithKey(r', key, k);
        assert WithKey(s, key, k) == rest;
      }
    }
  }

  /** Sorting is stable: elements with equal keys keep their relative order. */
  lemma {:induction false} SortByKeyIsStable<T>(s: seq<T>, key: T -> int, k: int)
    ensures WithKey(SortByKey(s, key), key, k) == WithKey(s, key, k)
    decreases |s|
  {
    if s != [] {
      SortByKeyIsStable(s[1..], key, k);
      WithKeyInsert(s[0], SortByKey(s[1..], key), key, k);
    }
  }

  // ---------------------------------------------------------------- strings

  ghost predicate SortedStrings(s: seq<string>) {
    forall i :: 0 <= i < |s| - 1 ==> LexLe(s[i], s[i + 1])
  }

  function InsertString(x: string, s: seq<string>): (r: seq<string>)
    ensures multiset(r) == multiset(s) + multiset{x}
    ensures |r| == |s| + 1 && (r[0] == x || (s != [] && r[0] == s[0]))
    ensures SortedStrings(s) ==> SortedStrings(r)
  {
    if s == [] || LexLe(x, s[0]) then [x] + s
    else
      LexLeTotal(x, s[0]);
      assert s == [s[0]] + s[1..];
      [s[0]] + InsertString(x, s[1..])
  }

  /** Rust's `Vec<String>::sort`: the lexicographically ordered permutation. */
  function SortStrings(s: seq<string>): (r: seq<string>)
    ensures multiset(r) == multiset(s)
    ensures SortedStrings(r)
  {
    if s == [] then []
    else
      assert s == [s[0]] + s[1..];
      InsertString(s[0], SortStrings(s[1..]))
  }

  /** Neighbour order extends to every pair. */
  lemma {:induction false} SortedStringsPairwise(s: seq<string>, i: nat, j: nat)
    requires SortedStrings(s) && i <= j < |s|
    ensures LexLe(s[i], s[j])
    decreases j - i
  {
    if i == j {
      LexLeTotal(s[i], s[i]);
    } else {
      SortedStringsPairwise(s, i + 1, j);
      LexLeTransitive(s[i], s[i + 1], s[j]);
    }
  }
}
