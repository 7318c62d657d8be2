/** Array.prototype.sort with a comparator of the form `(a, b) => key(a) - key(b)`.
    ECMAScript requires the sort to be stable, so it is modelled by an insertion
    sort that places each element before the first later-or-equal key: elements
    with equal keys keep their original order. */
module Sorting {
  import opened Seqs

  /** Keys never decrease along `s`. */
  ghost predicate SortedBy<T>(s: seq<T>, key: T -> int)
  {
    forall i, j :: 0 <= i < j < |s| ==> key(s[i]) <= key(s[j])
  }

  /** Inserts `x` in front of the first element whose key is at least `key(x)`. */
  function Insert<T>(x: T, s: seq<T>, key: T -> int): (r: seq<T>)
    ensures |r| == |s| + 1
    ensures multiset(r) == multiset(s) + multiset{x}
  {
    if s == [] || key(x) <= key(s[0]) then
      [x] + s
    else
      assert s == [s[0]] + s[1..];
      [s[0]] + Insert(x, s[1..], key)
  }

  /** Inserting into a sorted list keeps it sorted. */
  lemma {:induction false} InsertSorted<T>(x: T, s: seq<T>, key: T -> int)
    requires SortedBy(s, key)
    ensures SortedBy(Insert(x, s, key), key)
  {
    if s == [] || key(x) <= key(s[0]) {
      var r := [x] + s;
      forall i, j | 0 <= i < j < |r|
        ensures key(r[i]) <= key(r[j])
      {
        if i == 0 {
          assert r[j] == s[j - 1];
        } else {
          assert r[i] == s[i - 1] && r[j] == s[j - 1];
        }
      }
    } else {
      var rest := Insert(x, s[1..], key);
      InsertSorted(x, s[1..], key);
      forall k | 0 <= k < |rest|
        ensures key(s[0]) <= key(rest[k])
      {
        var y := rest[k];
        assert y in multiset(rest);
        if y != x {
          assert y in multiset(s[1..]);
          var m :| 0 <= m < |s[1..]| && s[1..][m] == y;
          assert s[m + 1] == y;
        }
      }
      var r := [s[0]] + rest;
      forall i, j | 0 <= i < j < |r|
        ensures key(r[i]) <= key(r[j])
      {
        assert r[j] == rest[j - 1];
        if i > 0 {
          assert r[i] == rest[i - 1];
        }
      }
    }
  }

  /** The stable sort of `s` by ascending `key`. */
  function SortBy<T>(s: seq<T>, key: T -> int): (r: seq<T>)
    ensures |r| == |s|
    ensures multiset(r) == multiset(s)
    ensures SortedBy(r, key)
  {
    if s == [] then []
    else
      assert s == [s[0]] + s[1..];
      var rest := SortBy(s[1..], key);
      InsertSorted(s[0], rest, key);
      Insert(s[0], rest, key)
  }

  /** A comparator that always answers 0 leaves the list as it is. */
  lemma {:induction false} SortByConstant<T>(s: seq<T>, key: T -> int, k: int)
    requires forall x :: x in s ==> key(x) == k
    ensures SortBy(s, key) == s
  {
    if s != [] {
      SortByConstant(s[1..], key, k);
    }
  }

  /** Inserting an element whose key exceeds every key of `small` and does not
      exceed the first key of `big` puts it between the two. */
  lemma {:induction false} InsertBetween<T>(x: T, small: seq<T>, big: seq<T>, key: T -> int)
    requires forall y :: y in small ==> key(y) < key(x)
    requires big == [] || key(x) <= key(big[0])
    ensures Insert(x, small + big, key) == small + [x] + big
  {
    if small == [] {
      assert small + big == big;
    } else {
      assert (small + big)[0] == small[0];
      assert (small + big)[1..] == small[1..] + big;
      InsertBetween(x, small[1..], big, key);
    }
  }

  lemma AppendAssoc<T>(a: seq<T>, b: seq<T>, c: seq<T>)
    ensures a + (b + c) == (a + b) + c
  {
  }

  /** The elements of `s` whose key is `k`, in their original order. */
  function WithKey<T>(s: seq<T>, key: T -> int, k: int): (r: seq<T>)
    ensures forall y :: y in r ==> key(y) == k
  {
    Filter(s, y => key(y) == k)
  }

  /** `WithKey` is the filter by any predicate that holds exactly on key `k`. */
  lemma WithKeyIsFilter<T>(s: seq<T>, key: T -> int, k: int, p: T -> bool)
    requires forall y :: y in s ==> (key(y) == k) == p(y)
    ensures WithKey(s, key, k) == Filter(s, p)
  {
    FilterCongruent(s, y => key(y) == k, p);
  }

  lemma WithKeyCons<T>(s: seq<T>, key: T -> int, k: int)
    requires s != []
    ensures WithKey(s, key, k) == if key(s[0]) == k then [s[0]] + WithKey(s[1..], key, k) else WithKey(s[1..], key, k)
  {
  }

  /** Where the insertion sort puts a key-0 or key-1 element in front of a
      list already split into its key-0 part and its key-1 part. */
  lemma InsertIntoSplit<T>(x: T, zeros: seq<T>, ones: seq<T>, key: T -> int)
    requires key(x) == 0 || key(x) == 1
    requires forall y :: y in zeros ==> key(y) == 0
    requires forall y :: y in ones ==> key(y) == 1
    ensures key(x) == 0 ==> Insert(x, zeros + ones, key) == ([x] + zeros) + ones
    ensures key(x) == 1 ==> Insert(x, zeros + ones, key) == zeros + ([x] + ones)
  {
    assert ones == [] || key(x) <= key(ones[0]) by {
      if ones != [] { assert ones[0] in ones; }
    }
    if key(x) == 0 {
      assert zeros + ones == [] + (zeros + ones);
      InsertBetween(x, [], zeros + ones, key);
      AppendAssoc([x], zeros, ones);
    } else {
      InsertBetween(x, zeros, ones, key);
      AppendAssoc(zeros, [x], ones);
    }
  }

  /** Stability for a key with two values: the sort puts every element of key 0,
      in original order, before every element of key 1, in original order. */
  lemma {:induction false} SortByTwoValued<T>(s: seq<T>, key: T -> int)
    requires forall y :: y in s ==> key(y) == 0 || key(y) == 1
    ensures SortBy(s, key) == WithKey(s, key, 0) + WithKey(s, key, 1)
  {
    if s != [] {
      SortByTwoValued(s[1..], key);
      WithKeyCons(s, key, 0);
      WithKeyCons(s, key, 1);
      InsertIntoSplit(s[0], WithKey(s[1..], key, 0), WithKey(s[1..], key, 1), key);
    }
  }
}
