/**
 * Ordering by an integer key, as the core uses it in three places: the event
 * bus keeps each topic's handlers ordered by priority value with insertion
 * after equal keys, and the plugin registry and the configuration manager both
 * rely on Python's stable `sorted(..., key=...)` / `list.sort(key=...)`.
 */
module Sorting {

  /** Non-decreasing by `key`. */
  predicate SortedBy<T>(s: seq<T>, key: T -> int)
  {
    forall i, j :: 0 <= i < j < |s| ==> key(s[i]) <= key(s[j])
  }

  /** The elements of `s` whose key is `k`, in their order in `s`. */
  function WithKey<T>(s: seq<T>, key: T -> int, k: int): seq<T>
    decreases |s|
  {
    if |s| == 0 then []
    else if key(s[|s| - 1]) == k then WithKey(s[..|s| - 1], key, k) + [s[|s| - 1]]
    else WithKey(s[..|s| - 1], key, k)
  }

  /** The first index whose key is strictly greater than `k`, or `|s|`. */
  function UpperBound<T>(s: seq<T>, key: T -> int, k: int): (i: nat)
    ensures i <= |s|
    ensures forall j :: 0 <= j < i ==> key(s[j]) <= k
    ensures i < |s| ==> key(s[i]) > k
    decreases |s|
  {
    if |s| == 0 then 0
    else if key(s[0]) > k then 0
    else 1 + UpperBound(s[1..], key, k)
  }

  /** `s` with `x` inserted in front of the first element whose key exceeds
      `key(x)`, that is, after every element of equal key. */
  function InsertByKey<T>(s: seq<T>, x: T, key: T -> int): seq<T>
  {
    var i := UpperBound(s, key, key(x));
    s[..i] + [x] + s[i..]
  }

  /** Python's stable sort by `key`, as insertion sort over the input. */
  function StableSort<T>(s: seq<T>, key: T -> int): seq<T>
    decreases |s|
  {
    if |s| == 0 then [] else InsertByKey(StableSort(s[..|s| - 1], key), s[|s| - 1], key)
  }

  /** Inserting into a sorted sequence keeps it sorted. */
  lemma InsertByKeySorted<T>(s: seq<T>, x: T, key: T -> int)
    requires SortedBy(s, key)
    ensures SortedBy(InsertByKey(s, x, key), key)
  {
    var i := UpperBound(s, key, key(x));
    var r := InsertByKey(s, x, key);
    forall j | 0 <= j < |r|
      ensures r[j] == if j < i then s[j] else if j == i then x else s[j - 1]
    {
    }
    forall a, b | 0 <= a < b < |r| ensures key(r[a]) <= key(r[b]) {
      if b == i {
      } else if a == i {
        assert key(s[b - 1]) > key(x);
      } else if b > i {
        assert key(r[a]) <= key(s[b - 1]);
      }
    }
  }

  /** Inserting adds exactly one copy of `x`. */
  lemma InsertByKeyPerm<T>(s: seq<T>, x: T, key: T -> int)
    ensures multiset(InsertByKey(s, x, key)) == multiset(s) + multiset{x}
  {
    var i := UpperBound(s, key, key(x));
    assert s == s[..i] + s[i..];
  }

  /** Distribution of `WithKey` over concatenation. */
  lemma {:induction false} WithKeyAppend<T>(s: seq<T>, t: seq<T>, key: T -> int, k: int)
    ensures WithKey(s + t, key, k) == WithKey(s, key, k) + WithKey(t, key, k)
    decreases |t|
  {
    if |t| == 0 {
      assert s + t == s;
    } else {
      var u := s + t;
      assert u[..|u| - 1] == s + t[..|t| - 1];
      assert u[|u| - 1] == t[|t| - 1];
      WithKeyAppend(s, t[..|t| - 1], key, k);
    }
  }

  /** No element of `s` has key `k`. */
  lemma {:induction false} WithKeyNone<T>(s: seq<T>, key: T -> int, k: int)
    requires forall j :: 0 <= j < |s| ==> key(s[j]) != k
    ensures WithKey(s, key, k) == []
    decreases |s|
  {
    if |s| > 0 {
      WithKeyNone(s[..|s| - 1], key, k);
    }
  }

  /** In a sorted sequence every element from the upper bound on has a
      greater key. */
  lemma AboveUpperBound<T>(s: seq<T>, key: T -> int, k: int)
    requires SortedBy(s, key)
    ensures var i := UpperBound(s, key, k);
      forall j :: 0 <= j < |s[i..]| ==> key(s[i..][j]) > k
  {
    var i := UpperBound(s, key, k);
    forall j | 0 <= j < |s[i..]| ensures key(s[i..][j]) > k {
      assert s[i..][j] == s[i + j];
      if j > 0 {
        assert key(s[i]) <= key(s[i + j]);
      }
    }
  }

  /** Inserting keeps the relative order of every key class; `x` lands at the
      end of its own class. */
  lemma InsertByKeyStable<T>(s: seq<T>, x: T, key: T -> int, k: int)
    requires SortedBy(s, key)
    ensures WithKey(InsertByKey(s, x, key), key, k)
         == if key(x) == k then WithKey(s, key, k) + [x] else WithKey(s, key, k)
  {
    var i := UpperBound(s, key, key(x));
    AboveUpperBound(s, key, key(x));
    assert s == s[..i] + s[i..];
    InsertBeforeGreater(s[..i], s[i..], x, key, k);
  }

  /** The core of `InsertByKeyStable`: `x` placed before a block of greater
      keys ends its own key class. */
  lemma InsertBeforeGreater<T>(a: seq<T>, b: seq<T>, x: T, key: T -> int, k: int)
    requires forall j :: 0 <= j < |b| ==> key(b[j]) > key(x)
    ensures WithKey(a + [x] + b, key, k)
         == if key(x) == k then WithKey(a + b, key, k) + [x] else WithKey(a + b, key, k)
  {
    WithKeyAppend(a + [x], b, key, k);
    WithKeyAppend(a, [x], key, k);
    WithKeyAppend(a, b, key, k);
    WithKeySingle(x, key, k);
    if key(x) == k {
      WithKeyNone(b, key, k);
    }
  }

  lemma WithKeySingle<T>(x: T, key: T -> int, k: int)
    ensures WithKey([x], key, k) == if key(x) == k then [x] else []
  {
    assert [x][..0] == [];
  }

  /** `StableSort` sorts, permutes, and keeps equal keys in input order. */
  lemma {:induction false} StableSortCorrect<T>(s: seq<T>, key: T -> int)
    ensures SortedBy(StableSort(s, key), key)
    ensures multiset(StableSort(s, key)) == multiset(s)
    ensures forall k :: WithKey(StableSort(s, key), key, k) == WithKey(s, key, k)
    decreases |s|
  {
    if |s| > 0 {
      var init, x := s[..|s| - 1], s[|s| - 1];
      assert s == init + [x];
      StableSortCorrect(init, key);
      InsertByKeySorted(StableSort(init, key), x, key);
      InsertByKeyPerm(StableSort(init, key), x, key);
      forall k ensures WithKey(StableSort(s, key), key, k) == WithKey(s, key, k) {
        InsertByKeyStable(StableSort(init, key), x, key, k);
      }
    }
  }

  /** Sorting what is already sorted changes nothing. */
  lemma {:induction false} StableSortOfSorted<T>(s: seq<T>, key: T -> int)
    requires SortedBy(s, key)
    ensures StableSort(s, key) == s
    decreases |s|
  {
    if |s| > 0 {
      var init, x := s[..|s| - 1], s[|s| - 1];
      assert SortedBy(init, key);
      StableSortOfSorted(init, key);
      var i := UpperBound(init, key, key(x));
      assert init[..i] + [x] + init[i..] == s;
    }
  }

  /** Filtering by a key class keeps exactly the elements of that key. */
  lemma {:induction false} WithKeyMembers<T>(s: seq<T>, key: T -> int, k: int)
    ensures forall y :: y in WithKey(s, key, k) <==> y in s && key(y) == k
    decreases |s|
  {
    if |s| > 0 {
      WithKeyMembers(s[..|s| - 1], key, k);
      assert s == s[..|s| - 1] + [s[|s| - 1]];
    }
  }

  /** Where `InsertByKey` puts `x` in a sorted sequence: after every element
      of a smaller or equal key and before every greater one, with the other
      elements in their old order. */
  lemma InsertPlacement<T>(s: seq<T>, x: T, key: T -> int)
    requires SortedBy(s, key)
    ensures var r := InsertByKey(s, x, key);
      exists i :: 0 <= i < |r| && r[i] == x && r[..i] + r[i + 1..] == s
        && (forall j :: 0 <= j < i ==> key(r[j]) <= key(x))
        && (forall j :: i < j < |r| ==> key(r[j]) > key(x))
  {
    var i := UpperBound(s, key, key(x));
    var r := InsertByKey(s, x, key);
    AboveUpperBound(s, key, key(x));
    assert r[..i] == s[..i];
    assert r[i + 1..] == s[i..];
    assert r[i] == x;
    assert s[..i] + s[i..] == s;
    forall j | i < j < |r| ensures key(r[j]) > key(x) {
      assert r[j] == s[i..][j - i - 1];
    }
    forall j | 0 <= j < i ensures key(r[j]) <= key(x) {
      assert r[j] == s[j];
    }
  }
}
