/**
 * The Python list operations the core leans on: comprehension filtering,
 * `list.remove(x)` (drop the first element equal to `x`) and a run of such
 * removals, with the facts that connect them.
 */
module Lists {
  import opened Sorting

  /** `[x for x in s if p(x)]`. */
  function Filter<T>(s: seq<T>, p: T -> bool): (r: seq<T>)
    ensures |r| <= |s|
    ensures forall j :: 0 <= j < |r| ==> p(r[j])
    decreases |s|
  {
    if |s| == 0 then []
    else (if p(s[0]) then [s[0]] else []) + Filter(s[1..], p)
  }

  /** Every element the filter keeps comes from the input. */
  lemma {:induction false} FilterSubset<T>(s: seq<T>, p: T -> bool)
    ensures forall j :: 0 <= j < |Filter(s, p)| ==> Filter(s, p)[j] in s
    decreases |s|
  {
    if |s| > 0 {
      FilterSubset(s[1..], p);
      var r := Filter(s, p);
      var pre: seq<T> := if p(s[0]) then [s[0]] else [];
      assert r == pre + Filter(s[1..], p);
      forall j | 0 <= j < |r| ensures r[j] in s {
        if j >= |pre| {
          assert r[j] == Filter(s[1..], p)[j - |pre|];
          assert Filter(s[1..], p)[j - |pre|] in s[1..];
        }
      }
    }
  }

  lemma FilterSingle<T>(x: T, p: T -> bool)
    ensures Filter([x], p) == if p(x) then [x] else []
  {
    assert [x][1..] == [];
  }

  /** Filtering the concatenation is concatenating the filters. */
  lemma {:induction false} FilterAppend<T>(s: seq<T>, t: seq<T>, p: T -> bool)
    ensures Filter(s + t, p) == Filter(s, p) + Filter(t, p)
    decreases |s|
  {
    if |s| == 0 {
      assert s + t == t;
    } else {
      assert (s + t)[1..] == s[1..] + t;
      FilterAppend(s[1..], t, p);
    }
  }

  /** When `p` holds of every element, filtering changes nothing. */
  lemma {:induction false} FilterAll<T>(s: seq<T>, p: T -> bool)
    requires forall j :: 0 <= j < |s| ==> p(s[j])
    ensures Filter(s, p) == s
    decreases |s|
  {
    if |s| > 0 {
      FilterAll(s[1..], p);
    }
  }

  /** A filtered sorted sequence is still sorted. */
  lemma {:induction false} FilterSorted<T>(s: seq<T>, p: T -> bool, key: T -> int)
    requires SortedBy(s, key)
    ensures SortedBy(Filter(s, p), key)
    decreases |s|
  {
    if |s| > 0 {
      var t := s[1..];
      FilterSorted(t, p, key);
      FilterSubset(t, p);
      var ft := Filter(t, p);
      forall j | 0 <= j < |ft| ensures key(s[0]) <= key(ft[j]) {
        var m :| 0 <= m < |t| && t[m] == ft[j];
        assert t[m] == s[m + 1];
      }
    }
  }

  /** `s.index(x)`: the position of the first occurrence of `x`. */
  function IndexOf<T(==)>(s: seq<T>, x: T): (i: nat)
    requires x in s
    ensures i < |s| && s[i] == x && x !in s[..i]
    decreases |s|
  {
    if s[0] == x then 0
    else
      var j := IndexOf(s[1..], x);
      assert s[..j + 1] == [s[0]] + s[1..][..j];
      1 + j
  }

  /** `s.remove(x)` when `x in s`; `s` itself, where Python raises ValueError,
      otherwise. */
  function RemoveFirst<T(==)>(s: seq<T>, x: T): (r: seq<T>)
    ensures |r| == if x in s then |s| - 1 else |s|
  {
    if x in s then
      var i := IndexOf(s, x);
      s[..i] + s[i + 1..]
    else s
  }

  /** The first occurrence past a different head. */
  lemma IndexOfCons<T>(h: T, t: seq<T>, x: T)
    requires h != x && x in t
    ensures IndexOf([h] + t, x) == 1 + IndexOf(t, x)
  {
    assert ([h] + t)[1..] == t;
  }

  /** Removing a value other than the head leaves the head in place. */
  lemma RemoveFirstCons<T>(h: T, t: seq<T>, x: T)
    requires h != x
    ensures RemoveFirst([h] + t, x) == [h] + RemoveFirst(t, x)
  {
    if x in t {
      var j := IndexOf(t, x);
      IndexOfCons(h, t, x);
      var s := [h] + t;
      var r, u := s[..1 + j] + s[j + 2..], [h] + (t[..j] + t[j + 1..]);
      assert |r| == |u|;
      forall k | 0 <= k < |r| ensures r[k] == u[k] {
        if k == 0 {
        } else if k <= j {
          assert r[k] == s[k] == t[k - 1];
        } else {
          assert r[k] == s[k + 1] == t[k];
        }
      }
    } else {
      assert x !in [h] + t;
    }
  }

  /** `for x in xs: s.remove(x)`. */
  function RemoveEach<T(==)>(s: seq<T>, xs: seq<T>): seq<T>
    decreases |xs|
  {
    if |xs| == 0 then s else RemoveEach(RemoveFirst(s, xs[0]), xs[1..])
  }

  /** Removals of values other than `h` pass over a leading `h`. */
  lemma {:induction false} RemoveEachSkips<T>(h: T, t: seq<T>, xs: seq<T>)
    requires h !in xs
    ensures RemoveEach([h] + t, xs) == [h] + RemoveEach(t, xs)
    decreases |xs|
  {
    if |xs| > 0 {
      assert ([h] + t)[0] == h && ([h] + t)[1..] == t;
      RemoveFirstCons(h, t, xs[0]);
      RemoveEachSkips(h, RemoveFirst(t, xs[0]), xs[1..]);
    }
  }

  /** Collecting the elements that satisfy `p` and then removing each of them
      with `list.remove` leaves exactly the elements that do not. This holds
      because whether an element is removed depends only on its value. */
  lemma {:induction false} RemoveEachFilter<T>(s: seq<T>, p: T -> bool, q: T -> bool)
    requires forall x :: q(x) == !p(x)
    ensures RemoveEach(s, Filter(s, p)) == Filter(s, q)
    decreases |s|
  {
    if |s| > 0 {
      var h, t := s[0], s[1..];
      assert s == [h] + t;
      RemoveEachFilter(t, p, q);
      if p(h) {
        assert Filter(s, p) == [h] + Filter(t, p);
        assert RemoveFirst(s, h) == t;
      } else {
        assert Filter(s, p) == Filter(t, p);
        assert h !in Filter(t, p);
        RemoveEachSkips(h, t, Filter(t, p));
      }
    }
  }

  /** Dropping one element keeps a sorted sequence sorted. */
  lemma RemoveAtSorted<T>(s: seq<T>, i: nat, key: T -> int)
    requires i < |s| && SortedBy(s, key)
    ensures SortedBy(s[..i] + s[i + 1..], key)
  {
    var r := s[..i] + s[i + 1..];
    forall a, b | 0 <= a < b < |r| ensures key(r[a]) <= key(r[b]) {
      var a', b' := if a < i then a else a + 1, if b < i then b else b + 1;
      assert r[a] == s[a'] && r[b] == s[b'];
    }
  }

  /** A run of `list.remove` calls keeps a sorted sequence sorted. */
  lemma {:induction false} RemoveEachSorted<T>(s: seq<T>, xs: seq<T>, key: T -> int)
    requires SortedBy(s, key)
    ensures SortedBy(RemoveEach(s, xs), key)
    decreases |xs|
  {
    if |xs| > 0 {
      if xs[0] in s {
        RemoveAtSorted(s, IndexOf(s, xs[0]), key);
      }
      RemoveEachSorted(RemoveFirst(s, xs[0]), xs[1..], key);
    }
  }

  /** Filters that agree on every element give the same result. */
  lemma {:induction false} FilterExt<T>(s: seq<T>, p: T -> bool, q: T -> bool)
    requires forall x :: p(x) == q(x)
    ensures Filter(s, p) == Filter(s, q)
    decreases |s|
  {
    if |s| > 0 {
      FilterExt(s[1..], p, q);
    }
  }

  /** Filters that agree on the elements of `s` give the same result. */
  lemma {:induction false} FilterExtOn<T>(s: seq<T>, p: T -> bool, q: T -> bool)
    requires forall j :: 0 <= j < |s| ==> p(s[j]) == q(s[j])
    ensures Filter(s, p) == Filter(s, q)
    decreases |s|
  {
    if |s| > 0 {
      assert forall j :: 0 <= j < |s| - 1 ==> s[1..][j] == s[j + 1];
      FilterExtOn(s[1..], p, q);
    }
  }

  /** Two successive filters are one filter by the conjunction. */
  lemma {:induction false} FilterFilter<T>(s: seq<T>, p: T -> bool, q: T -> bool, pq: T -> bool)
    requires forall x :: pq(x) == (p(x) && q(x))
    ensures Filter(Filter(s, p), q) == Filter(s, pq)
    decreases |s|
  {
    if |s| > 0 {
      FilterFilter(s[1..], p, q, pq);
      var fp := Filter(s[1..], p);
      if p(s[0]) {
        assert Filter(s, p) == [s[0]] + fp;
        assert ([s[0]] + fp)[0] == s[0];
        assert ([s[0]] + fp)[1..] == fp;
        assert Filter([s[0]] + fp, q) == (if q(s[0]) then [s[0]] else []) + Filter(fp, q);
      } else {
        assert Filter(s, p) == fp;
      }
    }
  }

  /** Python's `s[start:]` for any integer `start`. */
  function PyTail<T>(s: seq<T>, start: int): (r: seq<T>)
    ensures 0 <= start ==> |r| == |s| - (if start < |s| then start else |s|)
    ensures start < 0 ==> |r| == (if -start < |s| then -start else |s|)
    ensures r == s[|s| - |r|..]
  {
    if start >= 0 then (if start < |s| then s[start..] else [])
    else if -start < |s| then s[|s| + start..]
    else s
  }

  /** `reversed(s)`. */
  function Reverse<T>(s: seq<T>): (r: seq<T>)
    ensures |r| == |s|
    ensures forall i :: 0 <= i < |s| ==> r[i] == s[|s| - 1 - i]
    decreases |s|
  {
    if |s| == 0 then [] else [s[|s| - 1]] + Reverse(s[..|s| - 1])
  }

  /** The filter keeps exactly the elements satisfying `p`. */
  lemma {:induction false} FilterMembers<T>(s: seq<T>, p: T -> bool)
    ensures forall x :: x in Filter(s, p) <==> x in s && p(x)
    decreases |s|
  {
    if |s| > 0 {
      FilterMembers(s[1..], p);
      assert s == [s[0]] + s[1..];
    }
  }

  /** No element occurs twice. */
  predicate Distinct<T(==)>(s: seq<T>)
  {
    forall i, j :: 0 <= i < j < |s| ==> s[i] != s[j]
  }

  /** `k in m`, as a predicate on keys. */
  function InMap<K, V>(m: map<K, V>): K -> bool
  {
    (k: K) => k in m
  }

  /** `list.remove(x)` keeps every other value of the list. */
  lemma RemoveFirstKeeps<T>(s: seq<T>, x: T, y: T)
    requires y in s && y != x
    ensures y in RemoveFirst(s, x)
  {
    if x in s {
      var i := IndexOf(s, x);
      var j :| 0 <= j < |s| && s[j] == y;
      if j < i {
        assert s[..i][j] == y;
      } else {
        assert s[i + 1..][j - i - 1] == y;
      }
    }
  }

  /** `list.remove` on a list without repeats drops exactly the value `x`. */
  lemma RemoveFirstDistinct<T>(s: seq<T>, x: T)
    requires Distinct(s)
    ensures Distinct(RemoveFirst(s, x))
    ensures forall y :: y in RemoveFirst(s, x) <==> y in s && y != x
  {
    if x in s {
      var i := IndexOf(s, x);
      RemoveAtDistinct(s, i);
    }
  }

  lemma RemoveAtDistinct<T>(s: seq<T>, i: nat)
    requires Distinct(s) && i < |s|
    ensures Distinct(s[..i] + s[i + 1..])
    ensures forall y :: y in s[..i] + s[i + 1..] <==> y in s && y != s[i]
  {
    var a, b := s[..i], s[i + 1..];
    var r := a + b;
    forall p, q | 0 <= p < q < |r| ensures r[p] != r[q] {
      var p', q' := if p < i then p else p + 1, if q < i then q else q + 1;
      assert r[p] == s[p'] && r[q] == s[q'];
    }
    assert s == a + [s[i]] + b;
    assert s[i] !in a by {
      forall k | 0 <= k < |a| ensures a[k] != s[i] { assert a[k] == s[k]; }
    }
    assert s[i] !in b by {
      forall k | 0 <= k < |b| ensures b[k] != s[i] { assert b[k] == s[i + 1 + k]; }
    }
  }

  /** Filtering a list without repeats gives a list without repeats. */
  lemma {:induction false} FilterDistinct<T>(s: seq<T>, p: T -> bool)
    requires Distinct(s)
    ensures Distinct(Filter(s, p))
    decreases |s|
  {
    if |s| > 0 {
      FilterDistinct(s[1..], p);
      FilterMembers(s[1..], p);
      var r := Filter(s, p);
      var t := Filter(s[1..], p);
      assert s[0] !in s[1..] by {
        forall k | 0 <= k < |s[1..]| ensures s[1..][k] != s[0] { assert s[1..][k] == s[k + 1]; }
      }
      if p(s[0]) {
        assert r == [s[0]] + t;
        forall a, b | 0 <= a < b < |r| ensures r[a] != r[b] {
          assert r[b] == t[b - 1];
          if a > 0 { assert r[a] == t[a - 1]; }
        }
      }
    }
  }
}
