/**
  Order-preserving filtering and the stable descending sort the list views
  use to rank search results (`Iterator::filter` followed by `slice::sort_by`
  with reversed key comparison, which is a stable sort).
 */
module Ranking {

  /** The elements of `s` satisfying `p`, in their original order. How
      often each one is kept is stated by `FilterCounts`, the order by
      `FilterAppend` and `FilterTier`. */
  function Filter<T>(s: seq<T>, p: T -> bool): (r: seq<T>)
    ensures |r| <= |s|
    ensures forall i :: 0 <= i < |r| ==> r[i] in s && p(r[i])
    ensures forall i :: 0 <= i < |s| && p(s[i]) ==> s[i] in r
  {
    if s == [] then []
    else (if p(s[0]) then [s[0]] else []) + Filter(s[1..], p)
  }

  /** Every element satisfying `p` is kept exactly as often as it occurs in
      `s`, and every other element is dropped. */
  lemma {:induction false} FilterCounts<T(!new)>(s: seq<T>, p: T -> bool)
    ensures forall x {:trigger multiset(Filter(s, p))[x]} ::
      multiset(Filter(s, p))[x] == if p(x) then multiset(s)[x] else 0
    decreases |s|
  {
    if s != [] {
      var h := if p(s[0]) then [s[0]] else [];
      FilterCounts(s[1..], p);
      assert s == [s[0]] + s[1..];
      assert multiset(s) == multiset{s[0]} + multiset(s[1..]);
      assert multiset(Filter(s, p)) == multiset(h) + multiset(Filter(s[1..], p));
    }
  }

  /** Filtering distributes over concatenation, so the kept elements of an
      earlier part all come before those of a later part. */
  lemma {:induction false} FilterAppend<T>(a: seq<T>, b: seq<T>, p: T -> bool)
    ensures Filter(a + b, p) == Filter(a, p) + Filter(b, p)
    decreases |a|
  {
    if a != [] {
      assert (a + b)[0] == a[0];
      assert (a + b)[1..] == a[1..] + b;
      FilterAppend(a[1..], b, p);
    } else {
      assert a + b == b;
    }
  }

  /** Keys never increase from left to right. */
  ghost predicate Descending<T>(s: seq<T>, key: T -> int)
  {
    forall i, j :: 0 <= i < j < |s| ==> key(s[i]) >= key(s[j])
  }

  /** The elements of `s` whose key is `k`, in their original order. */
  function Tier<T>(s: seq<T>, key: T -> int, k: int): seq<T>
  {
    if s == [] then []
    else (if key(s[0]) == k then [s[0]] else []) + Tier(s[1..], key, k)
  }

  /** `x` placed in front of the first element of `s` whose key is not
      larger than its own, so it precedes every element of equal key. */
  function Insert<T>(x: T, s: seq<T>, key: T -> int): (r: seq<T>)
    ensures multiset(r) == multiset(s) + multiset{x}
  {
    if s == [] then [x]
    else if key(s[0]) > key(x) then
      assert s == [s[0]] + s[1..];
      [s[0]] + Insert(x, s[1..], key)
    else
      [x] + s
  }

  /** No key in `s` exceeds `b`. */
  ghost predicate AtMost<T>(s: seq<T>, key: T -> int, b: int)
  {
    forall i :: 0 <= i < |s| ==> key(s[i]) <= b
  }

  /** Inserting an element no larger than `b` keeps every key at most `b`. */
  lemma {:induction false} InsertAtMost<T>(x: T, s: seq<T>, key: T -> int, b: int)
    requires AtMost(s, key, b) && key(x) <= b
    ensures AtMost(Insert(x, s, key), key, b)
    decreases |s|
  {
    var r := Insert(x, s, key);
    if s != [] && key(s[0]) > key(x) {
      var rest := Insert(x, s[1..], key);
      assert r == [s[0]] + rest;
      InsertAtMost(x, s[1..], key, b);
      forall i | 0 <= i < |r|
        ensures key(r[i]) <= b
      {
        if i > 0 {
          assert r[i] == rest[i - 1];
        }
      }
    } else {
      assert r == [x] + s;
      forall i | 0 < i < |r|
        ensures key(r[i]) <= b
      {
        assert r[i] == s[i - 1];
      }
    }
  }

  /** Putting an element in front of a descending sequence whose keys are
      all at most its own gives a descending sequence. */
  lemma ConsDescending<T>(h: T, t: seq<T>, key: T -> int)
    requires Descending(t, key) && AtMost(t, key, key(h))
    ensures Descending([h] + t, key)
  {
    var r := [h] + t;
    forall i, j | 0 <= i < j < |r|
      ensures key(r[i]) >= key(r[j])
    {
      assert r[j] == t[j - 1];
      if i == 0 {
        assert r[i] == h;
      } else {
        assert r[i] == t[i - 1];
      }
    }
  }

  /** Every key of a non-empty descending sequence is at most its first. */
  lemma DescendingHeadBound<T>(s: seq<T>, key: T -> int)
    requires s != [] && Descending(s, key)
    ensures AtMost(s, key, key(s[0]))
    ensures Descending(s[1..], key) && AtMost(s[1..], key, key(s[0]))
  {
    forall i | 0 <= i < |s[1..]|
      ensures key(s[1..][i]) <= key(s[0])
    {
      assert s[1..][i] == s[i + 1];
    }
    forall i, j | 0 <= i < j < |s[1..]|
      ensures key(s[1..][i]) >= key(s[1..][j])
    {
      assert s[1..][i] == s[i + 1] && s[1..][j] == s[j + 1];
    }
  }

  /** Inserting into a descending sequence keeps it descending. */
  lemma {:induction false} InsertDescending<T>(x: T, s: seq<T>, key: T -> int)
    requires Descending(s, key)
    ensures Descending(Insert(x, s, key), key)
    decreases |s|
  {
    if s == [] {
      assert Insert(x, s, key) == [x];
    } else if key(s[0]) > key(x) {
      var rest := Insert(x, s[1..], key);
      assert Insert(x, s, key) == [s[0]] + rest;
      DescendingHeadBound(s, key);
      InsertDescending(x, s[1..], key);
      InsertAtMost(x, s[1..], key, key(s[0]));
      ConsDescending(s[0], rest, key);
    } else {
      assert Insert(x, s, key) == [x] + s;
      DescendingHeadBound(s, key);
      assert AtMost(s, key, key(x));
      ConsDescending(x, s, key);
    }
  }

  /** Stable sort of `s` by descending key: repeatedly insert the head in
      front of the sorted tail. */
  function SortDesc<T>(s: seq<T>, key: T -> int): (r: seq<T>)
    ensures multiset(r) == multiset(s)
    ensures Descending(r, key)
  {
    if s == [] then []
    else
      assert s == [s[0]] + s[1..];
      var sorted := SortDesc(s[1..], key);
      InsertDescending(s[0], sorted, key);
      Insert(s[0], sorted, key)
  }

  /** Tiers distribute over concatenation. */
  lemma {:induction false} TierAppend<T>(a: seq<T>, b: seq<T>, key: T -> int, k: int)
    ensures Tier(a + b, key, k) == Tier(a, key, k) + Tier(b, key, k)
    decreases |a|
  {
    if a != [] {
      assert (a + b)[0] == a[0];
      assert (a + b)[1..] == a[1..] + b;
      TierAppend(a[1..], b, key, k);
    } else {
      assert a + b == b;
    }
  }

  /** The tier of a one-element sequence. */
  lemma TierSingle<T>(x: T, key: T -> int, k: int)
    ensures Tier([x], key, k) == if key(x) == k then [x] else []
  {
    assert [x][1..] == [];
  }

  /** Filtering keeps the order within every tier: the elements of key `k`
      that pass the filter are those of the tier of `k` that pass it, in the
      same order. */
  lemma {:induction false} FilterTier<T>(s: seq<T>, p: T -> bool, key: T -> int, k: int)
    ensures Tier(Filter(s, p), key, k) == Filter(Tier(s, key, k), p)
    decreases |s|
  {
    if s != [] {
      var h := if p(s[0]) then [s[0]] else [];
      var t := if key(s[0]) == k then [s[0]] else [];
      FilterTier(s[1..], p, key, k);
      TierAppend(h, Filter(s[1..], p), key, k);
      FilterAppend(t, Tier(s[1..], key, k), p);
      TierSingle(s[0], key, k);
      FilterSingle(s[0], p);
    }
  }

  /** The filter of a one-element sequence. */
  lemma FilterSingle<T>(x: T, p: T -> bool)
    ensures Filter([x], p) == if p(x) then [x] else []
  {
    assert [x][1..] == [];
  }

  /** Inserting `x` adds it to the front of its own tier and leaves every
      other tier alone. */
  lemma {:induction false} InsertTier<T>(x: T, s: seq<T>, key: T -> int, k: int)
    ensures Tier(Insert(x, s, key), key, k) == (if key(x) == k then [x] else []) + Tier(s, key, k)
    decreases |s|
  {
    var here := if key(x) == k then [x] else [];
    TierSingle(x, key, k);
    if s != [] && key(s[0]) > key(x) {
      var rest := Insert(x, s[1..], key);
      var head := Tier([s[0]], key, k);
      var tail := Tier(s[1..], key, k);
      assert Tier(Insert(x, s, key), key, k) == head + Tier(rest, key, k) by {
        assert Insert(x, s, key) == [s[0]] + rest;
        TierAppend([s[0]], rest, key, k);
      }
      assert Tier(rest, key, k) == here + tail by {
        InsertTier(x, s[1..], key, k);
      }
      assert Tier(s, key, k) == head + tail by {
        assert s == [s[0]] + s[1..];
        TierAppend([s[0]], s[1..], key, k);
      }
      // x and s[0] have different keys, so at most one of them is in the tier
      assert head == [] || here == [] by {
        TierSingle(s[0], key, k);
      }
      SwapDisjoint(head, here, tail);
    } else {
      assert Insert(x, s, key) == [x] + s;
      TierAppend([x], s, key, k);
    }
  }

  /** Two parts of which at most one is non-empty can trade places. */
  lemma SwapDisjoint<T>(a: seq<T>, b: seq<T>, c: seq<T>)
    requires a == [] || b == []
    ensures a + (b + c) == b + (a + c)
  {
    if a == [] {
      assert a + (b + c) == b + c == b + (a + c);
    } else {
      assert a + (b + c) == a + c == b + (a + c);
    }
  }

  /** Stability: for every key value, the elements carrying it come out of
      the sort in exactly the order they went in. */
  lemma {:induction false} SortDescStable<T>(s: seq<T>, key: T -> int, k: int)
    ensures Tier(SortDesc(s, key), key, k) == Tier(s, key, k)
    decreases |s|
  {
    if s != [] {
      SortDescStable(s[1..], key, k);
      InsertTier(s[0], SortDesc(s[1..], key), key, k);
    }
  }
}
