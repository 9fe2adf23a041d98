/** A stable sort by an integer key, as JavaScript's `Array.prototype.sort`
    with a numeric comparator and Kotlin's `sortedBy` / `sortedByDescending`
    behave. */
module Sorting {
  import opened Wrappers
  import opened Seqs

  /** `a` may come before `b` in the chosen direction. */
  predicate InOrder(a: int, b: int, descending: bool) {
    if descending then a >= b else a <= b
  }

  predicate SortedBy<T>(s: seq<T>, key: T -> int, descending: bool) {
    forall i, j :: 0 <= i < j < |s| ==> InOrder(key(s[i]), key(s[j]), descending)
  }

  /** Insert `x` after every element that does not strictly follow it, so
      equal keys keep their arrival order. */
  function Insert<T>(x: T, s: seq<T>, key: T -> int, descending: bool): (r: seq<T>)
    requires SortedBy(s, key, descending)
    ensures SortedBy(r, key, descending)
    ensures multiset(r) == multiset(s) + multiset{x}
    ensures |r| == |s| + 1
  {
    if s == [] then [x]
    else if InOrder(key(x), key(s[0]), descending) && key(x) != key(s[0]) then
      [x] + s
    else
      var rest := Insert(x, s[1..], key, descending);
      InsertBehind(x, s, rest, key, descending);
      [s[0]] + rest
  }

  /** `Insert`'s step past the head: the head still comes first. */
  lemma InsertBehind<T>(x: T, s: seq<T>, rest: seq<T>, key: T -> int, descending: bool)
    requires s != [] && SortedBy(s, key, descending)
    requires !(InOrder(key(x), key(s[0]), descending) && key(x) != key(s[0]))
    requires SortedBy(rest, key, descending) && multiset(rest) == multiset(s[1..]) + multiset{x}
    ensures SortedBy([s[0]] + rest, key, descending)
    ensures multiset([s[0]] + rest) == multiset(s) + multiset{x}
  {
    assert multiset(s) == multiset{s[0]} + multiset(s[1..]) by { assert s == [s[0]] + s[1..]; }
    forall k | 0 <= k < |rest|
      ensures InOrder(key(s[0]), key(rest[k]), descending)
    {
      assert rest[k] in multiset(rest);
      if rest[k] != x {
        assert rest[k] in multiset(s[1..]);
        var j :| 0 < j < |s| && s[j] == rest[k] by {
          assert rest[k] in s[1..];
        }
      }
    }
    var r := [s[0]] + rest;
    forall i, j | 0 <= i < j < |r| ensures InOrder(key(r[i]), key(r[j]), descending) {
      if i > 0 {
        assert r[i] == rest[i - 1] && r[j] == rest[j - 1];
      } else {
        assert r[j] == rest[j - 1];
      }
    }
  }

  /** Stable sort: each element, in input order, is inserted into the sorted
      prefix. */
  function SortBy<T>(s: seq<T>, key: T -> int, descending: bool): (r: seq<T>)
    ensures SortedBy(r, key, descending)
    ensures multiset(r) == multiset(s)
    ensures |r| == |s|
  {
    if s == [] then []
    else
      assert s == s[..|s| - 1] + [s[|s| - 1]];
      Insert(s[|s| - 1], SortBy(s[..|s| - 1], key, descending), key, descending)
  }

  /** Every element of the sorted sequence is an element of the input and back. */
  lemma SortByMembers<T>(s: seq<T>, key: T -> int, descending: bool, x: T)
    ensures x in SortBy(s, key, descending) <==> x in s
  {
    var r := SortBy(s, key, descending);
    assert x in r <==> x in multiset(r);
    assert x in s <==> x in multiset(s);
  }

  /** The first `n` of the sorted sequence are still in order and are
      elements of the input. */
  lemma TakeSorted<T>(s: seq<T>, key: T -> int, descending: bool, n: nat)
    ensures SortedBy(Take(SortBy(s, key, descending), n), key, descending)
    ensures forall i :: 0 <= i < |Take(SortBy(s, key, descending), n)| ==> Take(SortBy(s, key, descending), n)[i] in s
  {
    var sorted := SortBy(s, key, descending);
    var r := Take(sorted, n);
    forall i | 0 <= i < |r|
      ensures r[i] in s
    {
      assert r[i] == sorted[i];
      SortByMembers(s, key, descending, r[i]);
    }
  }

  /** A sequence already in order is in order without its head. */
  lemma SortedTail<T>(s: seq<T>, key: T -> int, descending: bool)
    requires s != [] && SortedBy(s, key, descending)
    ensures SortedBy(s[1..], key, descending)
  {
    var t := s[1..];
    forall i, j | 0 <= i < j < |t| ensures InOrder(key(t[i]), key(t[j]), descending) {
      assert t[i] == s[i + 1] && t[j] == s[j + 1];
    }
  }

  /** An element that may come last is inserted last. */
  lemma {:induction false} InsertLast<T>(x: T, s: seq<T>, key: T -> int, descending: bool)
    requires SortedBy(s, key, descending)
    requires forall i :: 0 <= i < |s| ==> InOrder(key(s[i]), key(x), descending)
    ensures Insert(x, s, key, descending) == s + [x]
  {
    if s != [] {
      SortedTail(s, key, descending);
      InsertLast(x, s[1..], key, descending);
      assert [s[0]] + (s[1..] + [x]) == s + [x];
    }
  }

  /** Sorting a sequence already in order changes nothing: the sort is stable. */
  lemma {:induction false} SortByIdentity<T>(s: seq<T>, key: T -> int, descending: bool)
    requires SortedBy(s, key, descending)
    ensures SortBy(s, key, descending) == s
  {
    if s != [] {
      var pre := s[..|s| - 1];
      assert SortedBy(pre, key, descending) by {
        forall i, j | 0 <= i < j < |pre| ensures InOrder(key(pre[i]), key(pre[j]), descending) {
          assert pre[i] == s[i] && pre[j] == s[j];
        }
      }
      SortByIdentity(pre, key, descending);
      assert forall i :: 0 <= i < |pre| ==> InOrder(key(pre[i]), key(s[|s| - 1]), descending) by {
        forall i | 0 <= i < |pre| ensures InOrder(key(pre[i]), key(s[|s| - 1]), descending) {
          assert pre[i] == s[i];
        }
      }
      InsertLast(s[|s| - 1], pre, key, descending);
      FrontLast(s);
    }
  }

  /** Filtering keeps the order. */
  lemma {:induction false} FilterSorted<T>(s: seq<T>, f: T -> bool, key: T -> int, descending: bool)
    requires SortedBy(s, key, descending)
    ensures SortedBy(Filter(s, f), key, descending)
  {
    if s != [] {
      SortedTail(s, key, descending);
      FilterSorted(s[1..], f, key, descending);
      var rest := Filter(s[1..], f);
      if f(s[0]) {
        var r := [s[0]] + rest;
        forall i, j | 0 <= i < j < |r| ensures InOrder(key(r[i]), key(r[j]), descending) {
          assert r[j] == rest[j - 1];
          var m :| 0 <= m < |s[1..]| && s[1..][m] == rest[j - 1];
          assert s[m + 1] == r[j];
          if i > 0 {
            assert r[i] == rest[i - 1];
          }
        }
      } else {
        assert Filter(s, f) == rest;
      }
    }
  }

  /** `firstOrNull(p)`: the first element satisfying `p`. */
  function FirstWhere<T>(s: seq<T>, p: T -> bool): (r: Option<T>)
    ensures r.Some? ==> r.value in s && p(r.value)
    ensures r.None? <==> forall i :: 0 <= i < |s| ==> !p(s[i])
  {
    if s == [] then None else if p(s[0]) then Some(s[0]) else FirstWhere(s[1..], p)
  }

  /** The index of the first element of greatest key among those satisfying
      `p`: the element a stable descending sort puts first. */
  function BestIndex<T>(s: seq<T>, key: T -> int, p: T -> bool): (k: Option<nat>)
    ensures k.None? <==> forall i :: 0 <= i < |s| ==> !p(s[i])
    ensures k.Some? ==> k.value < |s| && p(s[k.value])
    ensures k.Some? ==> forall i :: 0 <= i < |s| && p(s[i]) ==> key(s[i]) <= key(s[k.value])
    ensures k.Some? ==> forall i :: 0 <= i < k.value && p(s[i]) ==> key(s[i]) < key(s[k.value])
    decreases |s|
  {
    if s == [] then None
    else
      var pre := s[..|s| - 1];
      var b := BestIndex(pre, key, p);
      assert forall i :: 0 <= i < |pre| ==> pre[i] == s[i];
      if p(s[|s| - 1]) && (b.None? || key(s[|s| - 1]) > key(s[b.value])) then Some(|s| - 1) else b
  }

  function Best<T>(s: seq<T>, key: T -> int, p: T -> bool): Option<T>
  {
    var k := BestIndex(s, key, p);
    if k.Some? then Some(s[k.value]) else None
  }

  /** One more candidate `x` after the best so far `b`. */
  function Challenge<T>(b: Option<T>, x: T, key: T -> int, p: T -> bool): Option<T>
  {
    if p(x) && (b.None? || key(x) > key(b.value)) then Some(x) else b
  }

  lemma BestSnoc<T>(pre: seq<T>, x: T, key: T -> int, p: T -> bool)
    ensures Best(pre + [x], key, p) == Challenge(Best(pre, key, p), x, key, p)
  {
    var s := pre + [x];
    assert s[..|s| - 1] == pre;
  }

  /** Inserting into a descending sequence changes its first match only when
      the new element matches with a strictly greater key. */
  lemma {:induction false} FirstWhereInsert<T>(x: T, t: seq<T>, key: T -> int, p: T -> bool)
    requires SortedBy(t, key, true)
    ensures FirstWhere(Insert(x, t, key, true), p) == Challenge(FirstWhere(t, p), x, key, p)
  {
    if t == [] {
    } else if InOrder(key(x), key(t[0]), true) && key(x) != key(t[0]) {
      var b := FirstWhere(t, p);
      if b.Some? {
        var i :| 0 <= i < |t| && t[i] == b.value;
        assert i == 0 || InOrder(key(t[0]), key(t[i]), true);
      }
      assert Insert(x, t, key, true) == [x] + t;
    } else {
      assert t == [t[0]] + t[1..];
      assert SortedBy(t[1..], key, true) by {
        forall i, j | 0 <= i < j < |t[1..]| ensures InOrder(key(t[1..][i]), key(t[1..][j]), true) {
          assert t[1..][i] == t[i + 1] && t[1..][j] == t[j + 1];
        }
      }
      FirstWhereInsert(x, t[1..], key, p);
      var rest := Insert(x, t[1..], key, true);
      assert Insert(x, t, key, true) == [t[0]] + rest;
      assert ([t[0]] + rest)[1..] == rest;
    }
  }

  /** Taking the first match of a stable descending sort picks the first
      element of greatest key among the matches. */
  lemma {:induction false} FirstOfSortedIsBest<T>(s: seq<T>, key: T -> int, p: T -> bool)
    ensures FirstWhere(SortBy(s, key, true), p) == Best(s, key, p)
  {
    if s != [] {
      var pre, x := s[..|s| - 1], s[|s| - 1];
      FrontLast(s);
      var t := SortBy(pre, key, true);
      assert SortBy(s, key, true) == Insert(x, t, key, true);
      assert FirstWhere(t, p) == Best(pre, key, p) by {
        FirstOfSortedIsBest(pre, key, p);
      }
      FirstWhereInsert(x, t, key, p);
      BestSnoc(pre, x, key, p);
    }
  }

  /** Filtering first, then looking for the best match, is looking for the
      best match of both conditions. */
  lemma {:induction false} BestOfFilter<T>(s: seq<T>, e: T -> bool, key: T -> int, p: T -> bool, ep: T -> bool)
    requires forall x :: ep(x) == (e(x) && p(x))
    ensures Best(Filter(s, e), key, p) == Best(s, key, ep)
    decreases |s|
  {
    if s != [] {
      var pre, x := s[..|s| - 1], s[|s| - 1];
      assert s == pre + [x];
      BestOfFilter(pre, e, key, p, ep);
      FilterConcat(pre, [x], e);
      assert Filter([x], e) == (if e(x) then [x] else []) + Filter([], e);
      BestSnoc(pre, x, key, ep);
      if e(x) {
        BestSnoc(Filter(pre, e), x, key, p);
      } else {
        assert Filter(s, e) == Filter(pre, e);
      }
    }
  }
}
