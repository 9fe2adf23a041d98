/** Sequence helpers shared by the models: JavaScript's `slice` and
    `filter`, bounded appends (push then shift), counting and sums. */
module Seqs {

  function Min(a: int, b: int): int { if a <= b then a else b }
  function Max(a: int, b: int): int { if a >= b then a else b }

  /** `s.slice(start)` in JavaScript: a negative start counts from the end. */
  function JsSliceFrom<T>(s: seq<T>, start: int): (r: seq<T>)
    ensures start < 0 ==> r == s[Max(|s| + start, 0)..]
    ensures start >= 0 ==> r == s[Min(start, |s|)..]
  {
    if start < 0 then s[Max(|s| + start, 0)..] else s[Min(start, |s|)..]
  }

  /** `s.slice(start, end)` in JavaScript, for non-negative bounds. */
  function JsSlice<T>(s: seq<T>, start: nat, end: nat): (r: seq<T>)
    ensures |r| == Max(0, Min(end, |s|) - Min(start, |s|))
    ensures forall i :: 0 <= i < |r| ==> r[i] == s[start + i]
  {
    var a := Min(start, |s|);
    var b := Min(end, |s|);
    if a < b then s[a..b] else []
  }

  /** `take(n)`: the first `n` elements (all of them when there are fewer). */
  function Take<T>(s: seq<T>, n: nat): (r: seq<T>)
    ensures |r| == Min(n, |s|) && r == s[..|r|]
  {
    s[..Min(n, |s|)]
  }

  /** The last `n` elements (all of them when there are fewer). */
  function LastN<T>(s: seq<T>, n: nat): (r: seq<T>)
    ensures |r| == Min(n, |s|)
    ensures r == s[|s| - |r|..]
  {
    s[|s| - Min(n, |s|)..]
  }

  /** `s.slice(-limit)`: the last `limit` elements for a positive limit, all
      of them for 0 (since -0 is 0), and all but the first `-limit` otherwise. */
  lemma SliceFromEnd<T>(s: seq<T>, limit: int)
    ensures limit > 0 ==> JsSliceFrom(s, -limit) == LastN(s, limit)
    ensures limit == 0 ==> JsSliceFrom(s, -limit) == s
    ensures limit < 0 ==> JsSliceFrom(s, -limit) == s[Min(-limit, |s|)..]
  {
  }

  /** Concatenation is associative. */
  lemma AppendAssoc<T>(a: seq<T>, b: seq<T>, c: seq<T>)
    ensures a + (b + c) == (a + b) + c
  {
  }

  /** `s.filter(f)`. */
  function Filter<T>(s: seq<T>, f: T -> bool): (r: seq<T>)
    ensures |r| <= |s|
    ensures forall i :: 0 <= i < |r| ==> r[i] in s && f(r[i])
    ensures forall x :: x in s && f(x) ==> x in r
  {
    if s == [] then [] else (if f(s[0]) then [s[0]] else []) + Filter(s[1..], f)
  }

  /** Membership in a filtered sequence. */
  lemma FilterMember<T>(s: seq<T>, f: T -> bool, x: T)
    ensures x in Filter(s, f) <==> x in s && f(x)
  {
    var r := Filter(s, f);
    if x in r {
      var j :| 0 <= j < |r| && r[j] == x;
    }
    if x in s && f(x) {
      var j :| 0 <= j < |s| && s[j] == x;
    }
  }

  /** The first elements are elements. */
  lemma TakeMember<T>(s: seq<T>, n: nat, x: T)
    requires x in Take(s, n)
    ensures x in s
  {
    var j :| 0 <= j < |Take(s, n)| && Take(s, n)[j] == x;
    assert s[j] == x;
  }

  /** Filtering a concatenation filters each part. */
  lemma {:induction false} FilterConcat<T>(a: seq<T>, b: seq<T>, f: T -> bool)
    ensures Filter(a + b, f) == Filter(a, f) + Filter(b, f)
  {
    if a == [] {
      assert a + b == b;
    } else {
      assert (a + b)[0] == a[0] && (a + b)[1..] == a[1..] + b;
      FilterConcat(a[1..], b, f);
    }
  }

  /** Filtering keeps the elements that pass when every element passes. */
  lemma {:induction false} FilterAll<T>(s: seq<T>, f: T -> bool)
    requires forall i :: 0 <= i < |s| ==> f(s[i])
    ensures Filter(s, f) == s
  {
    if s != [] {
      FilterAll(s[1..], f);
    }
  }

  /** Filtering one more element. */
  lemma FilterSnoc<T>(s: seq<T>, x: T, f: T -> bool)
    ensures Filter(s + [x], f) == Filter(s, f) + (if f(x) then [x] else [])
  {
    FilterConcat(s, [x], f);
    assert Filter([x], f) == (if f(x) then [x] else []) + Filter([], f);
  }

  /** A second filter, applied or skipped, filters by the conjunction. */
  lemma {:induction false} FilterThen<T>(s: seq<T>, p: T -> bool, q: T -> bool, applied: bool, pq: T -> bool)
    requires forall x :: pq(x) == (p(x) && (!applied || q(x)))
    ensures (if applied then Filter(Filter(s, p), q) else Filter(s, p)) == Filter(s, pq)
  {
    if s != [] {
      FilterThen(s[1..], p, q, applied, pq);
      if applied {
        var head := if p(s[0]) then [s[0]] else [];
        FilterConcat(head, Filter(s[1..], p), q);
        if p(s[0]) {
          assert Filter(head, q) == (if q(s[0]) then [s[0]] else []) + Filter([], q);
        }
      }
    }
  }

  /** Number of elements that satisfy `f`. */
  function Count<T>(s: seq<T>, f: T -> bool): (n: nat)
    ensures n <= |s|
    ensures n == |Filter(s, f)|
  {
    if s == [] then 0 else (if f(s[0]) then 1 else 0) + Count(s[1..], f)
  }

  /** `push` then `shift` while above `max`: append and keep the newest `max`. */
  function PushBounded<T>(s: seq<T>, x: T, max: nat): (r: seq<T>)
    requires |s| <= max && max > 0
    ensures |r| <= max && |r| > 0 && r[|r| - 1] == x
    ensures r == LastN(s + [x], max)
  {
    if |s| + 1 > max then (s + [x])[1..] else s + [x]
  }

  /** Pushing a run of elements one at a time keeps the newest `max` of all. */
  function PushAll<T>(s: seq<T>, xs: seq<T>, max: nat): seq<T>
    requires |s| <= max && max > 0
    decreases |xs|
  {
    if xs == [] then s else PushAll(PushBounded(s, xs[0], max), xs[1..], max)
  }

  lemma {:induction false} PushAllKeepsNewest<T>(s: seq<T>, xs: seq<T>, max: nat)
    requires |s| <= max && max > 0
    ensures PushAll(s, xs, max) == LastN(s + xs, max)
    decreases |xs|
  {
    if xs != [] {
      var s' := PushBounded(s, xs[0], max);
      PushAllKeepsNewest(s', xs[1..], max);
      PushBoundedThen(s, xs[0], xs[1..], max);
      assert [xs[0]] + xs[1..] == xs;
    }
  }

  /** One bounded push, then keeping the newest `max` of what follows. */
  lemma PushBoundedThen<T>(s: seq<T>, x: T, rest: seq<T>, max: nat)
    requires |s| <= max && max > 0
    ensures LastN(PushBounded(s, x, max) + rest, max) == LastN(s + ([x] + rest), max)
  {
    LastNOfLastN(s + [x], rest, max);
    assert s + [x] + rest == s + ([x] + rest);
  }

  /** Keeping the newest `max` before appending does not change the newest `max` after. */
  lemma LastNOfLastN<T>(a: seq<T>, b: seq<T>, max: nat)
    ensures LastN(LastN(a, max) + b, max) == LastN(a + b, max)
  {
    var la := LastN(a, max);
    var k := |a| - |la|;
    assert a + b == a[..k] + (la + b);
  }

  /** Sum of the values `f` gives the elements. */
  function Sum<T>(s: seq<T>, f: T -> int): int
  {
    if s == [] then 0 else f(s[0]) + Sum(s[1..], f)
  }

  /** Each element occurs once. */
  predicate Distinct<T(==)>(s: seq<T>)
  {
    forall i, j :: 0 <= i < j < |s| ==> s[i] != s[j]
  }

  /** `s.indexOf(x)`: the first index of `x`, or -1. */
  function Find<T(==)>(s: seq<T>, x: T): (k: int)
    ensures -1 <= k < |s|
    ensures k == -1 <==> x !in s
    ensures k >= 0 ==> s[k] == x && x !in s[..k]
  {
    if s == [] then -1
    else if s[0] == x then 0
    else
      var k := Find(s[1..], x);
      if k == -1 then -1
      else
        assert s[..k + 1] == [s[0]] + s[1..][..k];
        k + 1
  }

  /** `const i = s.indexOf(x); if (i > -1) s.splice(i, 1)`: the first
      occurrence of `x` removed. */
  function RemoveFirst<T(==)>(s: seq<T>, x: T): (r: seq<T>)
    ensures x !in s ==> r == s
    ensures x in s ==> |r| == |s| - 1
    ensures forall y :: y in r ==> y in s
  {
    var i := Find(s, x);
    if i > -1 then s[..i] + s[i + 1..] else s
  }

  /** In a sequence without repeats, removing `x` removes it from the set
      of elements and keeps the others in order without repeats. */
  lemma RemoveFirstDistinct<T>(s: seq<T>, x: T)
    requires Distinct(s)
    ensures Distinct(RemoveFirst(s, x))
    ensures forall y :: y in RemoveFirst(s, x) <==> y in s && y != x
    ensures RemoveFirst(s, x) == Filter(s, Other(x))
  {
    var i := Find(s, x);
    if i > -1 {
      DropAtDistinct(s, i);
      FilterDrop(s, x, i);
    } else {
      FilterAbsent(s, x);
    }
  }

  /** Appending a new element keeps a sequence without repeats. */
  lemma SnocDistinct<T>(s: seq<T>, x: T)
    requires Distinct(s) && x !in s
    ensures Distinct(s + [x])
    ensures forall y :: y in s + [x] <==> y in s || y == x
  {
    var r := s + [x];
    forall a, b | 0 <= a < b < |r| ensures r[a] != r[b] {
      if b == |s| {
        assert r[a] == s[a];
      } else {
        assert r[a] == s[a] && r[b] == s[b];
      }
    }
  }

  /** Dropping index `i` of a sequence without repeats leaves no repeats
      and every element but the one dropped. */
  lemma DropAtDistinct<T>(s: seq<T>, i: nat)
    requires Distinct(s) && i < |s|
    ensures Distinct(s[..i] + s[i + 1..])
    ensures forall y :: y in s[..i] + s[i + 1..] <==> y in s && y != s[i]
  {
    var r := s[..i] + s[i + 1..];
    forall a, b | 0 <= a < b < |r| ensures r[a] != r[b] {
      var a' := if a < i then a else a + 1;
      var b' := if b < i then b else b + 1;
      assert r[a] == s[a'] && r[b] == s[b'];
    }
    forall y ensures y in r <==> y in s && y != s[i] {
      if y in s && y != s[i] {
        var j :| 0 <= j < |s| && s[j] == y;
        assert r[if j < i then j else j - 1] == y;
      }
      if y in r {
        var j :| 0 <= j < |r| && r[j] == y;
        var j' := if j < i then j else j + 1;
        assert s[j'] == y && j' != i;
      }
    }
  }

  /** The test "is not `x`". */
  function Other<T(==)>(x: T): T -> bool
  {
    (y: T) => y != x
  }

  /** Filtering out an absent element changes nothing. */
  lemma {:induction false} FilterAbsent<T>(s: seq<T>, x: T)
    requires x !in s
    ensures Filter(s, Other(x)) == s
  {
    if s != [] {
      FilterAbsent(s[1..], x);
    }
  }

  /** A non-empty sequence is its front and its last element. */
  lemma FrontLast<T>(s: seq<T>)
    requires s != []
    ensures s[..|s| - 1] + [s[|s| - 1]] == s
  {
  }

  /** A sequence is what comes before, at and after one of its indices. */
  lemma SplitAt<T>(s: seq<T>, i: nat)
    requires i < |s|
    ensures s == s[..i] + ([s[i]] + s[i + 1..])
  {
    assert s[..i] + s[i..] == s;
    assert s[i..] == [s[i]] + s[i + 1..];
  }

  /** Filtering out the only occurrence of `x`, at `i`. */
  lemma FilterDrop<T>(s: seq<T>, x: T, i: nat)
    requires i < |s| && s[i] == x && Distinct(s)
    ensures Filter(s, Other(x)) == s[..i] + s[i + 1..]
  {
    var a, b := s[..i], s[i + 1..];
    SplitAt(s, i);
    assert x !in a by {
      forall j | 0 <= j < |a| ensures a[j] != x {
        assert a[j] == s[j];
      }
    }
    assert x !in b by {
      forall j | 0 <= j < |b| ensures b[j] != x {
        assert b[j] == s[i + 1 + j];
      }
    }
    FilterAbsent(a, x);
    FilterAbsent(b, x);
    assert Filter([x] + b, Other(x)) == Filter(b, Other(x)) by {
      assert ([x] + b)[1..] == b;
    }
    FilterConcat(a, [x] + b, Other(x));
  }

  /** Summing a concatenation sums each part. */
  lemma {:induction false} SumConcat<T>(a: seq<T>, b: seq<T>, f: T -> int)
    ensures Sum(a + b, f) == Sum(a, f) + Sum(b, f)
  {
    if a == [] {
      assert a + b == b;
    } else {
      assert (a + b)[0] == a[0] && (a + b)[1..] == a[1..] + b;
      SumConcat(a[1..], b, f);
    }
  }

  /** Dropping index `j` drops one occurrence of its element. */
  lemma MultisetDropAt<T>(b: seq<T>, j: nat)
    requires j < |b|
    ensures multiset(b[..j] + b[j + 1..]) == multiset(b) - multiset{b[j]}
  {
    SplitAt(b, j);
    assert multiset(b) == multiset(b[..j]) + (multiset{b[j]} + multiset(b[j + 1..]));
  }

  /** The sum does not depend on the order of the elements. */
  lemma {:induction false} SumPermutation<T>(a: seq<T>, b: seq<T>, f: T -> int)
    requires multiset(a) == multiset(b)
    ensures Sum(a, f) == Sum(b, f)
  {
    if a == [] {
      assert |b| == |multiset(b)| == 0;
    } else {
      var x := a[0];
      assert x in multiset(b) by { assert x in multiset(a); }
      var j :| 0 <= j < |b| && b[j] == x;
      MultisetDropAt(b, j);
      MultisetDropAt(a, 0);
      var rest := b[..j] + b[j + 1..];
      SumPermutation(a[1..], rest, f);
      SplitAt(b, j);
      SumConcat(b[..j], [x] + b[j + 1..], f);
      SumConcat(b[..j], b[j + 1..], f);
      assert Sum([x] + b[j + 1..], f) == f(x) + Sum(b[j + 1..], f) by {
        assert ([x] + b[j + 1..])[1..] == b[j + 1..];
      }
    }
  }

  /** 1 for the elements that satisfy `f`, 0 for the others. */
  function Indicator<T>(f: T -> bool): T -> int
  {
    (x: T) => if f(x) then 1 else 0
  }

  /** A count is a sum of indicators. */
  lemma {:induction false} CountAsSum<T>(s: seq<T>, f: T -> bool)
    ensures Count(s, f) == Sum(s, Indicator(f))
  {
    if s != [] {
      CountAsSum(s[1..], f);
    }
  }

  /** The count does not depend on the order of the elements. */
  lemma CountPermutation<T>(a: seq<T>, b: seq<T>, f: T -> bool)
    requires multiset(a) == multiset(b)
    ensures Count(a, f) == Count(b, f)
  {
    CountAsSum(a, f);
    CountAsSum(b, f);
    SumPermutation(a, b, Indicator(f));
  }

  /** Nothing is counted when nothing satisfies `f`; something is when an
      element does. */
  lemma CountZero<T>(s: seq<T>, f: T -> bool)
    ensures Count(s, f) == 0 <==> forall i :: 0 <= i < |s| ==> !f(s[i])
  {
    if Count(s, f) > 0 {
      assert Filter(s, f)[0] in s;
    }
  }

  /** An element of a repetition-free sequence occurs at most once. */
  lemma {:induction false} DistinctOnce<T>(s: seq<T>, x: T)
    requires Distinct(s)
    ensures multiset(s)[x] <= 1
  {
    if s != [] {
      var rest := s[1..];
      assert Distinct(rest) by {
        forall a, b | 0 <= a < b < |rest| ensures rest[a] != rest[b] {
          assert rest[a] == s[a + 1] && rest[b] == s[b + 1];
        }
      }
      DistinctOnce(rest, x);
      assert s == [s[0]] + rest;
      if x == s[0] {
        assert x !in rest by {
          forall a | 0 <= a < |rest| ensures rest[a] != x {
            assert rest[a] == s[a + 1];
          }
        }
      }
    }
  }

  /** An element at two indices occurs at least twice. */
  lemma TwiceAt<T>(s: seq<T>, i: nat, j: nat)
    requires i < j < |s| && s[i] == s[j]
    ensures multiset(s)[s[i]] >= 2
  {
    assert s == s[..j] + s[j..];
    assert s[i] in s[..j];
    assert s[j] in s[j..];
  }

  /** A reordering of a repetition-free sequence has no repetitions. */
  lemma DistinctPermutation<T>(a: seq<T>, b: seq<T>)
    requires multiset(a) == multiset(b) && Distinct(a)
    ensures Distinct(b)
  {
    forall i, j | 0 <= i < j < |b| ensures b[i] != b[j] {
      if b[i] == b[j] {
        TwiceAt(b, i, j);
        DistinctOnce(a, b[i]);
      }
    }
  }
}
