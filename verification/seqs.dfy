/**
 * Generic sequence operations behind the pages' list processing:
 * `Array.prototype.filter`, `some`, `find` and a left-to-right `reduce`
 * that sums one numeric field.
 */
module Seqs {
  import opened Wrappers

  /** `s.filter(p)`: the elements satisfying `p`, in their original order. */
  function Filter<T>(s: seq<T>, p: T -> bool): (r: seq<T>)
    ensures |r| <= |s|
    ensures forall x :: x in r ==> x in s && p(x)
    ensures forall x :: x in s && p(x) ==> x in r
    ensures forall x :: x in s ==> multiset(r)[x] == if p(x) then multiset(s)[x] else 0
  {
    if |s| == 0 then []
    else
      assert s == [s[0]] + s[1..];
      if p(s[0]) then [s[0]] + Filter(s[1..], p)
      else Filter(s[1..], p)
  }

  /** Filtering distributes over concatenation. */
  lemma {:induction false} FilterConcat<T>(a: seq<T>, b: seq<T>, p: T -> bool)
    ensures Filter(a + b, p) == Filter(a, p) + Filter(b, p)
  {
    if |a| == 0 {
      assert a + b == b;
    } else {
      assert (a + b)[1..] == a[1..] + b;
      FilterConcat(a[1..], b, p);
    }
  }

  /** Filtering with a predicate every element passes changes nothing. */
  lemma {:induction false} FilterAll<T>(s: seq<T>, p: T -> bool)
    ensures (forall i :: 0 <= i < |s| ==> p(s[i])) ==> Filter(s, p) == s
  {
    if |s| > 0 && forall i :: 0 <= i < |s| ==> p(s[i]) {
      assert forall i :: 0 <= i < |s[1..]| ==> p(s[1..][i]) by {
        forall i | 0 <= i < |s[1..]| ensures p(s[1..][i]) {
          assert s[1..][i] == s[i + 1];
        }
      }
      FilterAll(s[1..], p);
      assert s == [s[0]] + s[1..];
    }
  }

  /** Every earlier element stands in `before` to every later one. */
  predicate Ordered<T>(s: seq<T>, before: (T, T) -> bool) {
    forall i, j :: 0 <= i < j < |s| ==> before(s[i], s[j])
  }

  lemma OrderedTail<T>(s: seq<T>, before: (T, T) -> bool)
    requires Ordered(s, before) && |s| > 0
    ensures Ordered(s[1..], before)
    ensures forall y :: y in s[1..] ==> before(s[0], y)
  {
    forall i, j | 0 <= i < j < |s[1..]| ensures before(s[1..][i], s[1..][j]) {
      assert s[1..][i] == s[i + 1] && s[1..][j] == s[j + 1];
    }
    forall y | y in s[1..] ensures before(s[0], y) {
      var k :| 0 <= k < |s[1..]| && s[1..][k] == y;
      assert s[k + 1] == y;
    }
  }

  lemma OrderedCons<T>(x: T, t: seq<T>, before: (T, T) -> bool)
    requires Ordered(t, before)
    requires forall y :: y in t ==> before(x, y)
    ensures Ordered([x] + t, before)
  {
    var r := [x] + t;
    forall i, j | 0 <= i < j < |r| ensures before(r[i], r[j]) {
      assert r[j] == t[j - 1] && t[j - 1] in t;
      if i > 0 {
        assert r[i] == t[i - 1];
      }
    }
  }

  /** Filtering keeps a subsequence, so it keeps any pairwise order. */
  lemma {:induction false} FilterKeepsOrder<T>(s: seq<T>, p: T -> bool, before: (T, T) -> bool)
    requires Ordered(s, before)
    ensures Ordered(Filter(s, p), before)
  {
    if |s| > 0 {
      OrderedTail(s, before);
      FilterKeepsOrder(s[1..], p, before);
      if p(s[0]) {
        OrderedCons(s[0], Filter(s[1..], p), before);
      }
    }
  }

  /** `s.some(p)`: some element satisfies `p`. */
  function Any<T>(s: seq<T>, p: T -> bool): (r: bool)
    ensures r <==> exists i :: 0 <= i < |s| && p(s[i])
  {
    if |s| == 0 then false
    else p(s[0]) || Any(s[1..], p)
  }

  /** `xs.find(x => idOf(x) === id)`: the first element carrying `id`, or `None`. */
  function FindFirst<T>(xs: seq<T>, idOf: T -> string, id: string): (r: Option<T>)
    ensures r.None? <==> forall i :: 0 <= i < |xs| ==> idOf(xs[i]) != id
    ensures r.Some? ==> exists i :: 0 <= i < |xs| && xs[i] == r.value && idOf(xs[i]) == id
                                    && forall j :: 0 <= j < i ==> idOf(xs[j]) != id
  {
    if |xs| == 0 then None
    else if idOf(xs[0]) == id then Some(xs[0])
    else
      var r := FindFirst(xs[1..], idOf, id);
      if r.Some? then
        ghost var i :| 0 <= i < |xs| - 1 && xs[1..][i] == r.value && idOf(xs[1..][i]) == id
                       && forall j :: 0 <= j < i ==> idOf(xs[1..][j]) != id;
        assert forall j :: 0 < j < i + 1 ==> xs[j] == xs[1..][j - 1];
        r
      else r
  }

  /** The reference sum of one numeric field over a sequence. */
  function Sum<T>(s: seq<T>, amountOf: T -> int): int
  {
    if |s| == 0 then 0 else amountOf(s[0]) + Sum(s[1..], amountOf)
  }

  /** `s.reduce((sum, t) => sum + amountOf(t), acc)`, evaluated left to right as JavaScript does. */
  function Reduce<T>(acc: int, s: seq<T>, amountOf: T -> int): int
    decreases |s|
  {
    if |s| == 0 then acc else Reduce(acc + amountOf(s[0]), s[1..], amountOf)
  }

  /** The left fold computes the reference sum, offset by its seed. */
  lemma {:induction false} ReduceIsSum<T>(acc: int, s: seq<T>, amountOf: T -> int)
    ensures Reduce(acc, s, amountOf) == acc + Sum(s, amountOf)
    decreases |s|
  {
    if |s| > 0 {
      ReduceIsSum(acc + amountOf(s[0]), s[1..], amountOf);
    }
  }

  /** Sums decompose over concatenation. */
  lemma {:induction false} SumConcat<T>(a: seq<T>, b: seq<T>, amountOf: T -> int)
    ensures Sum(a + b, amountOf) == Sum(a, amountOf) + Sum(b, amountOf)
  {
    if |a| == 0 {
      assert a + b == b;
    } else {
      assert (a + b)[1..] == a[1..] + b;
      SumConcat(a[1..], b, amountOf);
    }
  }

  /** Splitting a sequence by a predicate and its complement loses and duplicates nothing in the sum. */
  lemma {:induction false} SumPartition<T>(s: seq<T>, p: T -> bool, q: T -> bool, amountOf: T -> int)
    requires forall x :: q(x) == !p(x)
    ensures Sum(Filter(s, p), amountOf) + Sum(Filter(s, q), amountOf) == Sum(s, amountOf)
  {
    if |s| > 0 {
      SumPartition(s[1..], p, q, amountOf);
      if p(s[0]) {
        SumConcat([s[0]], Filter(s[1..], p), amountOf);
      } else {
        SumConcat([s[0]], Filter(s[1..], q), amountOf);
      }
    }
  }

  /** Two sequences that agree on every element's field have the same sum. */
  lemma {:induction false} SumPointwise<T, U>(a: seq<T>, fa: T -> int, b: seq<U>, fb: U -> int)
    requires |a| == |b|
    requires forall i :: 0 <= i < |a| ==> fa(a[i]) == fb(b[i])
    ensures Sum(a, fa) == Sum(b, fb)
  {
    if |a| > 0 {
      SumPointwise(a[1..], fa, b[1..], fb);
    }
  }

  /**
   * Two lists that agree, position by position, on which elements pass
   * and on the amounts of those that do have equal filtered sums.
   */
  lemma {:induction false} FilteredSumPointwise<T, U>(a: seq<T>, pa: T -> bool, fa: T -> int,
                                                     b: seq<U>, pb: U -> bool, fb: U -> int)
    requires |a| == |b|
    requires forall i :: 0 <= i < |a| ==> pa(a[i]) == pb(b[i])
    requires forall i :: 0 <= i < |a| && pa(a[i]) ==> fa(a[i]) == fb(b[i])
    ensures Sum(Filter(a, pa), fa) == Sum(Filter(b, pb), fb)
  {
    if |a| > 0 {
      FilteredSumPointwise(a[1..], pa, fa, b[1..], pb, fb);
      if pa(a[0]) {
        assert ([a[0]] + Filter(a[1..], pa))[1..] == Filter(a[1..], pa);
        assert ([b[0]] + Filter(b[1..], pb))[1..] == Filter(b[1..], pb);
      }
    }
  }
}
