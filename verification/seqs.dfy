/** Sequence operations the job board uses everywhere: JavaScript's
    order-preserving `Array.prototype.filter`, the "is a subsequence of"
    relation that describes its result, and the `Option` type used for
    nullable state. */
module Seqs {

  datatype Option<+T> = None | Some(value: T)

  /** `a` can be obtained from `b` by deleting elements, keeping the order. */
  ghost predicate SubsequenceOf<T(!new)>(a: seq<T>, b: seq<T>)
    decreases |b|
  {
    |a| == 0 ||
    (|b| > 0 && ((a[0] == b[0] && SubsequenceOf(a[1..], b[1..])) || SubsequenceOf(a, b[1..])))
  }

  /** `xs.filter(p)`: the elements of `xs` that satisfy `p`, in their original
      order. `FilterCount` completes the characterisation. */
  function Filter<T(!new)>(xs: seq<T>, p: T -> bool): (r: seq<T>)
    ensures SubsequenceOf(r, xs)
    decreases |xs|
  {
    if |xs| == 0 then []
    else
      var rest := Filter(xs[1..], p);
      if p(xs[0]) then
        assert ([xs[0]] + rest)[1..] == rest;
        [xs[0]] + rest
      else
        SubsequenceDropFront(rest, xs);
        rest
  }

  /** The filter keeps every occurrence of every element satisfying `p` and
      nothing else. Together with the subsequence property of `Filter` this
      determines the result uniquely. */
  lemma {:induction false} FilterCount<T(!new)>(xs: seq<T>, p: T -> bool)
    ensures forall x :: multiset(Filter(xs, p))[x] == if p(x) then multiset(xs)[x] else 0
    decreases |xs|
  {
    if |xs| > 0 {
      FilterCount(xs[1..], p);
      assert xs == [xs[0]] + xs[1..];
      assert multiset(xs) == multiset{xs[0]} + multiset(xs[1..]);
    }
  }

  /** Dropping the head of the longer sequence keeps a subsequence a subsequence of it. */
  lemma SubsequenceDropFront<T(!new)>(a: seq<T>, b: seq<T>)
    requires |b| > 0 && SubsequenceOf(a, b[1..])
    ensures SubsequenceOf(a, b)
  {
  }

  /** Membership in a filtered sequence: both directions. */
  lemma FilterMembership<T(!new)>(xs: seq<T>, p: T -> bool, x: T)
    ensures x in Filter(xs, p) <==> x in xs && p(x)
  {
    var r := Filter(xs, p);
    FilterCount(xs, p);
    assert x in r <==> multiset(r)[x] > 0;
    assert x in xs <==> multiset(xs)[x] > 0;
  }

  /** A subsequence is never longer than the sequence it came from. */
  lemma {:induction false} SubsequenceLength<T(!new)>(a: seq<T>, b: seq<T>)
    requires SubsequenceOf(a, b)
    ensures |a| <= |b|
    decreases |b|
  {
    if |a| > 0 {
      if a[0] == b[0] && SubsequenceOf(a[1..], b[1..]) {
        SubsequenceLength(a[1..], b[1..]);
      } else {
        SubsequenceLength(a, b[1..]);
      }
    }
  }

  /** Every sequence is a subsequence of itself. */
  lemma {:induction false} SubsequenceRefl<T(!new)>(a: seq<T>)
    ensures SubsequenceOf(a, a)
    decreases |a|
  {
    if |a| > 0 {
      SubsequenceRefl(a[1..]);
    }
  }

  /** The subsequence relation is transitive, so chained filters keep the order. */
  lemma {:induction false} SubsequenceTrans<T(!new)>(a: seq<T>, b: seq<T>, c: seq<T>)
    requires SubsequenceOf(a, b) && SubsequenceOf(b, c)
    ensures SubsequenceOf(a, c)
    decreases |c|
  {
    if |a| == 0 {
    } else if |b| == 0 {
    } else {
      assert |c| > 0;
      if b[0] == c[0] && SubsequenceOf(b[1..], c[1..]) {
        if a[0] == b[0] && SubsequenceOf(a[1..], b[1..]) {
          SubsequenceTrans(a[1..], b[1..], c[1..]);
        } else {
          SubsequenceTrans(a, b[1..], c[1..]);
          SubsequenceDropFront(a, c);
        }
      } else {
        SubsequenceTrans(a, b, c[1..]);
        SubsequenceDropFront(a, c);
      }
    }
  }

  /** Filtering with a predicate that holds of every element changes nothing. */
  lemma {:induction false} FilterKeepsAll<T(!new)>(xs: seq<T>, p: T -> bool)
    requires forall i :: 0 <= i < |xs| ==> p(xs[i])
    ensures Filter(xs, p) == xs
    decreases |xs|
  {
    if |xs| > 0 {
      FilterKeepsAll(xs[1..], p);
    }
  }

  /** Filtering twice equals filtering once with the conjunction `pq` of both predicates. */
  lemma {:induction false} FilterFuse<T(!new)>(xs: seq<T>, p: T -> bool, q: T -> bool, pq: T -> bool)
    requires forall i :: 0 <= i < |xs| ==> pq(xs[i]) == (p(xs[i]) && q(xs[i]))
    ensures Filter(Filter(xs, p), q) == Filter(xs, pq)
    decreases |xs|
  {
    if |xs| > 0 {
      FilterFuse(xs[1..], p, q, pq);
      if p(xs[0]) {
        assert Filter(xs, p)[0] == xs[0];
        assert Filter(xs, p)[1..] == Filter(xs[1..], p);
      }
    }
  }

  /** Filters with predicates that agree on the elements give the same result. */
  lemma {:induction false} FilterCongruent<T(!new)>(xs: seq<T>, p: T -> bool, q: T -> bool)
    requires forall i :: 0 <= i < |xs| ==> p(xs[i]) == q(xs[i])
    ensures Filter(xs, p) == Filter(xs, q)
    decreases |xs|
  {
    if |xs| > 0 {
      FilterCongruent(xs[1..], p, q);
    }
  }

  /** Filtering distributes over concatenation. */
  lemma {:induction false} FilterAppend<T(!new)>(a: seq<T>, b: seq<T>, p: T -> bool)
    ensures Filter(a + b, p) == Filter(a, p) + Filter(b, p)
    decreases |a|
  {
    if |a| == 0 {
      assert a + b == b;
    } else {
      assert (a + b)[0] == a[0];
      assert (a + b)[1..] == a[1..] + b;
      FilterAppend(a[1..], b, p);
    }
  }

  /** What the filter keeps of one element: the element itself, or nothing. */
  function KeepIf<T>(x: T, p: T -> bool): (r: seq<T>)
    ensures |r| <= 1
    ensures x in r <==> p(x)
  {
    if p(x) then [x] else []
  }

  /** The filter decides the head of a list on its own and moves on to the rest. */
  lemma FilterCons<T(!new)>(x: T, xs: seq<T>, p: T -> bool)
    ensures Filter([x] + xs, p) == KeepIf(x, p) + Filter(xs, p)
  {
    assert ([x] + xs)[1..] == xs;
  }

  /** The filter of a two-element list, element by element. */
  lemma FilterTwo<T(!new)>(b: T, c: T, p: T -> bool)
    ensures Filter([b, c], p) == KeepIf(b, p) + KeepIf(c, p)
  {
    FilterCons(b, [c], p);
    FilterCons(c, [], p);
    assert [b, c] == [b] + [c];
    assert [c] == [c] + [];
  }

  /** The filter of a three-element list, element by element. */
  lemma FilterThree<T(!new)>(a: T, b: T, c: T, p: T -> bool)
    ensures Filter([a, b, c], p) == KeepIf(a, p) + KeepIf(b, p) + KeepIf(c, p)
  {
    FilterCons(a, [b, c], p);
    FilterTwo(b, c, p);
    assert [a, b, c] == [a] + [b, c];
  }

  /** The filter of a six-element list is the filters of its two halves, joined. */
  lemma FilterSix<T(!new)>(a: T, b: T, c: T, d: T, e: T, f: T, p: T -> bool)
    ensures Filter([a, b, c, d, e, f], p) == Filter([a, b, c], p) + Filter([d, e, f], p)
  {
    assert [a, b, c, d, e, f] == [a, b, c] + [d, e, f];
    FilterAppend([a, b, c], [d, e, f], p);
  }

  /** Filtering is idempotent: applying the same filter again changes nothing. */
  lemma FilterIdempotent<T(!new)>(xs: seq<T>, p: T -> bool)
    ensures Filter(Filter(xs, p), p) == Filter(xs, p)
  {
    var r := Filter(xs, p);
    forall i | 0 <= i < |r|
      ensures p(r[i])
    {
      assert r[i] in r;
      FilterMembership(xs, p, r[i]);
    }
    FilterKeepsAll(r, p);
  }
}
