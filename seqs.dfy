/** Order-preserving filtering of sequences (`Array.prototype.filter`). */
module Seqs {

  /** The elements of `s` that satisfy `p`, in their original order. */
  function Filter<T(!new)>(s: seq<T>, p: T -> bool): (r: seq<T>)
    ensures |r| <= |s|
    ensures forall x :: x in r <==> x in s && p(x)
  {
    if s == [] then []
    else
      var rest := Filter(s[1..], p);
      if p(s[0]) then [s[0]] + rest else rest
  }

  /** Filtering keeps every satisfying element as often as it occurs and drops the rest. */
  lemma {:induction false} FilterCount<T(!new)>(s: seq<T>, p: T -> bool, x: T)
    ensures multiset(Filter(s, p))[x] == if p(x) then multiset(s)[x] else 0
  {
    if s != [] {
      assert s == [s[0]] + s[1..];
      FilterCount(s[1..], p, x);
    }
  }

  /** Filtering distributes over concatenation, so relative order is kept. */
  lemma {:induction false} FilterConcat<T(!new)>(a: seq<T>, b: seq<T>, p: T -> bool)
    ensures Filter(a + b, p) == Filter(a, p) + Filter(b, p)
  {
    if a == [] {
      assert a + b == b;
    } else {
      assert (a + b)[1..] == a[1..] + b;
      FilterConcat(a[1..], b, p);
    }
  }

  /** Filtering by a predicate every element satisfies changes nothing. */
  lemma {:induction false} FilterAll<T(!new)>(s: seq<T>, p: T -> bool)
    requires forall x :: x in s ==> p(x)
    ensures Filter(s, p) == s
  {
    if s != [] {
      assert forall x :: x in s[1..] ==> x in s;
      FilterAll(s[1..], p);
    }
  }

  /** Filtering by a predicate no element satisfies leaves nothing. */
  lemma {:induction false} FilterNone<T(!new)>(s: seq<T>, p: T -> bool)
    requires forall x :: x in s ==> !p(x)
    ensures Filter(s, p) == []
  {
    if s != [] {
      assert forall x :: x in s[1..] ==> x in s;
      FilterNone(s[1..], p);
    }
  }

  /** Filtering out a single rejected element between two kept runs joins the runs. */
  lemma {:induction false} DropsOne<T(!new)>(before: seq<T>, x: T, after: seq<T>, p: T -> bool)
    requires forall y :: y in before ==> p(y)
    requires forall y :: y in after ==> p(y)
    requires !p(x)
    ensures Filter(before + [x] + after, p) == before + after
  {
    var w := before + [x] + after;
    if before == [] {
      assert w[0] == x && w[1..] == after;
      FilterAll(after, p);
      assert before + after == after;
    } else {
      assert w[0] == before[0] && w[1..] == before[1..] + [x] + after;
      assert p(before[0]) by {
        assert before[0] in before;
      }
      assert forall y :: y in before[1..] ==> y in before;
      DropsOne(before[1..], x, after, p);
      assert before + after == [before[0]] + (before[1..] + after);
    }
  }

  /** Filtering twice by the same predicate is the same as filtering once. */
  lemma FilterIdempotent<T(!new)>(s: seq<T>, p: T -> bool)
    ensures Filter(Filter(s, p), p) == Filter(s, p)
  {
    FilterAll(Filter(s, p), p);
  }
}
