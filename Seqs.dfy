/** Sequence helpers shared by every page and component of the dashboard:
    the optional value that stands for JavaScript's `undefined`/`null`,
    `Array.prototype.filter`, `map`, `find`, and the numeric `reduce` sums. */
module Seqs {

  datatype Option<+T> = None | Some(value: T)

  /** The outcome of code that may throw: a value, or the message of the error thrown. */
  datatype Result<+T> = Ok(value: T) | Err(error: string)

  /** `s.filter(p)`: the elements of `s` that satisfy `p`, in their original order. */
  function Filter<T(==,!new)>(p: T -> bool, s: seq<T>): (r: seq<T>)
    ensures |r| <= |s|
    ensures forall x :: x in r <==> x in s && p(x)
    decreases |s|
  {
    if s == [] then [] else (if p(s[0]) then [s[0]] else []) + Filter(p, s[1..])
  }

  /** `s.map(f)`: one output element per input element, in order. */
  function Map<T, U>(f: T -> U, s: seq<T>): (r: seq<U>)
    ensures |r| == |s|
    ensures forall i :: 0 <= i < |s| ==> r[i] == f(s[i])
    decreases |s|
  {
    if s == [] then [] else [f(s[0])] + Map(f, s[1..])
  }

  /** `s.find(p)`: the first element satisfying `p`, or `undefined`. */
  function Find<T>(p: T -> bool, s: seq<T>): (r: Option<T>)
    ensures r.Some? <==> exists i :: 0 <= i < |s| && p(s[i])
    ensures r.Some? ==> exists i :: 0 <= i < |s| && s[i] == r.value && p(s[i])
                                    && forall j :: 0 <= j < i ==> !p(s[j])
    decreases |s|
  {
    if s == [] then None
    else if p(s[0]) then Some(s[0])
    else
      var r := Find(p, s[1..]);
      assert forall i :: 0 < i < |s| ==> s[i] == s[1..][i - 1];
      r
  }

  /** `a` occurs in `b` with its elements in the same relative order. Greedy
      matching of the first element is complete for this relation. */
  predicate IsSubsequence<T(==)>(a: seq<T>, b: seq<T>)
    decreases |b|
  {
    if a == [] then true
    else if b == [] then false
    else if a[0] == b[0] then IsSubsequence(a[1..], b[1..])
    else IsSubsequence(a, b[1..])
  }

  /** Filtering never reorders: its result is a subsequence of its input. */
  lemma {:induction false} FilterIsSubsequence<T(!new)>(p: T -> bool, s: seq<T>)
    ensures IsSubsequence(Filter(p, s), s)
    decreases |s|
  {
    if s != [] {
      FilterIsSubsequence(p, s[1..]);
      var rest := Filter(p, s[1..]);
      if p(s[0]) {
        assert Filter(p, s) == [s[0]] + rest;
        assert ([s[0]] + rest)[1..] == rest;
      } else {
        assert Filter(p, s) == rest;
        if rest != [] {
          assert rest[0] in rest;
          assert rest[0] != s[0];
        }
      }
    }
  }

  /** A filter whose predicate holds everywhere keeps the whole sequence. */
  lemma {:induction false} FilterKeepsAll<T(!new)>(p: T -> bool, s: seq<T>)
    requires forall i :: 0 <= i < |s| ==> p(s[i])
    ensures Filter(p, s) == s
    decreases |s|
  {
    if s != [] {
      FilterKeepsAll(p, s[1..]);
    }
  }

  /** Two predicates that agree on the elements of `s` filter it identically. */
  lemma {:induction false} FilterCongruent<T(!new)>(p: T -> bool, q: T -> bool, s: seq<T>)
    requires forall i :: 0 <= i < |s| ==> p(s[i]) == q(s[i])
    ensures Filter(p, s) == Filter(q, s)
    decreases |s|
  {
    if s != [] {
      FilterCongruent(p, q, s[1..]);
    }
  }

  /** Two chained filters are one filter by the conjunction, in the same order. */
  lemma {:induction false} FilterFilter<T(!new)>(p: T -> bool, q: T -> bool, s: seq<T>)
    ensures Filter(q, Filter(p, s)) == Filter(x => p(x) && q(x), s)
    decreases |s|
  {
    if s != [] {
      FilterFilter(p, q, s[1..]);
      var head := if p(s[0]) then [s[0]] else [];
      assert Filter(p, s) == head + Filter(p, s[1..]);
      FilterAppend(q, head, Filter(p, s[1..]));
    }
  }

  /** Filtering distributes over concatenation. */
  lemma {:induction false} FilterAppend<T(!new)>(p: T -> bool, a: seq<T>, b: seq<T>)
    ensures Filter(p, a + b) == Filter(p, a) + Filter(p, b)
    decreases |a|
  {
    if a != [] {
      assert (a + b)[1..] == a[1..] + b;
      FilterAppend(p, a[1..], b);
    } else {
      assert a + b == b;
    }
  }

  /** Three predicates that pick out exactly one of them for every element
      split a sequence into three filters holding all of its elements, each once. */
  lemma {:induction false} FilterPartition3<T(!new)>(p: T -> bool, q: T -> bool, r: T -> bool, s: seq<T>)
    requires forall i :: 0 <= i < |s| ==>
      (p(s[i]) && !q(s[i]) && !r(s[i])) || (!p(s[i]) && q(s[i]) && !r(s[i])) || (!p(s[i]) && !q(s[i]) && r(s[i]))
    ensures multiset(Filter(p, s)) + multiset(Filter(q, s)) + multiset(Filter(r, s)) == multiset(s)
    ensures |Filter(p, s)| + |Filter(q, s)| + |Filter(r, s)| == |s|
    decreases |s|
  {
    if s != [] {
      FilterPartition3(p, q, r, s[1..]);
      assert s == [s[0]] + s[1..];
    }
  }

  /** `xs.reduce((a, b) => a + b, 0)`, summed left to right as reduce does. */
  function Sum(xs: seq<real>): real
    decreases |xs|
  {
    if xs == [] then 0.0 else Sum(xs[..|xs| - 1]) + xs[|xs| - 1]
  }

  /** Arithmetic mean; JavaScript's `0 / 0` is NaN, so callers guard the empty case. */
  function Mean(xs: seq<real>): real
    requires |xs| > 0
  {
    Sum(xs) / (|xs| as real)
  }

  lemma {:induction false} SumAppend(a: seq<real>, b: seq<real>)
    ensures Sum(a + b) == Sum(a) + Sum(b)
    decreases |b|
  {
    if b == [] {
      assert a + b == a;
    } else {
      assert (a + b)[..|a + b| - 1] == a + b[..|b| - 1];
      SumAppend(a, b[..|b| - 1]);
    }
  }

  lemma {:induction false} SumNonNegative(xs: seq<real>)
    requires forall i :: 0 <= i < |xs| ==> xs[i] >= 0.0
    ensures Sum(xs) >= 0.0
    decreases |xs|
  {
    if xs != [] {
      SumNonNegative(xs[..|xs| - 1]);
    }
  }

  /** The mean of a constant series is that constant. */
  lemma {:induction false} MeanOfConstant(c: real, xs: seq<real>)
    requires |xs| > 0
    requires forall i :: 0 <= i < |xs| ==> xs[i] == c
    ensures Mean(xs) == c
  {
    SumOfConstant(c, xs);
  }

  lemma {:induction false} SumOfConstant(c: real, xs: seq<real>)
    requires forall i :: 0 <= i < |xs| ==> xs[i] == c
    ensures Sum(xs) == c * (|xs| as real)
    decreases |xs|
  {
    if xs != [] {
      SumOfConstant(c, xs[..|xs| - 1]);
    }
  }

  /** Sums of short literal series, spelled out once for the concrete data checks. */
  lemma Sum4(a: real, b: real, c: real, d: real)
    ensures Sum([a, b, c, d]) == a + b + c + d
  {
    assert [a][..0] == [];
    assert Sum([a]) == a;
    assert [a, b][..1] == [a];
    assert Sum([a, b]) == a + b;
    assert [a, b, c][..2] == [a, b];
    assert Sum([a, b, c]) == a + b + c;
    assert [a, b, c, d][..3] == [a, b, c];
  }

  lemma Sum6(a: real, b: real, c: real, d: real, e: real, f: real)
    ensures Sum([a, b, c, d, e, f]) == a + b + c + d + e + f
  {
    assert [a, b, c, d, e, f][..5] == [a, b, c, d, e];
    assert [a, b, c, d, e][..4] == [a, b, c, d];
    Sum4(a, b, c, d);
    assert Sum([a, b, c, d, e]) == a + b + c + d + e;
  }

  lemma Sum8(a: real, b: real, c: real, d: real, e: real, f: real, g: real, h: real)
    ensures Sum([a, b, c, d, e, f, g, h]) == a + b + c + d + e + f + g + h
  {
    assert [a, b, c, d, e, f, g, h][..7] == [a, b, c, d, e, f, g];
    assert [a, b, c, d, e, f, g][..6] == [a, b, c, d, e, f];
    Sum6(a, b, c, d, e, f);
    assert Sum([a, b, c, d, e, f, g]) == a + b + c + d + e + f + g;
  }

  /** A filter whose predicate holds nowhere keeps nothing. */
  lemma FilterKeepsNone<T(!new)>(p: T -> bool, s: seq<T>)
    requires forall i :: 0 <= i < |s| ==> !p(s[i])
    ensures Filter(p, s) == []
  {
  }

  /** The kept elements of `s` are those kept from its first `k` and from the rest. */
  lemma FilterLengthSplit<T(!new)>(p: T -> bool, s: seq<T>, k: nat)
    requires k <= |s|
    ensures |Filter(p, s)| == |Filter(p, s[..k])| + |Filter(p, s[k..])|
  {
    assert s == s[..k] + s[k..];
    FilterAppend(p, s[..k], s[k..]);
  }

  /** Dropping the first element of a subsequence leaves a subsequence. */
  lemma {:induction false} IsSubsequenceDropFirst<T>(a: seq<T>, b: seq<T>)
    requires a != [] && IsSubsequence(a, b)
    ensures IsSubsequence(a[1..], b)
    decreases |b|, 1
  {
    if a[1..] != [] {
      if a[0] == b[0] {
        IsSubsequenceDropFirst(a[1..], b[1..]);
        IsSubsequenceSkip(a[1..], b);
      } else {
        IsSubsequenceDropFirst(a, b[1..]);
        IsSubsequenceSkip(a[1..], b);
      }
    }
  }

  /** A subsequence of the tail of `b` is a subsequence of `b`. */
  lemma {:induction false} IsSubsequenceSkip<T>(a: seq<T>, b: seq<T>)
    requires b != [] && IsSubsequence(a, b[1..])
    ensures IsSubsequence(a, b)
    decreases |b|, 0
  {
    if a != [] && a[0] == b[0] {
      IsSubsequenceDropFirst(a, b[1..]);
    }
  }

  lemma {:induction false} IsSubsequenceTransitive<T>(a: seq<T>, b: seq<T>, c: seq<T>)
    requires IsSubsequence(a, b) && IsSubsequence(b, c)
    ensures IsSubsequence(a, c)
    decreases |c|
  {
    if a != [] {
      assert b != [] && c != [];
      if b[0] == c[0] {
        if a[0] == b[0] {
          IsSubsequenceTransitive(a[1..], b[1..], c[1..]);
        } else {
          IsSubsequenceTransitive(a, b[1..], c[1..]);
        }
      } else {
        IsSubsequenceTransitive(a, b, c[1..]);
        IsSubsequenceSkip(a, c);
      }
    }
  }
}
