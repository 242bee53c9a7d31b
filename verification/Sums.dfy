/** Sums of an integer weight over a sequence, and how they react to edits. */
module Sums {

  function Sum<T>(s: seq<T>, w: T -> int): int {
    if s == [] then 0 else Sum(s[..|s|-1], w) + w(s[|s|-1])
  }

  lemma SumPush<T>(s: seq<T>, x: T, w: T -> int)
    ensures Sum(s + [x], w) == Sum(s, w) + w(x)
  {
    assert (s + [x])[..|s|] == s;
  }

  lemma {:induction false} SumAppend<T>(a: seq<T>, b: seq<T>, w: T -> int)
    ensures Sum(a + b, w) == Sum(a, w) + Sum(b, w)
  {
    if b == [] {
      assert a + b == a;
    } else {
      var n := |b| - 1;
      assert a + b == (a + b[..n]) + [b[n]];
      SumPush(a + b[..n], b[n], w);
      SumAppend(a, b[..n], w);
    }
  }

  lemma {:induction false} SumUpdate<T>(s: seq<T>, i: nat, x: T, w: T -> int)
    requires i < |s|
    ensures Sum(s[i := x], w) == Sum(s, w) - w(s[i]) + w(x)
  {
    var n := |s| - 1;
    if i < n {
      assert s[i := x][..n] == s[..n][i := x];
      SumUpdate(s[..n], i, x, w);
    } else {
      assert s[i := x][..n] == s[..n];
    }
  }

  // Two sums agree when they agree position by position.
  lemma {:induction false} SumPointwise<S, T>(a: seq<S>, b: seq<T>, v: S -> int, w: T -> int)
    requires |a| == |b|
    requires forall i :: 0 <= i < |a| ==> v(a[i]) == w(b[i])
    ensures Sum(a, v) == Sum(b, w)
  {
    if a != [] {
      SumPointwise(a[..|a|-1], b[..|b|-1], v, w);
    }
  }

  // The weight w is the sum of the weights u and v everywhere in s.
  lemma {:induction false} SumOfSums<T>(s: seq<T>, u: T -> int, v: T -> int, w: T -> int)
    requires forall x :: x in s ==> w(x) == u(x) + v(x)
    ensures Sum(s, w) == Sum(s, u) + Sum(s, v)
  {
    if s != [] {
      SumOfSums(s[..|s|-1], u, v, w);
    }
  }

  lemma {:induction false} SumZero<T>(s: seq<T>, w: T -> int)
    requires forall x :: x in s ==> w(x) == 0
    ensures Sum(s, w) == 0
  {
    if s != [] {
      SumZero(s[..|s|-1], w);
    }
  }

  lemma {:induction false} SumNonNegative<T>(s: seq<T>, w: T -> int)
    requires forall x :: x in s ==> w(x) >= 0
    ensures Sum(s, w) >= 0
  {
    if s != [] {
      SumNonNegative(s[..|s|-1], w);
    }
  }

  // Every prefix of a sum of non-negative weights stays below the whole sum.
  lemma {:induction false} SumPrefix<T>(s: seq<T>, i: nat, w: T -> int)
    requires i <= |s|
    requires forall x :: x in s ==> w(x) >= 0
    ensures 0 <= Sum(s[..i], w) <= Sum(s, w)
  {
    assert s == s[..i] + s[i..];
    SumAppend(s[..i], s[i..], w);
    SumNonNegative(s[..i], w);
    SumNonNegative(s[i..], w);
  }

  // A smaller weight everywhere gives a smaller sum.
  lemma {:induction false} SumBelow<T>(s: seq<T>, v: T -> int, w: T -> int)
    requires forall x :: x in s ==> v(x) <= w(x)
    ensures Sum(s, v) <= Sum(s, w)
  {
    if s != [] {
      SumBelow(s[..|s|-1], v, w);
    }
  }

  // Two positions of a sum of non-negative weights weigh no more than the sum.
  lemma {:induction false} SumOfTwo<T>(s: seq<T>, i: nat, j: nat, w: T -> int)
    requires i < j < |s| && forall x :: x in s ==> w(x) >= 0
    ensures w(s[i]) + w(s[j]) <= Sum(s, w)
  {
    var n := |s| - 1;
    if j < n {
      SumOfTwo(s[..n], i, j, w);
    } else {
      SumPrefix(s[..n], i + 1, w);
      assert s[..n][..i + 1][..i] == s[..i];
      SumPrefix(s[..n], i, w);
      assert s[..n][..i] == s[..i];
    }
  }

  // If at most one position weighs anything, the sum is within any bound on one position.
  lemma {:induction false} SumOfOne<T>(s: seq<T>, bound: int, w: T -> int)
    requires bound >= 0 && forall x :: x in s ==> 0 <= w(x) <= bound
    requires forall i, j :: 0 <= i < j < |s| ==> w(s[i]) == 0 || w(s[j]) == 0
    ensures Sum(s, w) <= bound
  {
    if s != [] {
      var n := |s| - 1;
      if w(s[n]) == 0 {
        SumOfOne(s[..n], bound, w);
      } else {
        SumZero(s[..n], w);
      }
    }
  }
}
