/** Amounts in cents: rates in basis points and the split into instalments. */
module Money {
  import opened Sums

  const TWO_63: int := 0x8000_0000_0000_0000
  const MAX_INT64: int := TWO_63 - 1

  predicate InInt64(x: int) {
    -TWO_63 <= x <= MAX_INT64
  }

  // Two's complement wrap-around of a 64-bit result.
  function Wrap64(x: int): int {
    (x + TWO_63) % (2 * TWO_63) - TWO_63
  }

  // Integer division that truncates toward zero, for a positive divisor.
  function TruncDiv(a: int, b: int): int
    requires b > 0
  {
    if a >= 0 then a / b else -(-a / b)
  }

  function ApplyBps(gross: int, rate: int): int {
    TruncDiv(gross * rate, 10000)
  }

  // What the machine computes: the product wraps before the division.
  function ApplyBps64(gross: int, rate: int): int {
    TruncDiv(Wrap64(gross * rate), 10000)
  }

  // The wrapped product is the 64-bit number that differs from it by a multiple of 2^64, and the only one.
  lemma WrapsModulo(x: int, y: int)
    ensures InInt64(Wrap64(x)) && (x - Wrap64(x)) % (2 * TWO_63) == 0
    ensures InInt64(y) && (x - y) % (2 * TWO_63) == 0 ==> y == Wrap64(x)
  {
    var q := (x + TWO_63) / (2 * TWO_63);
    assert x - Wrap64(x) == 2 * TWO_63 * q;
  }

  lemma TruncDivFar(a: int, b: int)
    requires a - b >= 2 * TWO_63 || b - a >= 2 * TWO_63
    ensures TruncDiv(a, 10000) != TruncDiv(b, 10000)
  {
  }

  // The 64-bit fee is the true fee exactly when the product fits in 64 bits.
  lemma ApplyBps64ExactIff(gross: int, rate: int)
    ensures ApplyBps64(gross, rate) == ApplyBps(gross, rate) <==> InInt64(gross * rate)
  {
    var p := gross * rate;
    assert Wrap64(p) == p - 2 * TWO_63 * ((p + TWO_63) / (2 * TWO_63));
    if !InInt64(p) {
      TruncDivFar(Wrap64(p), p);
    }
  }

  // A rate between 0% and 100% takes part of the amount, rounded down to a cent.
  lemma ApplyBpsBounds(gross: int, rate: int)
    requires 0 <= gross && 0 <= rate <= 10000
    ensures 0 <= ApplyBps(gross, rate) <= gross
    ensures 10000 * ApplyBps(gross, rate) <= gross * rate < 10000 * (ApplyBps(gross, rate) + 1)
    ensures gross <= MAX_INT64 / 10000 ==> InInt64(gross * rate)
  {
    assert 0 <= gross * rate <= gross * 10000 by {
      MulBounds(gross, rate);
    }
  }

  lemma MulBounds(gross: int, rate: int)
    requires 0 <= gross && 0 <= rate <= 10000
    ensures 0 <= gross * rate <= gross * 10000
  {
    assert gross * (10000 - rate) >= 0;
  }

  function Value(x: int): int {
    x
  }

  // The n instalments of total: equal parts, the remainder on the first one.
  function SplitParts(total: int, n: int): (parts: seq<int>)
    ensures |parts| == if n > 0 then n else 0
  {
    if n <= 0 then []
    else
      var base := TruncDiv(total, n);
      [base + (total - base * n)] + seq(n - 1, _ => base)
  }

  method Split(total: int, n: int) returns (parts: array<int>)
    ensures fresh(parts)
    ensures parts[..] == SplitParts(total, n)
  {
    if n <= 0 {
      parts := new int[0];
      return;
    }
    var base := TruncDiv(total, n);
    var rest := total - base * n;
    parts := new int[n];
    for i := 0 to n
      invariant forall k :: 0 <= k < i ==> parts[k] == base
    {
      parts[i] := base;
    }
    parts[0] := parts[0] + rest;
  }

  method SumValues(values: seq<int>) returns (total: int)
    ensures total == Sum(values, Value)
  {
    total := 0;
    for i := 0 to |values|
      invariant total == Sum(values[..i], Value)
    {
      assert values[..i+1][..i] == values[..i];
      total := total + values[i];
    }
    assert values[..|values|] == values;
  }

  lemma {:induction false} SumConstant(n: nat, x: int)
    ensures Sum(seq(n, _ => x), Value) == n * x
  {
    if n > 0 {
      assert seq(n, _ => x)[..n-1] == seq(n - 1, _ => x);
      SumConstant(n - 1, x);
    }
  }

  // No cent is created or lost by a split, whatever the sign of the total.
  lemma SplitConserves(total: int, n: int)
    requires n > 0
    ensures Sum(SplitParts(total, n), Value) == total
  {
    var base := TruncDiv(total, n);
    var head := [base + (total - base * n)];
    var tail := seq(n - 1, _ => base);
    assert SplitParts(total, n) == head + tail;
    HeadAndTail(head[0], tail, base);
    Regroup(total, base, n);
  }

  lemma HeadAndTail(first: int, tail: seq<int>, base: int)
    requires tail == seq(|tail|, _ => base)
    ensures Sum([first] + tail, Value) == first + |tail| * base
  {
    SumAppend([first], tail, Value);
    SumConstant(|tail|, base);
    assert Sum([first], Value) == first;
  }

  lemma Regroup(total: int, base: int, n: int)
    ensures base + (total - base * n) + (n - 1) * base == total
  {
  }

  // A non-negative total splits into non-negative parts at most n-1 cents apart.
  lemma SplitFair(total: int, n: int, k: nat)
    requires total >= 0 && 0 <= k < n
    ensures SplitParts(total, n)[k] == total / n + (if k == 0 then total % n else 0)
    ensures 0 <= SplitParts(total, n)[k] <= total
    ensures 0 <= SplitParts(total, n)[0] - SplitParts(total, n)[k] < n
  {
    DivModBounds(total, n);
  }

  // A negative total splits, and a rate takes of a negative amount, as of the positive one with the sign turned.
  lemma Mirrored(total: int, n: int, k: nat, rate: int)
    requires 0 <= k < n
    ensures SplitParts(-total, n)[k] == -SplitParts(total, n)[k]
    ensures ApplyBps(-total, rate) == -ApplyBps(total, rate)
  {
    TruncMirrored(total, n);
    TruncMirrored(total * rate, 10000);
    MinusTimes(total, rate);
    MinusTimes(TruncDiv(total, n), n);
    hide TruncDiv;
  }

  lemma TruncMirrored(a: int, b: int)
    requires b > 0
    ensures TruncDiv(-a, b) == -TruncDiv(a, b)
  {
  }

  lemma MinusTimes(a: int, b: int)
    ensures (-a) * b == -(a * b)
  {
  }

  lemma DivModBounds(total: int, n: int)
    requires total >= 0 && n > 0
    ensures total == total / n * n + total % n
    ensures 0 <= total / n <= total && 0 <= total % n < n
    ensures total / n + total % n <= total
  {
    QuotientBounds(total / n, n, total % n);
  }

  lemma QuotientBounds(q: int, n: int, r: int)
    requires n > 0 && 0 <= r < n && q * n + r >= 0
    ensures 0 <= q && q + r <= q * n + r
  {
    MulSign(-q - 1, n);
    MulSign(q, n - 1);
  }

  lemma MulSign(a: int, n: int)
    requires n >= 0
    ensures a >= 0 ==> a * n >= 0
  {
  }

  // Net amounts (part of the gross minus part of the fee) are non-negative from
  // the second instalment on; only the first can fall short, by at most n-1 cents.
  lemma SplitNet(amount: int, fee: int, n: int, k: nat)
    requires 0 <= fee <= amount && 0 <= k < n
    ensures k > 0 ==> SplitParts(amount, n)[k] - SplitParts(fee, n)[k] >= 0
    ensures SplitParts(amount, n)[0] - SplitParts(fee, n)[0] >= -(n - 1)
    ensures amount / n - fee / n >= n - 1 ==> SplitParts(amount, n)[0] - SplitParts(fee, n)[0] >= 0
  {
    DivModBounds(amount, n);
    DivModBounds(fee, n);
    DivMonotone(fee, amount, n);
  }

  lemma DivMonotone(x: int, y: int, n: int)
    requires 0 <= x <= y && n > 0
    ensures x / n <= y / n
  {
    QuotientMonotone(x / n, x % n, y / n, y % n, n);
  }

  lemma QuotientMonotone(q: int, r: int, p: int, t: int, n: int)
    requires n > 0 && 0 <= r < n && 0 <= t < n && q * n + r <= p * n + t
    ensures q <= p
  {
    MulSign(q - p - 1, n);
  }

  // A sale in one instalment is not split.
  lemma SplitOnce(total: int)
    ensures SplitParts(total, 1) == [total]
  {
  }

  // The bound is met: one real split has a first instalment below zero.
  lemma SplitNetCanBeNegative()
    ensures ApplyBps(12, 9999) == 11
    ensures SplitParts(12, 12)[0] - SplitParts(11, 12)[0] == -10
  {
  }
}
