/** The Luhn check of card numbers: what a mistyped number can and cannot pass as. */
module Luhn {

  predicate IsDigit(c: char) {
    '0' <= c <= '9'
  }

  predicate IsNumber(s: string) {
    forall i :: 0 <= i < |s| ==> IsDigit(s[i])
  }

  // What a digit adds to the sum; every second one from the right is doubled.
  function Added(c: char, doubled: bool): int {
    var d := c as int - '0' as int;
    if !doubled then d else if 2 * d > 9 then 2 * d - 9 else 2 * d
  }

  // The digit at i has |s| - 1 - i digits to its right.
  function Total(s: string): int {
    if s == "" then 0 else Added(s[0], |s| % 2 == 0) + Total(s[1..])
  }

  predicate Passes(pan: string) {
    13 <= |pan| <= 19 && IsNumber(pan) && Total(pan) % 10 == 0
  }

  // ---- the check digit, as the rule has it

  // The decimal digits of a number, added up.
  function DigitSum(x: int): int {
    if x < 10 then x else DigitSum(x / 10) + x % 10
  }

  // From the right end, every second digit is doubled; the decimal digits of all that are added up.
  function SumFromRight(s: string, doubled: bool): int {
    if s == "" then 0
    else
      var n, d := |s| - 1, s[|s|-1] as int - '0' as int;
      DigitSum(if doubled then 2 * d else d) + SumFromRight(s[..n], !doubled)
  }

  // What completes the payload: its last digit is doubled, and the sum with the check digit ends in 0.
  function CheckDigit(payload: string): int {
    (10 - SumFromRight(payload, true) % 10) % 10
  }

  lemma AddedIsDigitSum(c: char, doubled: bool)
    requires IsDigit(c)
    ensures var d := c as int - '0' as int; Added(c, doubled) == DigitSum(if doubled then 2 * d else d)
  {
    var d := c as int - '0' as int;
    assert 0 <= d <= 9;
    assert 2 * d >= 10 ==> DigitSum(2 * d) == DigitSum(2 * d / 10) + 2 * d % 10;
  }

  // The leftmost digit, taken out of the sum from the right.
  lemma {:induction false} FirstOfSum(s: string, doubled: bool)
    requires s != "" && IsNumber(s)
    ensures SumFromRight(s, doubled) == SumFromRight(s[1..], doubled) + Added(s[0], (|s| % 2 == 1) == doubled)
  {
    hide DigitSum, Added;
    var n := |s| - 1;
    AddedIsDigitSum(s[n], doubled);
    if n > 0 {
      FirstOfSum(s[..n], !doubled);
      assert s[..n][1..] == s[1..][..n-1];
    }
  }

  lemma {:induction false} TotalFromRight(s: string)
    requires IsNumber(s)
    ensures Total(s) == SumFromRight(s, false)
  {
    hide Added, DigitSum;
    if s != "" {
      FirstOfSum(s, false);
      TotalFromRight(s[1..]);
    }
  }

  // A number passes exactly when its last digit is the check digit of the others.
  lemma PassesExactly(pan: string)
    requires 13 <= |pan| <= 19 && IsNumber(pan)
    ensures Passes(pan) <==> pan[|pan|-1] as int - '0' as int == CheckDigit(pan[..|pan|-1])
  {
    var n := |pan| - 1;
    TotalFromRight(pan);
    AddedIsDigitSum(pan[n], false);
    hide Total, DigitSum;
    assert SumFromRight(pan, false) == DigitSum(pan[n] as int - '0' as int) + SumFromRight(pan[..n], true);
    Missing(SumFromRight(pan[..n], true), pan[n] as int - '0' as int);
  }

  // A test number everybody knows, 4111111111111111, passes; with a 6 at its end it does not.
  lemma KnownNumber()
    ensures Passes(['4'] + Ones(15)) && !Passes((['4'] + Ones(15))[15 := '6'])
  {
    FourAndOnes(7);
    FourAndOnesShape(15);
    hide Total, Ones;
    TotalChange(['4'] + Ones(15), 15, '6');
  }

  lemma FourAndOnesShape(n: nat)
    requires n > 0
    ensures var pan := ['4'] + Ones(n);
            |pan| == n + 1 && IsNumber(pan) && IsNumber(pan[n := '6']) && |pan[n := '6']| == n + 1 && pan[n] == '1'
  {
  }

  lemma FourAndOnes(k: nat)
    ensures Total(['4'] + Ones(2 * k + 1)) == 9 + 3 * k
  {
    hide Total;
    var pan, ones := ['4'] + Ones(2 * k + 1), Ones(2 * k + 1);
    assert pan[0..] == pan && pan[1..] == ones && ones[0..] == ones && ones[1..] == Ones(2 * k);
    TotalStep(pan, 0);
    TotalStep(ones, 0);
    TotalOfOnes(k);
  }

  function Ones(n: nat): string {
    seq(n, _ => '1')
  }

  lemma {:induction false} TotalOfOnes(k: nat)
    ensures Total(Ones(2 * k)) == 3 * k
  {
    hide Total, Ones;
    if k > 0 {
      TwoOnes(Ones(2 * k), k);
      TotalOfOnes(k - 1);
    } else {
      NoOnes();
    }
  }

  lemma NoOnes()
    ensures Total(Ones(0)) == 0
  {
  }

  lemma OnesShape(k: nat)
    requires k > 0
    ensures var s := Ones(2 * k); |s| == 2 * k && s[0] == s[1] == '1' && s[0..] == s && s[2..] == Ones(2 * (k - 1))
  {
  }

  lemma TwoOnes(s: string, k: nat)
    requires k > 0 && s == Ones(2 * k)
    ensures Total(s) == 3 + Total(Ones(2 * (k - 1)))
  {
    OnesShape(k);
    hide Total, Ones;
    TotalStep(s, 0);
    TotalStep(s, 1);
  }

  lemma TotalOfNone(s: string)
    ensures Total(s[|s|..]) == 0
  {
  }

  lemma TotalStep(s: string, i: nat)
    requires i < |s|
    ensures Total(s[i..]) == Added(s[i], (|s| - i) % 2 == 0) + Total(s[i+1..])
  {
    assert s[i..][1..] == s[i+1..];
  }

  lemma AcceptsExactly(pan: string)
    ensures Passes(pan) <==>
      && 13 <= |pan| <= 19 && (forall i :: 0 <= i < |pan| ==> '0' <= pan[i] <= '9')
      && pan[|pan|-1] as int - '0' as int == CheckDigit(pan[..|pan|-1])
  {
    if 13 <= |pan| <= 19 && IsNumber(pan) {
      PassesExactly(pan);
    }
    hide CheckDigit, Total;
  }

  method Check(pan: string) returns (ok: bool)
    ensures ok == Passes(pan)
    ensures ok <==>
      && 13 <= |pan| <= 19 && (forall i :: 0 <= i < |pan| ==> '0' <= pan[i] <= '9')
      && pan[|pan|-1] as int - '0' as int == CheckDigit(pan[..|pan|-1])
  {
    AcceptsExactly(pan);
    hide CheckDigit, Total;
    TotalOfNone(pan);
    if |pan| < 13 || |pan| > 19 {
      return false;
    }
    var sum, double := 0, false;
    var i := |pan| - 1;
    while i >= 0
      invariant -1 <= i < |pan|
      invariant IsNumber(pan[i+1..]) && sum == Total(pan[i+1..]) && double == ((|pan| - 1 - i) % 2 == 1)
      invariant sum >= 0
    {
      var c := pan[i];
      if c < '0' || c > '9' {
        return false;
      }
      var d := c as int - '0' as int;
      if double {
        d := d * 2;
        if d > 9 {
          d := d - 9;
        }
      }
      TotalStep(pan, i);
      assert pan[i..][1..] == pan[i+1..];
      sum := sum + d;
      double := !double;
      i := i - 1;
    }
    assert pan[0..] == pan;
    return sum % 10 == 0;
  }

  // Changing one digit changes the total by what it adds more.
  lemma {:induction false} TotalChange(s: string, i: nat, c: char)
    requires i < |s|
    ensures Total(s[i := c]) == Total(s) - Added(s[i], (|s| - i) % 2 == 0) + Added(c, (|s| - i) % 2 == 0)
  {
    if i > 0 {
      TotalChange(s[1..], i - 1, c);
      assert s[i := c][1..] == s[1..][i - 1 := c];
    } else {
      assert s[i := c][1..] == s[1..];
    }
  }

  // Doubled or not, different digits add different amounts modulo ten.
  lemma AddedDiffers(a: char, b: char, doubled: bool)
    requires IsDigit(a) && IsDigit(b)
    ensures 0 <= Added(a, doubled) <= 9
    ensures Added(a, doubled) == Added(b, doubled) <==> a == b
  {
  }

  lemma Shift(total: int, shift: int)
    requires total % 10 == 0
    ensures (total + shift) % 10 == 0 <==> shift % 10 == 0
  {
  }

  lemma SmallShift(shift: int)
    requires -10 < shift < 10
    ensures shift % 10 == 0 <==> shift == 0
  {
  }

  // Every substitution of one character of an accepted number is rejected.
  lemma SubstitutionDetected(pan: string, i: nat, c: char)
    requires Passes(pan) && i < |pan| && c != pan[i]
    ensures !Passes(pan[i := c])
  {
    hide Total, Added;
    assert pan[i := c][i] == c;
    if IsDigit(c) {
      var doubled := (|pan| - i) % 2 == 0;
      var shift := Added(c, doubled) - Added(pan[i], doubled);
      TotalChange(pan, i, c);
      AddedDiffers(pan[i], c, doubled);
      AddedDiffers(c, pan[i], doubled);
      SmallShift(shift);
      Shift(Total(pan), shift);
    }
  }

  function SwapBy(a: char, b: char, doubled: bool): int {
    Added(b, doubled) + Added(a, !doubled) - Added(a, doubled) - Added(b, !doubled)
  }

  // Swapping two different neighbours of an accepted number is rejected, except for a 0 and a 9.
  lemma SwapDetectedExactly(pan: string, i: nat)
    requires Passes(pan) && i + 1 < |pan| && pan[i] != pan[i + 1]
    ensures Passes(pan[i := pan[i + 1]][i + 1 := pan[i]]) <==> {pan[i], pan[i + 1]} == {'0', '9'}
  {
    hide Total, Added, SwapBy;
    var a, b, doubled := pan[i], pan[i + 1], (|pan| - i) % 2 == 0;
    var swapped := pan[i := b][i + 1 := a];
    SwapTotal(pan, i);
    SwapAdds(a, b, doubled);
    Shift(Total(pan), SwapBy(a, b, doubled));
    PairOf(a, b);
    assert IsNumber(swapped) && |swapped| == |pan|;
  }

  lemma SwapTotal(pan: string, i: nat)
    requires i + 1 < |pan|
    ensures Total(pan[i := pan[i + 1]][i + 1 := pan[i]]) == Total(pan) + SwapBy(pan[i], pan[i + 1], (|pan| - i) % 2 == 0)
  {
    hide Total, Added;
    TotalChange(pan, i, pan[i + 1]);
    TotalChange(pan[i := pan[i + 1]], i + 1, pan[i]);
    assert ((|pan| - (i + 1)) % 2 == 0) == ((|pan| - i) % 2 != 0);
  }

  lemma PairOf(a: char, b: char)
    ensures {a, b} == {'0', '9'} <==> (a == '0' && b == '9') || (a == '9' && b == '0')
  {
    if {a, b} == {'0', '9'} {
      assert a in {'0', '9'} && b in {'0', '9'};
      assert '0' in {a, b} && '9' in {a, b};
    }
  }

  lemma SwapAdds(a: char, b: char, doubled: bool)
    requires IsDigit(a) && IsDigit(b) && a != b
    ensures SwapBy(a, b, doubled) % 10 == 0 <==> (a == '0' && b == '9') || (a == '9' && b == '0')
  {
  }

  // Any number has exactly one check digit that makes it pass.
  lemma OneCheckDigit(number: string) returns (check: char)
    requires 12 <= |number| <= 18 && IsNumber(number)
    ensures Passes(number + [check])
    ensures forall c :: Passes(number + [c]) ==> c == check
    ensures check as int == '0' as int + CheckDigit(number)
  {
    TotalFromRight(number + ['0']);
    assert (number + ['0'])[..|number|] == number;
    var missing := (10 - Total(number + ['0']) % 10) % 10;
    check := ('0' as int + missing) as char;
    hide Total, Added, SumFromRight;
    assert IsDigit(check);
    forall c | IsDigit(c)
      ensures Passes(number + [c]) <==> c == check
    {
      LastDigit(number, c);
      assert IsNumber(number + [c]);
      Missing(Total(number + ['0']), c as int - '0' as int);
    }
    forall c | Passes(number + [c])
      ensures IsDigit(c)
    {
      assert (number + [c])[|number|] == c;
    }
  }

  lemma LastDigit(number: string, c: char)
    requires IsDigit(c)
    ensures Total(number + [c]) == Total(number + ['0']) + (c as int - '0' as int)
  {
    TotalChange(number + ['0'], |number|, c);
    assert (number + ['0'])[|number| := c] == number + [c];
  }

  lemma Missing(total: int, d: int)
    requires 0 <= d <= 9
    ensures (total + d) % 10 == 0 <==> d == (10 - total % 10) % 10
  {
  }
}
