/** The bank's card number check: the Luhn formula of Annex B of ISO/IEC 7812-1. */
module Luhn {
  import opened Text

  datatype LuhnError = NoError | BadLength | BadChecksum

  /** The digits of a card number; every other character is skipped. */
  function Digits(s: string): (d: seq<nat>)
    ensures |d| <= |s|
    ensures forall i :: 0 <= i < |d| ==> d[i] < 10
  {
    if s == "" then []
    else if IsDigit(s[0]) then [(s[0] - '0') as nat] + Digits(s[1..])
    else Digits(s[1..])
  }

  /** A digit's contribution; a doubled digit above nine loses nine. */
  function Weight(digit: nat, doubled: bool): nat {
    if !doubled then digit else if digit * 2 > 9 then digit * 2 - 9 else digit * 2
  }

  /** The Luhn sum: counting from the right, every second digit is doubled. */
  function LuhnSum(d: seq<nat>): nat {
    if d == [] then 0 else Weight(d[0], |d| % 2 == 0) + LuhnSum(d[1..])
  }

  predicate Accepts(s: string) {
    13 <= |Digits(s)| <= 19 && LuhnSum(Digits(s)) % 10 == 0
  }

  lemma {:induction false} DigitsConcat(s: string, t: string)
    ensures Digits(s + t) == Digits(s) + Digits(t)
  {
    if s == "" {
      assert s + t == t;
    } else {
      assert (s + t)[1..] == s[1..] + t;
      DigitsConcat(s[1..], t);
    }
  }

  /** Collects the digits from left to right. */
  method CollectDigits(cardNumber: string) returns (digits: seq<nat>)
    ensures digits == Digits(cardNumber)
  {
    digits := [];
    for k := 0 to |cardNumber|
      invariant digits == Digits(cardNumber[..k])
    {
      var r := cardNumber[k];
      assert cardNumber[..k + 1] == cardNumber[..k] + [r];
      DigitsConcat(cardNumber[..k], [r]);
      if '0' <= r <= '9' {
        digits := digits + [(r - '0') as nat];
      }
    }
    assert cardNumber[..|cardNumber|] == cardNumber;
  }

  lemma SumFrom(digits: seq<nat>, i: nat)
    requires i < |digits|
    ensures LuhnSum(digits[i..]) == Weight(digits[i], (|digits| - i) % 2 == 0) + LuhnSum(digits[i + 1..])
  {
    assert digits[i..][1..] == digits[i + 1..];
  }

  /** The right-to-left loop computes the Luhn sum of the digits, and the check accepts exactly what it defines. */
  method ValidateLuhn(cardNumber: string) returns (error: LuhnError)
    ensures error == NoError <==> Accepts(cardNumber)
    ensures error == BadLength <==> !(13 <= |Digits(cardNumber)| <= 19)
  {
    var digits := CollectDigits(cardNumber);
    if |digits| < 13 || |digits| > 19 {
      return BadLength;
    }
    var sum := 0;
    var isSecond := false;
    var i := |digits| - 1;
    while i >= 0
      invariant -1 <= i < |digits|
      invariant isSecond == ((|digits| - 1 - i) % 2 == 1)
      invariant sum == LuhnSum(digits[i + 1..])
    {
      SumFrom(digits, i);
      hide LuhnSum, Digits;
      var digit := digits[i];
      if isSecond {
        digit := digit * 2;
        if digit > 9 {
          digit := digit - 9;
        }
      }
      sum := sum + digit;
      isSecond := !isSecond;
      i := i - 1;
    }
    assert digits[0..] == digits;
    if sum % 10 != 0 {
      return BadChecksum;
    }
    return NoError;
  }

  // ---- The formula, read from the right ----

  function DigitSum(n: nat): nat {
    if n < 10 then n else DigitSum(n / 10) + n % 10
  }

  /** As the standard puts it: from the rightmost digit on, every second one is doubled, and the digits of all are added. */
  function FromTheRight(d: seq<nat>, doubled: bool): nat {
    if d == [] then 0
    else DigitSum(d[|d| - 1] * (if doubled then 2 else 1)) + FromTheRight(d[..|d| - 1], !doubled)
  }

  /** The sum from the left, with the doubled places possibly shifted by one. */
  function Shifted(d: seq<nat>, flip: bool): nat {
    if d == [] then 0 else Weight(d[0], (|d| % 2 == 0) != flip) + Shifted(d[1..], flip)
  }

  lemma {:induction false} ShiftedLast(d: seq<nat>, x: nat, flip: bool)
    ensures Shifted(d + [x], flip) == Shifted(d, !flip) + Weight(x, flip)
  {
    if d == [] {
      assert [x][1..] == [];
    } else {
      assert (d + [x])[1..] == d[1..] + [x];
      ShiftedLast(d[1..], x, flip);
    }
  }

  lemma {:induction false} ShiftedFromTheRight(d: seq<nat>, flip: bool)
    requires forall i :: 0 <= i < |d| ==> d[i] < 10
    ensures Shifted(d, flip) == FromTheRight(d, flip)
  {
    if d != [] {
      var front, last := d[..|d| - 1], d[|d| - 1];
      assert d == front + [last];
      ShiftedLast(front, last, flip);
      ShiftedFromTheRight(front, !flip);
      assert DigitSum(last * (if flip then 2 else 1)) == Weight(last, flip);
    }
  }

  lemma {:induction false} SumIsShifted(d: seq<nat>)
    ensures LuhnSum(d) == Shifted(d, false)
  {
    if d != [] { SumIsShifted(d[1..]); }
  }

  /** The sum that the check uses is the standard's. */
  lemma SumIsTheStandards(s: string)
    ensures Accepts(s) <==> 13 <= |Digits(s)| <= 19 && FromTheRight(Digits(s), false) % 10 == 0
  {
    SumIsShifted(Digits(s));
    ShiftedFromTheRight(Digits(s), false);
  }

  // ---- Error detection ----

  /** Weighing is one-to-one on digits, doubled or not. */
  lemma WeightInjective(a: nat, b: nat, doubled: bool)
    requires a < 10 && b < 10 && a != b
    ensures Weight(a, doubled) % 10 != Weight(b, doubled) % 10
  {
  }

  /** Replacing one digit changes the sum by the change of that digit's contribution. */
  lemma {:induction false} SumUpdate(d: seq<nat>, k: nat, v: nat)
    requires k < |d|
    ensures LuhnSum(d[k := v]) - LuhnSum(d)
            == Weight(v, (|d| - k) % 2 == 0) - Weight(d[k], (|d| - k) % 2 == 0)
  {
    if k == 0 {
      assert d[0 := v][1..] == d[1..];
    } else {
      assert d[k := v][1..] == d[1..][k - 1 := v];
      SumUpdate(d[1..], k - 1, v);
    }
  }

  /** Replacing the digit at position `i` of the text replaces exactly one of its digits. */
  lemma DigitsUpdate(s: string, i: nat, c: char) returns (k: nat)
    requires i < |s| && IsDigit(s[i]) && IsDigit(c)
    ensures k == |Digits(s[..i])| < |Digits(s)|
    ensures Digits(s)[k] == (s[i] - '0') as nat
    ensures Digits(s[i := c]) == Digits(s)[k := (c - '0') as nat]
  {
    var a, b := s[..i], s[i + 1..];
    k := |Digits(a)|;
    assert s == a + [s[i]] + b && s[i := c] == a + [c] + b;
    DigitsConcat(a + [s[i]], b);
    DigitsConcat(a, [s[i]]);
    DigitsConcat(a + [c], b);
    DigitsConcat(a, [c]);
  }

  /** Changing any one digit of an accepted card number makes it rejected. */
  lemma SingleDigitErrorRejected(s: string, i: nat, c: char)
    requires Accepts(s) && i < |s| && IsDigit(s[i]) && IsDigit(c) && c != s[i]
    ensures !Accepts(s[i := c])
  {
    hide Digits, LuhnSum, Weight;
    var k := DigitsUpdate(s, i, c);
    var d := Digits(s);
    var v := (c - '0') as nat;
    SumUpdate(d, k, v);
    ChangedSum(LuhnSum(d), LuhnSum(d[k := v]), d[k], v, (|d| - k) % 2 == 0);
  }

  lemma ChangedSum(before: nat, after: nat, a: nat, b: nat, doubled: bool)
    requires a < 10 && b < 10 && a != b && before % 10 == 0
    requires after - before == Weight(b, doubled) - Weight(a, doubled)
    ensures after % 10 != 0
  {
    WeightInjective(a, b, doubled);
  }

  /** Exchanging the contributions of two neighbours is noticed unless they are 0 and 9. */
  lemma NeighbourWeights(a: nat, b: nat, doubled: bool)
    requires a < 10 && b < 10 && a != b
    ensures (Weight(a, doubled) + Weight(b, !doubled) - Weight(b, doubled) - Weight(a, !doubled)) % 10 == 0
            <==> {a, b} == {0, 9}
  {
  }

  predicate NoDigits(s: string) {
    forall i :: 0 <= i < |s| ==> !IsDigit(s[i])
  }

  lemma {:induction false} NoDigitsEmpty(s: string)
    requires NoDigits(s)
    ensures Digits(s) == []
  {
    if s != "" {
      NoDigitsEmpty(s[1..]);
    }
  }

  /**
   * Swapping two neighbouring, different digits of an accepted card number (other characters may stand between
   * them) makes it rejected, except for the one pair the formula cannot tell apart.
   */
  lemma TranspositionRejected(s: string, i: nat, j: nat)
    requires Accepts(s) && i < j < |s| && IsDigit(s[i]) && IsDigit(s[j]) && s[i] != s[j] && NoDigits(s[i + 1..j])
    ensures Accepts(s[i := s[j]][j := s[i]]) <==> {s[i], s[j]} == {'0', '9'}
  {
    hide LuhnSum, Weight;
    var d := Digits(s);
    var a, b := (s[i] - '0') as nat, (s[j] - '0') as nat;
    var k := SwappedDigits(s, i, j);
    hide Digits;
    SumUpdate(d, k, b);
    SumUpdate(d[k := b], k + 1, a);
    SwappedSum(LuhnSum(d), LuhnSum(d[k := b][k + 1 := a]), a, b, (|d| - k) % 2 == 0);
    DigitPairs(s[i], s[j]);
  }

  lemma SwappedDigits(s: string, i: nat, j: nat) returns (k: nat)
    requires i < j < |s| && IsDigit(s[i]) && IsDigit(s[j]) && NoDigits(s[i + 1..j])
    ensures k + 1 < |Digits(s)|
    ensures Digits(s)[k] == (s[i] - '0') as nat && Digits(s)[k + 1] == (s[j] - '0') as nat
    ensures Digits(s[i := s[j]][j := s[i]]) == Digits(s)[k := (s[j] - '0') as nat][k + 1 := (s[i] - '0') as nat]
  {
    var t := s[i := s[j]];
    k := DigitsUpdate(s, i, s[j]);
    var m := DigitsUpdate(t, j, s[i]);
    assert t[..j] == s[..i] + [t[i]] + s[i + 1..j];
    DigitsConcat(s[..i] + [t[i]], s[i + 1..j]);
    DigitsConcat(s[..i], [t[i]]);
    NoDigitsEmpty(s[i + 1..j]);
  }

  lemma DigitPairs(x: char, y: char)
    requires IsDigit(x) && IsDigit(y)
    ensures {(x - '0') as nat, (y - '0') as nat} == {0, 9} <==> {x, y} == {'0', '9'}
  {
    var a, b := (x - '0') as nat, (y - '0') as nat;
    assert {a, b} == {0, 9} <==> (a == 0 && b == 9) || (a == 9 && b == 0) by {
      if {a, b} == {0, 9} {
        assert 0 in {a, b} && 9 in {a, b};
      }
    }
    if {x, y} == {'0', '9'} {
      assert '0' in {x, y} && '9' in {x, y};
    }
  }

  lemma SwappedSum(before: nat, after: nat, a: nat, b: nat, doubled: bool)
    requires a < 10 && b < 10 && a != b && before % 10 == 0
    requires after - before == Weight(b, doubled) - Weight(a, doubled) + Weight(a, !doubled) - Weight(b, !doubled)
    ensures after % 10 == 0 <==> {a, b} == {0, 9}
  {
    hide Weight;
    NeighbourWeights(a, b, doubled);
    var change := Weight(a, doubled) + Weight(b, !doubled) - Weight(b, doubled) - Weight(a, !doubled);
    OppositeModulo(before, after, change);
  }

  lemma OppositeModulo(before: nat, after: nat, change: int)
    requires before % 10 == 0 && after - before == -change
    ensures after % 10 == 0 <==> change % 10 == 0
  {
  }
}
