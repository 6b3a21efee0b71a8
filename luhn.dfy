/**
  The Luhn check of a card number (ISO/IEC 7812-1, Annex B), as the checkout
  form runs it: the digits are reversed in place and every digit at an odd
  index of the reversed list is doubled, with 9 taken off a doubled value
  above 9; the number passes when the total is a multiple of 10.

  `LuhnSum` is the reference definition, read from the right of the number in
  pairs (check digit, doubled digit); `LuhnChecksum` is the reverse-then-
  accumulate loop, proved equal to it.
 */
module Luhn {

  /** Every element is a decimal digit. */
  predicate IsDigits(ds: seq<int>) {
    forall i :: 0 <= i < |ds| ==> 0 <= ds[i] <= 9
  }

  /** A digit doubled and brought back to one digit by taking 9 off. For a
      decimal digit this is the sum of the two decimal digits of its double. */
  function DoubleDigit(d: int): (r: int)
    ensures 0 <= d <= 9 ==> 0 <= r <= 9 && r == (2 * d) / 10 + (2 * d) % 10
  {
    if 2 * d > 9 then 2 * d - 9 else 2 * d
  }

  /** What the digit `d` adds to the total when it stands `pos` places from
      the right end of the number (the check digit is at 0). */
  function Weight(d: int, pos: nat): int {
    if pos % 2 == 1 then DoubleDigit(d) else d
  }

  /** The Luhn total of a digit sequence written most significant digit first. */
  function LuhnSum(ds: seq<int>): int
    decreases |ds|
  {
    var n := |ds|;
    if n == 0 then 0
    else if n == 1 then ds[0]
    else LuhnSum(ds[..n - 2]) + DoubleDigit(ds[n - 2]) + ds[n - 1]
  }

  predicate LuhnValid(ds: seq<int>) {
    LuhnSum(ds) % 10 == 0
  }

  function Reversed(s: seq<int>): seq<int> {
    seq(|s|, i requires 0 <= i < |s| => s[|s| - 1 - i])
  }

  /** The total the checksum loop adds up over the reversed digits `r`, the
      first of them standing at index `start` of the enumeration. */
  function ReversedSum(r: seq<int>, start: nat): int
    decreases |r|
  {
    if r == [] then 0 else Weight(r[0], start) + ReversedSum(r[1..], start + 1)
  }

  /** Only the parity of the starting index matters. */
  lemma {:induction false} ReversedSumShift(r: seq<int>, start: nat)
    ensures ReversedSum(r, start + 2) == ReversedSum(r, start)
    decreases |r|
  {
    if r != [] {
      ReversedSumShift(r[1..], start + 1);
    }
  }

  /** Enumerating the reversed digits and doubling at odd indices gives the
      Luhn total of the number. */
  lemma {:induction false} ReversedSumIsLuhnSum(ds: seq<int>)
    ensures ReversedSum(Reversed(ds), 0) == LuhnSum(ds)
    decreases |ds|
  {
    var n := |ds|;
    var r := Reversed(ds);
    if n == 1 {
      assert r[1..] == [];
    } else if n >= 2 {
      var rest := ds[..n - 2];
      assert r[1..][1..] == r[2..];
      assert r[2..] == Reversed(rest);
      calc {
        ReversedSum(r, 0);
        ds[n - 1] + ReversedSum(r[1..], 1);
        ds[n - 1] + DoubleDigit(ds[n - 2]) + ReversedSum(r[2..], 2);
        { ReversedSumShift(r[2..], 0); }
        ds[n - 1] + DoubleDigit(ds[n - 2]) + ReversedSum(Reversed(rest), 0);
        { ReversedSumIsLuhnSum(rest); }
        LuhnSum(ds);
      }
    }
  }

  /** Reverses the digit list in place. */
  method Reverse(a: array<int>)
    modifies a
    ensures a[..] == Reversed(old(a[..]))
  {
    var n := a.Length;
    var i := 0;
    while i < n / 2
      invariant 0 <= i <= n / 2
      invariant forall k :: 0 <= k < i ==> a[k] == old(a[n - 1 - k]) && a[n - 1 - k] == old(a[k])
      invariant forall k :: i <= k < n - i ==> a[k] == old(a[k])
    {
      a[i], a[n - 1 - i] := a[n - 1 - i], a[i];
      i := i + 1;
    }
  }

  /** The checksum loop of the checkout form: copy the digits into a list,
      reverse it in place, then add up the digits, doubling those at odd
      indices. The result is the Luhn total of the digits. */
  method LuhnChecksum(digits: seq<int>) returns (checksum: int)
    ensures checksum == LuhnSum(digits)
  {
    var a := new int[|digits|](i requires 0 <= i < |digits| => digits[i]);
    assert a[..] == digits;
    Reverse(a);
    ghost var reversed := a[..];
    checksum := 0;
    for i := 0 to a.Length
      invariant a[..] == reversed
      invariant checksum + ReversedSum(reversed[i..], i) == ReversedSum(reversed, 0)
    {
      assert reversed[i..][1..] == reversed[i + 1..];
      var d := a[i];
      if i % 2 == 1 {
        d := d * 2;
        if d > 9 {
          d := d - 9;
        }
      }
      checksum := checksum + d;
    }
    assert reversed[a.Length..] == [];
    ReversedSumIsLuhnSum(digits);
  }

  /** Changing the digit at index `k` changes the total by the difference of
      the two digits' weights at that position. */
  lemma {:induction false} LuhnSumUpdate(ds: seq<int>, k: nat, d: int)
    requires k < |ds|
    ensures LuhnSum(ds[k := d]) == LuhnSum(ds) - Weight(ds[k], |ds| - 1 - k) + Weight(d, |ds| - 1 - k)
    decreases |ds|
  {
    var n := |ds|;
    var e := ds[k := d];
    var pos := n - 1 - k;
    if n == 1 {
      assert e == [d];
    } else if k == n - 1 {
      assert e[..n - 2] == ds[..n - 2];
      assert LuhnSum(e) == LuhnSum(ds[..n - 2]) + DoubleDigit(ds[n - 2]) + d;
    } else if k == n - 2 {
      assert e[..n - 2] == ds[..n - 2];
      assert LuhnSum(e) == LuhnSum(ds[..n - 2]) + DoubleDigit(d) + ds[n - 1];
    } else {
      var rest := ds[..n - 2];
      assert e[..n - 2] == rest[k := d];
      LuhnSumUpdate(rest, k, d);
      assert |rest| - 1 - k == pos - 2;
      assert Weight(ds[k], pos - 2) == Weight(ds[k], pos) && Weight(d, pos - 2) == Weight(d, pos);
      assert LuhnSum(e) == LuhnSum(rest[k := d]) + DoubleDigit(ds[n - 2]) + ds[n - 1];
    }
  }

  /** Two different digits never weigh the same at one position. */
  lemma WeightInjective(x: int, y: int, pos: nat)
    requires 0 <= x <= 9 && 0 <= y <= 9 && x != y
    ensures Weight(x, pos) != Weight(y, pos)
  {
    if pos % 2 == 1 {
      if x <= 4 && y >= 5 {
        assert DoubleDigit(x) % 2 == 0 && DoubleDigit(y) % 2 == 1;
      } else if x >= 5 && y <= 4 {
        assert DoubleDigit(x) % 2 == 1 && DoubleDigit(y) % 2 == 0;
      }
    }
  }

  /** Single-error detection: replacing any one digit of a number that passes
      by a different digit makes it fail. */
  lemma SingleDigitErrorDetected(ds: seq<int>, k: nat, d: int)
    requires IsDigits(ds) && k < |ds| && 0 <= d <= 9 && d != ds[k]
    requires LuhnValid(ds)
    ensures !LuhnValid(ds[k := d])
  {
    var pos := |ds| - 1 - k;
    LuhnSumUpdate(ds, k, d);
    WeightInjective(ds[k], d, pos);
    NonzeroShiftBreaksMultiple(LuhnSum(ds), Weight(ds[k], pos), Weight(d, pos));
  }

  /** Taking one digit off a multiple of 10 and adding a different digit
      leaves a number that is not a multiple of 10. */
  lemma NonzeroShiftBreaksMultiple(total: int, was: int, now: int)
    requires total % 10 == 0 && 0 <= was <= 9 && 0 <= now <= 9 && was != now
    ensures (total - was + now) % 10 != 0
  {
    var m := total / 10;
    assert total == 10 * m;
    if now > was {
      assert 10 * m < total - was + now < 10 * m + 10;
    } else {
      assert 10 * (m - 1) < total - was + now < 10 * m;
    }
  }

  /** The test number 4532015112830366 passes; 4532015112830367, one digit
      off, fails. */
  lemma TestNumbers()
    ensures LuhnValid([4, 5, 3, 2, 0, 1, 5, 1, 1, 2, 8, 3, 0, 3, 6, 6])
    ensures !LuhnValid([4, 5, 3, 2, 0, 1, 5, 1, 1, 2, 8, 3, 0, 3, 6, 7])
  {
    var ds := [4, 5, 3, 2, 0, 1, 5, 1, 1, 2, 8, 3, 0, 3, 6, 6];
    assert LuhnSum(ds[..2]) == 13;
    assert ds[..4][..2] == ds[..2];
    assert LuhnSum(ds[..4]) == 21;
    assert ds[..6][..4] == ds[..4];
    assert LuhnSum(ds[..6]) == 22;
    assert ds[..8][..6] == ds[..6];
    assert LuhnSum(ds[..8]) == 24;
    assert ds[..10][..8] == ds[..8];
    assert LuhnSum(ds[..10]) == 28;
    assert ds[..12][..10] == ds[..10];
    assert LuhnSum(ds[..12]) == 38;
    assert ds[..14][..12] == ds[..12];
    assert LuhnSum(ds[..14]) == 41;
    assert ds[..14] == ds[..16 - 2];
    assert LuhnSum(ds) == 50;
    assert ds[15 := 7] == [4, 5, 3, 2, 0, 1, 5, 1, 1, 2, 8, 3, 0, 3, 6, 7];
    SingleDigitErrorDetected(ds, 15, 7);
  }
}
