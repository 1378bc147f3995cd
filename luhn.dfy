/**
 * The checksum: the Luhn (modulus 10) check of ISO/IEC 7812-1, computed as
 * the validator does it, by reversing the string, reading each character
 * as a digit, and folding the enumerated digits into an odd-offset sum and
 * an even-offset sum.
 */
module Luhn {

  import opened Normalizer

  /** The accumulator of the fold: the two partial sums. */
  datatype Calculation = Calculation(odd: int, even: int) {

    /** The verdict: the total is a multiple of ten. */
    predicate Result() {
      (odd + even) % 10 == 0
    }
  }

  /** `reversed()`: the same elements, last first. */
  function Reversed<T>(s: seq<T>): (r: seq<T>)
    ensures |r| == |s|
    ensures forall i :: 0 <= i < |s| ==> r[i] == s[|s| - 1 - i]
  {
    if s == [] then [] else [s[|s| - 1]] + Reversed(s[..|s| - 1])
  }

  /**
   * `compactMap { Int(String($0)) }`: each ASCII digit becomes its value,
   * any other character is dropped.
   */
  function DigitValues(s: string): (ds: seq<int>)
    ensures forall i :: 0 <= i < |ds| ==> 0 <= ds[i] <= 9
    ensures |ds| <= |s|
  {
    if s == [] then []
    else
      var init, last := s[..|s| - 1], s[|s| - 1];
      DigitValues(init) + (if IsDigit(last) then [DigitValue(last)] else [])
  }

  /** The reduce closure: `odd` adds the transformed digit at an odd offset, `even` the plain digit at an even one. */
  function Step(value: Calculation, offset: nat, element: int): Calculation {
    Calculation(
      if offset % 2 != 0 then value.odd + (element / 5 + (2 * element) % 10) else value.odd,
      if offset % 2 == 0 then value.even + element else value.even)
  }

  /** `enumerated().reduce`: a left fold, the first element at `offset`. */
  function Reduce(xs: seq<int>, offset: nat, acc: Calculation): Calculation
    decreases |xs|
  {
    if xs == [] then acc else Reduce(xs[1..], offset + 1, Step(acc, offset, xs[0]))
  }

  /** The private `isValid(for: String)`: the Luhn verdict on a string. */
  predicate PassesChecksum(s: string) {
    Reduce(DigitValues(Reversed(s)), 0, Calculation(0, 0)).Result()
  }

  /**
   * The textbook Luhn weight of one digit: kept as is, or doubled with nine
   * taken off when the double exceeds nine.
   */
  function Contribution(d: int, doubled: bool): int {
    if !doubled then d else if 2 * d > 9 then 2 * d - 9 else 2 * d
  }

  /**
   * The textbook Luhn sum, from the rightmost digit leftwards, doubling
   * every second digit; `doubled` says whether the rightmost one is doubled.
   */
  function LuhnSum(ds: seq<int>, doubled: bool): int {
    if ds == [] then 0
    else Contribution(ds[|ds| - 1], doubled) + LuhnSum(ds[..|ds| - 1], !doubled)
  }

  /** The reference verdict: the Luhn sum is a multiple of ten. */
  predicate LuhnValid(ds: seq<int>) {
    LuhnSum(ds, false) % 10 == 0
  }

  /** The shortcut `d / 5 + (2 * d) % 10` is "double, minus nine above nine", a single digit. */
  lemma DoubledDigit(d: int)
    requires 0 <= d <= 9
    ensures d / 5 + (2 * d) % 10 == Contribution(d, true)
    ensures 0 <= Contribution(d, true) <= 9
  {
  }

  lemma {:induction false} DigitValuesAppend(a: string, b: string)
    ensures DigitValues(a + b) == DigitValues(a) + DigitValues(b)
  {
    if b == [] {
      assert a + b == a;
    } else {
      var init, last := b[..|b| - 1], b[|b| - 1];
      assert (a + b)[..|a + b| - 1] == a + init;
      assert (a + b)[|a + b| - 1] == last;
      DigitValuesAppend(a, init);
    }
  }

  /** On a digit string, `DigitValues` reads every character. */
  lemma {:induction false} DigitValuesOfDigits(s: string)
    requires AllDigits(s)
    ensures |DigitValues(s)| == |s|
    ensures forall i :: 0 <= i < |s| ==> DigitValues(s)[i] == DigitValue(s[i])
  {
    if s != [] {
      DigitValuesOfDigits(s[..|s| - 1]);
    }
  }

  /** Reading digits after reversing is reversing after reading digits. */
  lemma {:induction false} DigitValuesReversed(s: string)
    ensures DigitValues(Reversed(s)) == Reversed(DigitValues(s))
  {
    if s != [] {
      var init, last := s[..|s| - 1], s[|s| - 1];
      DigitValuesReversed(init);
      DigitValuesAppend([last], Reversed(init));
      assert [last][..0] == [];
      var tail := if IsDigit(last) then [DigitValue(last)] else [];
      var ds := DigitValues(init) + tail;
      if IsDigit(last) {
        assert ds[..|ds| - 1] == DigitValues(init);
      } else {
        assert ds == DigitValues(init);
      }
    }
  }

  /**
   * Folding the reversed digits from `offset` adds exactly their Luhn sum
   * to the accumulator, the rightmost digit doubled when `offset` is odd.
   */
  lemma {:induction false} ReduceIsLuhnSum(ds: seq<int>, offset: nat, acc: Calculation)
    requires forall i :: 0 <= i < |ds| ==> 0 <= ds[i] <= 9
    ensures var r := Reduce(Reversed(ds), offset, acc);
      r.odd + r.even == acc.odd + acc.even + LuhnSum(ds, offset % 2 == 1)
  {
    if ds != [] {
      var init, last := ds[..|ds| - 1], ds[|ds| - 1];
      var rs := Reversed(ds);
      assert rs[0] == last && rs[1..] == Reversed(init);
      DoubledDigit(last);
      ReduceIsLuhnSum(init, offset + 1, Step(acc, offset, last));
    }
  }

  /** The validator's fold decides exactly the textbook Luhn check. */
  lemma ChecksumIsLuhn(s: string)
    ensures PassesChecksum(s) <==> LuhnValid(DigitValues(s))
  {
    DigitValuesReversed(s);
    ReduceIsLuhnSum(DigitValues(s), 0, Calculation(0, 0));
  }

  /**
   * The Luhn sum of a concatenation: the right part keeps its weights, the
   * left part's weights shift by the right part's length.
   */
  lemma {:induction false} LuhnSumAppend(a: seq<int>, b: seq<int>, doubled: bool)
    ensures LuhnSum(a + b, doubled) == LuhnSum(a, doubled != (|b| % 2 == 1)) + LuhnSum(b, doubled)
  {
    if b == [] {
      assert a + b == a;
    } else {
      var init, last := b[..|b| - 1], b[|b| - 1];
      assert (a + b)[..|a + b| - 1] == a + init;
      assert (a + b)[|a + b| - 1] == last;
      LuhnSumAppend(a, init, !doubled);
    }
  }

  /** The empty string passes: both sums start at zero. */
  lemma EmptyPasses()
    ensures PassesChecksum("")
  {
  }

  /** The check digit that completes `payload` to a Luhn-valid sequence. */
  function CheckDigit(payload: seq<int>): (d: int)
    ensures 0 <= d <= 9
  {
    (10 - LuhnSum(payload, true) % 10) % 10
  }

  /** Exactly one final digit makes a payload Luhn-valid: its check digit. */
  lemma CheckDigitUnique(payload: seq<int>, d: int)
    requires 0 <= d <= 9
    ensures LuhnValid(payload + [d]) <==> d == CheckDigit(payload)
  {
    var ds := payload + [d];
    assert ds[..|ds| - 1] == payload;
    var sum := LuhnSum(payload, true);
    assert LuhnSum(ds, false) == d + sum;
  }

  /**
   * The last character of a number that passes decides the verdict: any
   * other digit in its place fails.
   */
  lemma LastDigitDetects(s: string, c: char, c': char)
    requires IsDigit(c) && IsDigit(c') && c != c'
    requires PassesChecksum(s + [c])
    ensures !PassesChecksum(s + [c'])
  {
    ChecksumIsLuhn(s + [c]);
    ChecksumIsLuhn(s + [c']);
    assert (s + [c])[..|s|] == s;
    assert (s + [c'])[..|s|] == s;
    CheckDigitUnique(DigitValues(s), DigitValue(c));
    CheckDigitUnique(DigitValues(s), DigitValue(c'));
  }
}
