/**
 * The normaliser: `String.numbers`, which keeps only the decimal-digit
 * characters of a string, in their original order. Digits are the ASCII
 * characters '0' through '9'.
 */
module Normalizer {

  /** An ASCII decimal digit. */
  predicate IsDigit(c: char) {
    '0' <= c <= '9'
  }

  /** A string made of digits only: a canonical card number. */
  predicate AllDigits(s: string) {
    forall i :: 0 <= i < |s| ==> IsDigit(s[i])
  }

  /** The numeric value of a digit character. */
  function DigitValue(c: char): (d: int)
    requires IsDigit(c)
    ensures 0 <= d <= 9
  {
    c as int - '0' as int
  }

  /**
   * `numbers`: splitting at every non-digit and joining the pieces with the
   * empty separator drops the non-digits and keeps the digits in order.
   */
  function Numbers(s: string): (r: string)
    ensures AllDigits(r)
    ensures |r| <= |s|
  {
    if s == [] then []
    else
      var init, last := s[..|s| - 1], s[|s| - 1];
      if IsDigit(last) then Numbers(init) + [last] else Numbers(init)
  }

  /** The positions of the digit characters of `s`, in increasing order. */
  function DigitPositions(s: string): (p: seq<nat>)
    ensures forall k :: 0 <= k < |p| ==> p[k] < |s|
  {
    if s == [] then []
    else
      var init := s[..|s| - 1];
      if IsDigit(s[|s| - 1]) then DigitPositions(init) + [|s| - 1] else DigitPositions(init)
  }

  /**
   * `Numbers(s)` is the subsequence of `s` at exactly the digit positions:
   * it picks characters of `s` at strictly increasing positions, and a
   * position is picked if and only if it holds a digit.
   */
  lemma {:induction false} NumbersIsDigitSubsequence(s: string)
    ensures var r, p := Numbers(s), DigitPositions(s);
      && |r| == |p|
      && (forall k :: 0 <= k < |r| ==> r[k] == s[p[k]])
      && (forall j, k :: 0 <= j < k < |p| ==> p[j] < p[k])
      && (forall i :: 0 <= i < |s| ==> (IsDigit(s[i]) <==> i in p))
  {
    if s != [] {
      var init := s[..|s| - 1];
      NumbersIsDigitSubsequence(init);
      var r, p := Numbers(s), DigitPositions(s);
      var r', p' := Numbers(init), DigitPositions(init);
      forall i | 0 <= i < |init|
        ensures IsDigit(s[i]) <==> i in p
      {
        assert s[i] == init[i];
        assert i in p <==> i in p';
      }
    }
  }

  /** Splitting and joining distributes over concatenation. */
  lemma {:induction false} NumbersAppend(a: string, b: string)
    ensures Numbers(a + b) == Numbers(a) + Numbers(b)
  {
    if b == [] {
      assert a + b == a;
    } else {
      var init, last := b[..|b| - 1], b[|b| - 1];
      assert (a + b)[..|a + b| - 1] == a + init;
      assert (a + b)[|a + b| - 1] == last;
      NumbersAppend(a, init);
    }
  }

  /**
   * A string is left unchanged by `Numbers` exactly when it is already made
   * of digits; in particular `Numbers` is idempotent.
   */
  lemma {:induction false} NumbersFixedPoint(s: string)
    ensures Numbers(s) == s <==> AllDigits(s)
    ensures Numbers(Numbers(s)) == Numbers(s)
  {
    if AllDigits(s) {
      DigitsUnchanged(s);
    }
    DigitsUnchanged(Numbers(s));
  }

  lemma {:induction false} DigitsUnchanged(s: string)
    requires AllDigits(s)
    ensures Numbers(s) == s
  {
    if s != [] {
      var init := s[..|s| - 1];
      DigitsUnchanged(init);
    }
  }

  /** A formatting character (space, dash, ...) anywhere in the input is dropped. */
  lemma NumbersDropsSeparator(a: string, x: char, b: string)
    requires !IsDigit(x)
    ensures Numbers(a + [x] + b) == Numbers(a + b)
  {
    NumbersAppend(a + [x], b);
    NumbersAppend(a, [x]);
    NumbersAppend(a, b);
    assert Numbers([x]) == [] by {
      assert [x][..0] == [];
    }
  }
}
