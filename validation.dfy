/**
 * The public facade, `CreditCardValidator`: a value holding the normalised
 * number, with `type`, `isValid` and `isValid(for:)`.
 */
module Validation {

  import opened Wrappers
  import opened Normalizer
  import opened CardTypes
  import opened Luhn

  /** A canonical card number: digits only. */
  type DigitString = s: string | AllDigits(s) witness ""

  /** The validator value; `number` is the stored, already normalised string. */
  datatype CreditCardValidator = CreditCardValidator(number: DigitString) {

    /**
     * `type`: normalises the stored string once more and returns the first
     * network of the list whose pattern matches; since the stored string is
     * already digits only, that is the one network whose pattern matches.
     */
    function Type(): (r: Option<CardType>)
      ensures forall t :: r == Some(t) <==> Matches(t, number)
      ensures r == None <==> forall t :: !Matches(t, number)
    {
      NumbersFixedPoint(number);
      ClassifyIsMatch(number);
      Classify(Numbers(number))
    }

    /**
     * `isValid`: the number has a network, its digit count is one that
     * network allows, and it passes the Luhn check.
     */
    function IsValid(): (r: bool)
      ensures r <==> exists t :: Matches(t, number) && |number| in ValidNumberLength(t) && LuhnValid(DigitValues(number))
      ensures r ==> 14 <= |number| <= 19
    {
      ChecksumIsLuhn(number);
      match Type()
      case None => false
      case Some(t) => |number| in ValidNumberLength(t) && PassesChecksum(number)
    }

    /** `isValid(for:)`: valid, and of the given network. */
    function IsValidFor(t: CardType): (r: bool)
      ensures r <==> Matches(t, number) && |number| in ValidNumberLength(t) && LuhnValid(DigitValues(number))
      ensures r ==> IsValid()
    {
      IsValid() && Type() == Some(t)
    }
  }

  /** `init`: stores the digits of the raw input, in order, and nothing else. */
  function New(raw: string): (v: CreditCardValidator)
    ensures |v.number| == |DigitPositions(raw)|
    ensures forall k :: 0 <= k < |v.number| ==> v.number[k] == raw[DigitPositions(raw)[k]]
  {
    NumbersIsDigitSubsequence(raw);
    CreditCardValidator(Numbers(raw))
  }

  /** Spaces, dashes and any other non-digit in the raw input change nothing. */
  lemma FormattingIgnored(a: string, x: char, b: string)
    requires !IsDigit(x)
    ensures New(a + [x] + b) == New(a + b)
  {
    NumbersDropsSeparator(a, x, b);
  }

  /** A number is valid for at most one network. */
  lemma ValidForOneNetwork(v: CreditCardValidator, t: CardType, u: CardType)
    requires v.IsValidFor(t) && v.IsValidFor(u)
    ensures t == u
  {
  }

  /**
   * Changing only the last digit of a valid number makes it invalid, and
   * keeps its network: a valid number has at least 14 digits, and every
   * network is decided by the first four.
   */
  lemma LastDigitMutated(p: DigitString, c: char, c': char)
    requires IsDigit(c) && IsDigit(c') && c != c'
    requires AllDigits(p + [c]) && CreditCardValidator(p + [c]).IsValid()
    ensures AllDigits(p + [c'])
    ensures !CreditCardValidator(p + [c']).IsValid()
    ensures Classify(p).Some?
    ensures CreditCardValidator(p + [c']).Type() == CreditCardValidator(p + [c]).Type()
  {
    AppendDigit(p, c');
    var v, w := CreditCardValidator(p + [c]), CreditCardValidator(p + [c']);
    LastDigitDetects(p, c, c');
    assert !w.IsValid() by {
      assert !PassesChecksum(w.number);
    }
    var t :| Matches(t, v.number);
    assert Lead4(v.number) == Lead4(p);
    PrefixIsRange(t, v.number);
    PrefixIsRange(t, p);
    ClassifyMatches(p, t);
    ClassifyExtend(p, [c], t);
    ClassifyExtend(p, [c'], t);
    assert v.Type() == Some(t) by {
      ClassifyMatches(v.number, t);
    }
    assert w.Type() == Some(t) by {
      ClassifyMatches(w.number, t);
    }
  }

  lemma AppendDigit(p: DigitString, c: char)
    requires IsDigit(c)
    ensures AllDigits(p + [c])
  {
    assert forall i :: 0 <= i < |p| ==> (p + [c])[i] == p[i];
  }
}
