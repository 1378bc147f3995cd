/**
 * `CreditCardType`: the seven card networks, the anchored pattern each one
 * is recognised by, the digit counts each one allows, and the classifier
 * that picks the first network in a fixed order whose pattern matches.
 *
 * Each pattern is a fixed prefix followed by `[0-9]*`, anchored at both
 * ends; it is written here as an explicit predicate on the leading
 * characters, one disjunct per alternative of the pattern.
 */
module CardTypes {

  import opened Wrappers
  import opened Normalizer

  datatype CardType = Amex | Visa | MasterCard | DinersClub | JCB | Discover | UnionPay

  /** The order in which the validator tries the networks. */
  const Types: seq<CardType> := [Amex, Visa, MasterCard, DinersClub, JCB, Discover, UnionPay]

  /** `s` begins with the characters `p`. */
  predicate StartsWith(s: string, p: string) {
    |p| <= |s| && s[..|p|] == p
  }

  /** The character at position `i` exists and lies in the class `[lo-hi]`. */
  predicate CharIn(s: string, i: nat, lo: char, hi: char) {
    i < |s| && lo <= s[i] <= hi
  }

  /** The character at position `i` exists and is one of `chars`. */
  predicate CharOneOf(s: string, i: nat, chars: string) {
    i < |s| && s[i] in chars
  }

  /** `3[47]` */
  predicate AmexPrefix(s: string) {
    StartsWith(s, "3") && CharOneOf(s, 1, "47")
  }

  /** `4` */
  predicate VisaPrefix(s: string) {
    StartsWith(s, "4")
  }

  /** `5[1-5]|222[1-9]|22[3-9]|2[3-6]|27[01][0-9]|2720` */
  predicate MasterCardPrefix(s: string) {
    || (StartsWith(s, "5") && CharIn(s, 1, '1', '5'))
    || (StartsWith(s, "222") && CharIn(s, 3, '1', '9'))
    || (StartsWith(s, "22") && CharIn(s, 2, '3', '9'))
    || (StartsWith(s, "2") && CharIn(s, 1, '3', '6'))
    || (StartsWith(s, "27") && CharOneOf(s, 2, "01") && CharIn(s, 3, '0', '9'))
    || StartsWith(s, "2720")
  }

  /** `3(?:[0689]|[68])` */
  predicate DinersClubPrefix(s: string) {
    StartsWith(s, "3") && (CharOneOf(s, 1, "0689") || CharOneOf(s, 1, "68"))
  }

  /** `35(?:2[8-9]|[3-8])` */
  predicate JCBPrefix(s: string) {
    || (StartsWith(s, "352") && CharIn(s, 3, '8', '9'))
    || (StartsWith(s, "35") && CharIn(s, 2, '3', '8'))
  }

  /** `6(?:011|4[4-9]|5)` */
  predicate DiscoverPrefix(s: string) {
    || StartsWith(s, "6011")
    || (StartsWith(s, "64") && CharIn(s, 2, '4', '9'))
    || StartsWith(s, "65")
  }

  /** `62` */
  predicate UnionPayPrefix(s: string) {
    StartsWith(s, "62")
  }

  /** The network's prefix rule, without the `[0-9]*` tail. */
  predicate HasPrefix(t: CardType, s: string) {
    match t
    case Amex => AmexPrefix(s)
    case Visa => VisaPrefix(s)
    case MasterCard => MasterCardPrefix(s)
    case DinersClub => DinersClubPrefix(s)
    case JCB => JCBPrefix(s)
    case Discover => DiscoverPrefix(s)
    case UnionPay => UnionPayPrefix(s)
  }

  /**
   * The whole string matches the network's anchored pattern: its prefix
   * rule holds and every character, prefix included, is a digit.
   */
  predicate Matches(t: CardType, s: string): (r: bool)
    ensures r ==> s != []
  {
    AllDigits(s) && HasPrefix(t, s)
  }

  /**
   * `validNumberLength`: the digit counts the network allows; every
   * network allows at least one count, and all counts lie in 14..19.
   */
  function ValidNumberLength(t: CardType): (r: set<int>)
    ensures r != {}
    ensures forall n :: n in r ==> 14 <= n <= 19
  {
    match t
    case Amex => {15}
    case DinersClub => {14}
    case Visa | JCB | Discover | UnionPay => {16, 17, 18, 19}
    case _ => {16}
  }

  /**
   * `first { }` over a list of networks: the earliest network in `ts`
   * whose pattern matches `s`, or none when no network of `ts` matches.
   */
  function FirstMatch(ts: seq<CardType>, s: string): (r: Option<CardType>)
    ensures r.Some? ==> Matches(r.value, s)
    ensures r.Some? ==> exists k :: 0 <= k < |ts| && ts[k] == r.value && forall j :: 0 <= j < k ==> !Matches(ts[j], s)
    ensures r.None? <==> forall k :: 0 <= k < |ts| ==> !Matches(ts[k], s)
  {
    if ts == [] then None
    else if Matches(ts[0], s) then Some(ts[0])
    else
      var r := FirstMatch(ts[1..], s);
      assert forall k :: 1 <= k < |ts| ==> ts[k] == ts[1..][k - 1];
      r
  }

  /** `type` without the normalisation: the first network of `Types` that matches. */
  function Classify(s: string): (r: Option<CardType>)
    ensures r.Some? ==> Matches(r.value, s)
  {
    FirstMatch(Types, s)
  }

  lemma InTypes(t: CardType)
    ensures t in Types
  {
  }

  /** What each prefix rule says about the first two characters. */
  predicate LeadingPair(t: CardType, s: string)
    requires 2 <= |s|
  {
    match t
    case Amex => s[0] == '3' && s[1] in "47"
    case Visa => s[0] == '4'
    case MasterCard => s[0] in "25"
    case DinersClub => s[0] == '3' && s[1] in "0689"
    case JCB => s[0] == '3' && s[1] == '5'
    case Discover => s[0] == '6' && s[1] in "045"
    case UnionPay => s[0] == '6' && s[1] == '2'
  }

  lemma StartsWithAt(s: string, p: string, i: nat)
    requires StartsWith(s, p) && i < |p|
    ensures s[i] == p[i]
  {
    assert s[..|p|][i] == s[i];
  }

  lemma {:induction false} PrefixLeadingPair(t: CardType, s: string)
    requires HasPrefix(t, s)
    ensures 2 <= |s| || t == Visa
    ensures 2 <= |s| ==> LeadingPair(t, s)
    ensures 1 <= |s| && (t == Visa ==> s[0] == '4')
  {
    forall p, i: nat | StartsWith(s, p) && i < |p|
      ensures s[i] == p[i]
    {
      StartsWithAt(s, p, i);
    }
  }

  /**
   * The DinersClub class `(?:[0689]|[68])` is the single class `[0689]`:
   * a 3 followed by 0, 6, 8 or 9.
   */
  lemma DinersClubDigits(s: string)
    ensures DinersClubPrefix(s) <==> 2 <= |s| && s[0] == '3' && s[1] in {'0', '6', '8', '9'}
  {
    if 2 <= |s| && s[0] == '3' {
      assert s[..1] == "3";
    }
    if StartsWith(s, "3") {
      StartsWithAt(s, "3", 0);
    }
  }

  /** The seven prefix rules are pairwise disjoint. */
  lemma {:induction false} PrefixesDisjoint(t: CardType, u: CardType, s: string)
    requires t != u
    ensures !(HasPrefix(t, s) && HasPrefix(u, s))
  {
    if HasPrefix(t, s) && HasPrefix(u, s) {
      PrefixLeadingPair(t, s);
      PrefixLeadingPair(u, s);
    }
  }

  /** Classification does not depend on the order of the list. */
  lemma {:induction false} ClassifyMatches(s: string, t: CardType)
    ensures Classify(s) == Some(t) <==> Matches(t, s)
    ensures Classify(s) == None <==> forall u :: !Matches(u, s)
  {
    InTypes(t);
    if Matches(t, s) {
      var r := Classify(s);
      assert r.Some?;
      if r.value != t {
        PrefixesDisjoint(t, r.value, s);
      }
    }
    if Classify(s) == None {
      forall u ensures !Matches(u, s) {
        InTypes(u);
      }
    }
  }

  /** `Classify` names a network exactly when that network's pattern matches. */
  lemma ClassifyIsMatch(s: string)
    ensures forall t :: Classify(s) == Some(t) <==> Matches(t, s)
    ensures Classify(s).Some? <==> exists t :: Matches(t, s)
  {
    forall t ensures Classify(s) == Some(t) <==> Matches(t, s) {
      ClassifyMatches(s, t);
    }
  }

  /** Any list naming every network, in any order, classifies alike. */
  lemma {:induction false} ListOrderIrrelevant(ts: seq<CardType>, s: string)
    requires forall t :: t in ts
    ensures FirstMatch(ts, s) == Classify(s)
  {
    var r := FirstMatch(ts, s);
    match r
    case Some(t) =>
      ClassifyMatches(s, t);
    case None =>
      ClassifyMatches(s, Amex);
      forall u ensures !Matches(u, s) {
        assert u in ts;
      }
  }

  /** The empty number, and any number with a non-digit, has no network. */
  lemma ClassifyEmpty(s: string)
    requires !AllDigits(s) || s == []
    ensures Classify(s) == None
  {
    ClassifyMatches(s, Amex);
  }

  /** Appending further digits to a classified number keeps its network. */
  lemma {:induction false} ClassifyExtend(s: string, d: string, t: CardType)
    requires Classify(s) == Some(t)
    requires AllDigits(d)
    ensures Classify(s + d) == Some(t)
  {
    ClassifyMatches(s, t);
    ClassifyMatches(s + d, t);
    HasPrefixExtend(t, s, d);
    assert AllDigits(s + d) by {
      forall i | 0 <= i < |s + d|
        ensures IsDigit((s + d)[i])
      {
        if i >= |s| {
          assert (s + d)[i] == d[i - |s|];
        }
      }
    }
  }

  /** A prefix rule that holds of `s` holds of every extension of `s`. */
  lemma HasPrefixExtend(t: CardType, s: string, d: string)
    requires HasPrefix(t, s)
    ensures HasPrefix(t, s + d)
  {
    forall p | StartsWith(s, p)
      ensures StartsWith(s + d, p)
    {
      assert (s + d)[..|p|] == s[..|p|];
    }
    forall i: nat, lo, hi | CharIn(s, i, lo, hi)
      ensures CharIn(s + d, i, lo, hi)
    {
    }
    forall i: nat, cs | CharOneOf(s, i, cs)
      ensures CharOneOf(s + d, i, cs)
    {
    }
  }

  /** The number formed by the first four digits. */
  function Lead4(s: string): (n: int)
    requires 4 <= |s| && AllDigits(s)
    ensures 0 <= n <= 9999
  {
    1000 * DigitValue(s[0]) + 100 * DigitValue(s[1]) + 10 * DigitValue(s[2]) + DigitValue(s[3])
  }

  /**
   * The four-digit ranges each network's pattern denotes, written as
   * numeric intervals on the first four digits: an independent statement
   * of the prefix rules. For DinersClub it is wider than the ranges
   * usually published (300-305, 3095, 36, 38-39), since `3[0689]` admits
   * every number starting with 30.
   */
  predicate InRange(t: CardType, n: int) {
    match t
    case Amex => 3400 <= n <= 3499 || 3700 <= n <= 3799
    case Visa => 4000 <= n <= 4999
    case MasterCard => 5100 <= n <= 5599 || 2221 <= n <= 2720
    case DinersClub => 3000 <= n <= 3099 || 3600 <= n <= 3699 || 3800 <= n <= 3999
    case JCB => 3528 <= n <= 3589
    case Discover => n == 6011 || 6440 <= n <= 6599
    case UnionPay => 6200 <= n <= 6299
  }

  lemma StartsWithLiteral(s: string, p: string)
    requires 4 <= |s| && 1 <= |p| <= 4
    ensures StartsWith(s, p) <==>
      && s[0] == p[0]
      && (2 <= |p| ==> s[1] == p[1])
      && (3 <= |p| ==> s[2] == p[2])
      && (4 <= |p| ==> s[3] == p[3])
  {
    if StartsWith(s, p) {
      assert s[..|p|][0] == s[0];
      if 2 <= |p| { assert s[..|p|][1] == s[1]; }
      if 3 <= |p| { assert s[..|p|][2] == s[2]; }
      if 4 <= |p| { assert s[..|p|][3] == s[3]; }
    }
  }

  /** The first four characters, as digit values. */
  lemma LeadDigits(s: string) returns (d0: int, d1: int, d2: int, d3: int)
    requires 4 <= |s| && AllDigits(s)
    ensures 0 <= d0 <= 9 && 0 <= d1 <= 9 && 0 <= d2 <= 9 && 0 <= d3 <= 9
    ensures Lead4(s) == 1000 * d0 + 100 * d1 + 10 * d2 + d3
    ensures s[0] as int == '0' as int + d0 && s[1] as int == '0' as int + d1
    ensures s[2] as int == '0' as int + d2 && s[3] as int == '0' as int + d3
  {
    assert IsDigit(s[0]) && IsDigit(s[1]) && IsDigit(s[2]) && IsDigit(s[3]);
    d0, d1, d2, d3 := DigitValue(s[0]), DigitValue(s[1]), DigitValue(s[2]), DigitValue(s[3]);
  }

  lemma AmexIsRange(s: string)
    requires 4 <= |s| && AllDigits(s)
    ensures AmexPrefix(s) <==> InRange(Amex, Lead4(s))
  {
    StartsWithLiteral(s, "3");
    var d0, d1, d2, d3 := LeadDigits(s);
  }

  lemma VisaIsRange(s: string)
    requires 4 <= |s| && AllDigits(s)
    ensures VisaPrefix(s) <==> InRange(Visa, Lead4(s))
  {
    StartsWithLiteral(s, "4");
    var d0, d1, d2, d3 := LeadDigits(s);
  }

  lemma MasterCardIsRange(s: string)
    requires 4 <= |s| && AllDigits(s)
    ensures MasterCardPrefix(s) <==> InRange(MasterCard, Lead4(s))
  {
    StartsWithLiteral(s, "5");
    StartsWithLiteral(s, "222");
    StartsWithLiteral(s, "22");
    StartsWithLiteral(s, "2");
    StartsWithLiteral(s, "27");
    StartsWithLiteral(s, "2720");
    var d0, d1, d2, d3 := LeadDigits(s);
  }

  lemma DinersClubIsRange(s: string)
    requires 4 <= |s| && AllDigits(s)
    ensures DinersClubPrefix(s) <==> InRange(DinersClub, Lead4(s))
  {
    StartsWithLiteral(s, "3");
    var d0, d1, d2, d3 := LeadDigits(s);
  }

  lemma JCBIsRange(s: string)
    requires 4 <= |s| && AllDigits(s)
    ensures JCBPrefix(s) <==> InRange(JCB, Lead4(s))
  {
    StartsWithLiteral(s, "352");
    StartsWithLiteral(s, "35");
    var d0, d1, d2, d3 := LeadDigits(s);
  }

  lemma DiscoverIsRange(s: string)
    requires 4 <= |s| && AllDigits(s)
    ensures DiscoverPrefix(s) <==> InRange(Discover, Lead4(s))
  {
    StartsWithLiteral(s, "6011");
    StartsWithLiteral(s, "64");
    StartsWithLiteral(s, "65");
    var d0, d1, d2, d3 := LeadDigits(s);
  }

  lemma UnionPayIsRange(s: string)
    requires 4 <= |s| && AllDigits(s)
    ensures UnionPayPrefix(s) <==> InRange(UnionPay, Lead4(s))
  {
    StartsWithLiteral(s, "62");
    var d0, d1, d2, d3 := LeadDigits(s);
  }

  /** On numbers of four or more digits, each pattern is exactly its range. */
  lemma {:induction false} PrefixIsRange(t: CardType, s: string)
    requires 4 <= |s| && AllDigits(s)
    ensures HasPrefix(t, s) <==> InRange(t, Lead4(s))
  {
    match t
    case Amex => AmexIsRange(s);
    case Visa => VisaIsRange(s);
    case MasterCard => MasterCardIsRange(s);
    case DinersClub => DinersClubIsRange(s);
    case JCB => JCBIsRange(s);
    case Discover => DiscoverIsRange(s);
    case UnionPay => UnionPayIsRange(s);
  }

  /** Classification of a four-or-more digit number follows the range table. */
  lemma {:induction false} ClassifyByRange(s: string, t: CardType)
    requires 4 <= |s| && AllDigits(s)
    ensures Classify(s) == Some(t) <==> InRange(t, Lead4(s))
  {
    ClassifyMatches(s, t);
    PrefixIsRange(t, s);
  }
}
