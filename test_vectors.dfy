/**
 * The card numbers of the validator's test suite, as concrete facts about
 * the model. A number is written in its groups of at most four digits and
 * the separators between them.
 */
module TestVectors {

  import opened Wrappers
  import opened Normalizer
  import opened CardTypes
  import opened Luhn
  import opened Validation

  /** The Luhn sum of a group of at most four digit characters, unrolled. */
  function GroupSum(g: string, doubled: bool): int
    requires AllDigits(g) && |g| <= 4
  {
    var n := |g|;
    (if n >= 1 then Contribution(DigitValue(g[n - 1]), doubled) else 0)
    + (if n >= 2 then Contribution(DigitValue(g[n - 2]), !doubled) else 0)
    + (if n >= 3 then Contribution(DigitValue(g[n - 3]), doubled) else 0)
    + (if n >= 4 then Contribution(DigitValue(g[n - 4]), !doubled) else 0)
  }

  /** `LuhnSum` of at most four values, unrolled. */
  lemma ShortLuhnSum(d: seq<int>, doubled: bool)
    requires |d| <= 4
    ensures var n := |d|;
      LuhnSum(d, doubled)
        == (if n >= 1 then Contribution(d[n - 1], doubled) else 0)
         + (if n >= 2 then Contribution(d[n - 2], !doubled) else 0)
         + (if n >= 3 then Contribution(d[n - 3], doubled) else 0)
         + (if n >= 4 then Contribution(d[n - 4], !doubled) else 0)
  {
    var n := |d|;
    if n >= 1 {
      var d1 := d[..n - 1];
      assert LuhnSum(d, doubled) == Contribution(d[n - 1], doubled) + LuhnSum(d1, !doubled);
      if n >= 2 {
        var d2 := d[..n - 2];
        assert d1[..n - 2] == d2 && d1[n - 2] == d[n - 2];
        assert LuhnSum(d1, !doubled) == Contribution(d[n - 2], !doubled) + LuhnSum(d2, doubled);
        if n >= 3 {
          var d3 := d[..n - 3];
          assert d2[..n - 3] == d3 && d2[n - 3] == d[n - 3];
          assert LuhnSum(d2, doubled) == Contribution(d[n - 3], doubled) + LuhnSum(d3, !doubled);
          if n >= 4 {
            assert d3[..0] == [] && d3[0] == d[0];
            assert LuhnSum(d3, !doubled) == Contribution(d[0], !doubled);
          } else {
            assert d3 == [];
          }
        } else {
          assert d2 == [];
        }
      } else {
        assert d1 == [];
      }
    }
  }

  lemma GroupSumIsLuhnSum(g: string, doubled: bool)
    requires AllDigits(g) && |g| <= 4
    ensures GroupSum(g, doubled) == LuhnSum(DigitValues(g), doubled)
  {
    DigitValuesOfDigits(g);
    ShortLuhnSum(DigitValues(g), doubled);
  }

  predicate Odd(n: int) {
    n % 2 == 1
  }

  predicate NoDigits(x: string) {
    forall i :: 0 <= i < |x| ==> !IsDigit(x[i])
  }

  lemma {:induction false} NumbersOfSeparator(x: string)
    requires NoDigits(x)
    ensures Numbers(x) == []
  {
    if x != [] {
      NumbersOfSeparator(x[..|x| - 1]);
    }
  }

  /** Normalising keeps a group of digits and drops a separator. */
  lemma {:induction false} AppendGroup(a: string, g: string, x: string)
    requires AllDigits(g) && NoDigits(x)
    ensures Numbers(a + g + x) == Numbers(a) + g
  {
    NumbersAppend(a + g, x);
    NumbersAppend(a, g);
    NumbersOfSeparator(x);
    DigitsUnchanged(g);
  }

  /** A number written as four groups of digits and three separators normalises to the groups' digits. */
  lemma {:induction false} StoredDigits(g1: string, x1: string, g2: string, x2: string, g3: string, x3: string, g4: string)
    requires AllDigits(g1) && AllDigits(g2) && AllDigits(g3) && AllDigits(g4)
    requires NoDigits(x1) && NoDigits(x2) && NoDigits(x3)
    ensures Numbers(g1 + x1 + g2 + x2 + g3 + x3 + g4) == g1 + g2 + g3 + g4
  {
    AppendGroup([], g1, x1);
    assert [] + g1 + x1 == g1 + x1;
    AppendGroup(g1 + x1, g2, x2);
    AppendGroup(g1 + x1 + g2 + x2, g3, x3);
    AppendGroup(g1 + x1 + g2 + x2 + g3 + x3, g4, []);
    assert g1 + x1 + g2 + x2 + g3 + x3 + g4 + [] == g1 + x1 + g2 + x2 + g3 + x3 + g4;
    assert Numbers([]) == [];
  }

  lemma {:induction false} LuhnSumOfGroups(d1: seq<int>, d2: seq<int>, d3: seq<int>, d4: seq<int>)
    ensures var f3 := Odd(|d4|); var f2 := f3 != Odd(|d3|); var f1 := f2 != Odd(|d2|);
      LuhnSum(d1 + d2 + d3 + d4, false)
        == LuhnSum(d1, f1) + LuhnSum(d2, f2) + LuhnSum(d3, f3) + LuhnSum(d4, false)
  {
    var f3 := Odd(|d4|);
    var f2 := f3 != Odd(|d3|);
    LuhnSumAppend(d1 + d2 + d3, d4, false);
    LuhnSumAppend(d1 + d2, d3, f3);
    LuhnSumAppend(d1, d2, f2);
  }

  lemma {:induction false} DigitValuesOfGroups(g1: string, g2: string, g3: string, g4: string)
    ensures DigitValues(g1 + g2 + g3 + g4) == DigitValues(g1) + DigitValues(g2) + DigitValues(g3) + DigitValues(g4)
  {
    DigitValuesAppend(g1, g2);
    DigitValuesAppend(g1 + g2, g3);
    DigitValuesAppend(g1 + g2 + g3, g4);
  }

  /** The Luhn sum of four digit groups, each group weighted by the digits to its right. */
  function GroupsSum(g1: string, g2: string, g3: string, g4: string): int
    requires AllDigits(g1) && AllDigits(g2) && AllDigits(g3) && AllDigits(g4)
    requires |g1| <= 4 && |g2| <= 4 && |g3| <= 4 && |g4| <= 4
  {
    var f3 := Odd(|g4|);
    var f2 := f3 != Odd(|g3|);
    var f1 := f2 != Odd(|g2|);
    GroupSum(g1, f1) + GroupSum(g2, f2) + GroupSum(g3, f3) + GroupSum(g4, false)
  }

  /** The checksum verdict on four digit groups, group by group. */
  lemma {:induction false} ChecksumByGroups(g1: string, g2: string, g3: string, g4: string)
    requires AllDigits(g1) && AllDigits(g2) && AllDigits(g3) && AllDigits(g4)
    requires |g1| <= 4 && |g2| <= 4 && |g3| <= 4 && |g4| <= 4
    ensures PassesChecksum(g1 + g2 + g3 + g4) <==> GroupsSum(g1, g2, g3, g4) % 10 == 0
  {
    var f3 := Odd(|g4|);
    var f2 := f3 != Odd(|g3|);
    var f1 := f2 != Odd(|g2|);
    var d1, d2, d3, d4 := DigitValues(g1), DigitValues(g2), DigitValues(g3), DigitValues(g4);
    DigitValuesOfGroups(g1, g2, g3, g4);
    DigitValuesOfDigits(g1);
    DigitValuesOfDigits(g2);
    DigitValuesOfDigits(g3);
    DigitValuesOfDigits(g4);
    LuhnSumOfGroups(d1, d2, d3, d4);
    var total := LuhnSum(d1, f1) + LuhnSum(d2, f2) + LuhnSum(d3, f3) + LuhnSum(d4, false);
    assert LuhnSum(d1 + d2 + d3 + d4, false) == total;
    GroupSumIsLuhnSum(g1, f1);
    GroupSumIsLuhnSum(g2, f2);
    GroupSumIsLuhnSum(g3, f3);
    GroupSumIsLuhnSum(g4, false);
    assert total == GroupSum(g1, f1) + GroupSum(g2, f2) + GroupSum(g3, f3) + GroupSum(g4, false);
    ChecksumIsLuhn(g1 + g2 + g3 + g4);
    assert PassesChecksum(g1 + g2 + g3 + g4) <==> LuhnSum(d1 + d2 + d3 + d4, false) % 10 == 0;
    assert GroupsSum(g1, g2, g3, g4) == total;
  }

  /** The suite's expectation for a valid number of network `t`. */
  predicate Accepted(raw: string, t: CardType) {
    var v := New(raw);
    v.Type() == Some(t) && v.IsValid() && v.IsValidFor(t)
  }

  /** The suite's expectation for an invalid number still of network `t`. */
  predicate Rejected(raw: string, t: CardType) {
    var v := New(raw);
    v.Type() == Some(t) && !v.IsValid() && !v.IsValidFor(t)
  }

  /**
   * What the validator answers for a number written as four digit groups and
   * three separators, once the network of its digits is known.
   */
  lemma {:induction false} Outcome(raw: string, g1: string, x1: string, g2: string, x2: string, g3: string, x3: string, g4: string, t: CardType, valid: bool)
    requires raw == g1 + x1 + g2 + x2 + g3 + x3 + g4
    requires AllDigits(g1) && AllDigits(g2) && AllDigits(g3) && AllDigits(g4)
    requires |g1| <= 4 && |g2| <= 4 && |g3| <= 4 && |g4| <= 4
    requires NoDigits(x1) && NoDigits(x2) && NoDigits(x3)
    requires HasPrefix(t, g1 + g2 + g3 + g4)
    requires valid == (|g1 + g2 + g3 + g4| in ValidNumberLength(t) && GroupsSum(g1, g2, g3, g4) % 10 == 0)
    ensures if valid then Accepted(raw, t) else Rejected(raw, t)
  {
    var n := g1 + g2 + g3 + g4;
    StoredDigits(g1, x1, g2, x2, g3, x3, g4);
    ChecksumByGroups(g1, g2, g3, g4);
    var v := New(raw);
    assert v.number == n;
    assert Matches(t, n);
    assert v.Type() == Some(t);
    assert v.IsValid() == valid;
  }

  lemma AmexValid1()
    ensures Accepted("3782 8224 6310 005", Amex)
  {
    Outcome("3782 8224 6310 005", "3782", " ", "8224", " ", "6310", " ", "005", Amex, true);
  }

  lemma AmexValid2()
    ensures Accepted("3714 4963 5398 431", Amex)
  {
    Outcome("3714 4963 5398 431", "3714", " ", "4963", " ", "5398", " ", "431", Amex, true);
  }

  lemma AmexValid3()
    ensures Accepted("3787 3449 3671 000", Amex)
  {
    Outcome("3787 3449 3671 000", "3787", " ", "3449", " ", "3671", " ", "000", Amex, true);
  }

  lemma AmexInvalid1()
    ensures Rejected("3782 8224 6310 006", Amex)
  {
    Outcome("3782 8224 6310 006", "3782", " ", "8224", " ", "6310", " ", "006", Amex, false);
  }

  lemma AmexInvalid2()
    ensures Rejected("3714 4963 5398 432", Amex)
  {
    Outcome("3714 4963 5398 432", "3714", " ", "4963", " ", "5398", " ", "432", Amex, false);
  }

  lemma AmexInvalid3()
    ensures Rejected("3787 3449 3671 001", Amex)
  {
    Outcome("3787 3449 3671 001", "3787", " ", "3449", " ", "3671", " ", "001", Amex, false);
  }

  lemma AmexInvalid4()
    ensures Rejected("3715 6536 866", Amex)
  {
    Outcome("3715 6536 866", "3715", " ", "6536", " ", "866", "", "", Amex, false);
  }

  lemma VisaValid1()
    ensures Accepted("4111 1111 1111 1111", Visa)
  {
    Outcome("4111 1111 1111 1111", "4111", " ", "1111", " ", "1111", " ", "1111", Visa, true);
  }

  lemma VisaValid2()
    ensures Accepted("4012 8888 8888 1881", Visa)
  {
    Outcome("4012 8888 8888 1881", "4012", " ", "8888", " ", "8888", " ", "1881", Visa, true);
  }

  lemma VisaInvalid1()
    ensures Rejected("4111 1111 1111 1112", Visa)
  {
    Outcome("4111 1111 1111 1112", "4111", " ", "1111", " ", "1111", " ", "1112", Visa, false);
  }

  lemma VisaInvalid2()
    ensures Rejected("4012 8888 8888 1882", Visa)
  {
    Outcome("4012 8888 8888 1882", "4012", " ", "8888", " ", "8888", " ", "1882", Visa, false);
  }

  lemma VisaInvalid3()
    ensures Rejected("4222 2222 2222", Visa)
  {
    Outcome("4222 2222 2222", "4222", " ", "2222", " ", "2222", "", "", Visa, false);
  }

  lemma MasterCardValid1()
    ensures Accepted("5500 0000 0000 0004", MasterCard)
  {
    Outcome("5500 0000 0000 0004", "5500", " ", "0000", " ", "0000", " ", "0004", MasterCard, true);
  }

  lemma MasterCardValid2()
    ensures Accepted("5555 5555 5555 4444", MasterCard)
  {
    Outcome("5555 5555 5555 4444", "5555", " ", "5555", " ", "5555", " ", "4444", MasterCard, true);
  }

  lemma MasterCardValid3()
    ensures Accepted("5105 1051 0510 5100", MasterCard)
  {
    Outcome("5105 1051 0510 5100", "5105", " ", "1051", " ", "0510", " ", "5100", MasterCard, true);
  }

  lemma MasterCardValid4()
    ensures Accepted("2222 4107 4036 0010", MasterCard)
  {
    Outcome("2222 4107 4036 0010", "2222", " ", "4107", " ", "4036", " ", "0010", MasterCard, true);
  }

  lemma MasterCardInvalid1()
    ensures Rejected("5500 0000 0000 0005", MasterCard)
  {
    Outcome("5500 0000 0000 0005", "5500", " ", "0000", " ", "0000", " ", "0005", MasterCard, false);
  }

  lemma MasterCardInvalid2()
    ensures Rejected("5555 5555 5555 4445", MasterCard)
  {
    Outcome("5555 5555 5555 4445", "5555", " ", "5555", " ", "5555", " ", "4445", MasterCard, false);
  }

  lemma MasterCardInvalid3()
    ensures Rejected("5105 1051 0510 5101", MasterCard)
  {
    Outcome("5105 1051 0510 5101", "5105", " ", "1051", " ", "0510", " ", "5101", MasterCard, false);
  }

  lemma MasterCardInvalid4()
    ensures Rejected("2222 4107 4036 0011", MasterCard)
  {
    Outcome("2222 4107 4036 0011", "2222", " ", "4107", " ", "4036", " ", "0011", MasterCard, false);
  }

  lemma DinersClubValid1()
    ensures Accepted("30569309025904", DinersClub)
  {
    Outcome("30569309025904", "3056", "", "9309", "", "0259", "", "04", DinersClub, true);
  }

  lemma DinersClubInvalid1()
    ensures Rejected("30569309025905", DinersClub)
  {
    Outcome("30569309025905", "3056", "", "9309", "", "0259", "", "05", DinersClub, false);
  }

  lemma DinersClubInvalid2()
    ensures Rejected("30569309021", DinersClub)
  {
    Outcome("30569309021", "3056", "", "9309", "", "021", "", "", DinersClub, false);
  }

  lemma JCBValid1()
    ensures Accepted("3569 9900 1009 5841", JCB)
  {
    Outcome("3569 9900 1009 5841", "3569", " ", "9900", " ", "1009", " ", "5841", JCB, true);
  }

  lemma JCBInvalid1()
    ensures Rejected("3569 9900 1009 5842", JCB)
  {
    Outcome("3569 9900 1009 5842", "3569", " ", "9900", " ", "1009", " ", "5842", JCB, false);
  }

  lemma JCBInvalid2()
    ensures Rejected("3569 9900 1009 3", JCB)
  {
    Outcome("3569 9900 1009 3", "3569", " ", "9900", " ", "1009", " ", "3", JCB, false);
  }

  lemma DiscoverValid1()
    ensures Accepted("6011 0000 0000 0004", Discover)
  {
    Outcome("6011 0000 0000 0004", "6011", " ", "0000", " ", "0000", " ", "0004", Discover, true);
  }

  lemma DiscoverInvalid1()
    ensures Rejected("6011 0000 0000 0005", Discover)
  {
    Outcome("6011 0000 0000 0005", "6011", " ", "0000", " ", "0000", " ", "0005", Discover, false);
  }

  lemma DiscoverInvalid2()
    ensures Rejected("6011 0000 001", Discover)
  {
    Outcome("6011 0000 001", "6011", " ", "0000", " ", "001", "", "", Discover, false);
  }

  lemma UnionPayValid1()
    ensures Accepted("6250 9470 0000 0014", UnionPay)
  {
    Outcome("6250 9470 0000 0014", "6250", " ", "9470", " ", "0000", " ", "0014", UnionPay, true);
  }

  lemma UnionPayInvalid1()
    ensures Rejected("6250 9470 0000 0015", UnionPay)
  {
    Outcome("6250 9470 0000 0015", "6250", " ", "9470", " ", "0000", " ", "0015", UnionPay, false);
  }
}
