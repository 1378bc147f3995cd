# CreditCardValidator, modelled in Dafny

A model of the Swift package CreditCardValidator. The package takes a card
number as typed (with spaces, dashes or other formatting) and answers three
questions about it: which payment network issued it (`type`), whether it
is a well-formed number (`isValid`), and whether it is a well-formed number
of a given network (`isValid(for:)`). Everything in it is pure: the
validator value only stores the digits of its input.

The model has one module per part of the source:

- `Normalizer` (normalizer.dfy): `String.numbers`, which keeps the digits
  of a string in order.
- `CardTypes` (card_types.dfy): the seven networks of `CreditCardType`,
  each anchored pattern written out as a predicate on the leading
  characters, the digit counts each network allows (`validNumberLength`),
  and the first-match search over the ordered network list.
- `Luhn` (luhn.dfy): the private checksum `isValid(for: String)` with
  its `Calculation` accumulator and the `odd`/`even` steps, as a fold
  over the reversed digits, next to the textbook Luhn (modulus 10) sum of
  ISO/IEC 7812-1 that it is proved to compute.
- `Validation` (validation.dfy): the `CreditCardValidator` struct as a
  datatype holding the normalised number, with `Type`, `IsValid` and
  `IsValidFor` as member functions and `New` as the initialiser.
- `TestVectors` (test_vectors.dfy): every card number of the package's
  test suite, with the network and verdicts the suite expects.
- `Wrappers` (wrappers.dfy): `Option`, for Swift's optional.

The DinersClub pattern `^3(?:[0689]|[68])[0-9]*$` is read as the code
has it: a 3 followed by 0, 6, 8 or 9, so prefixes 30, 36, 38 and 39. It does
not cover 68 or 69. The Amex test number `"3715 6536 866"` has 11 digits,
so it is rejected by the length check.

Main results: the seven patterns are pairwise disjoint, so the order of the
network list never changes the answer. On numbers of four or more digits,
each pattern equals a numeric range of the first four digits, the range
the pattern denotes. For DinersClub that range, 3000-3099, 3600-3699 and
3800-3999, is wider than the ranges usually published for the network, because
`3[0689]` admits every number starting with 30. A
classified number keeps its network when more digits are appended. The
fold computes exactly the Luhn check. A payload has exactly one check
digit, so changing only the last digit of a valid number makes it invalid.
`isValid` holds exactly when some network matches, the length fits that
network and the Luhn check passes. A number is valid for at most one
network.

## Model

| member | source | states |
|---|---|---|
| Normalizer.Numbers | Sources/CreditCardValidator/CreditCardValidator.swift:114-118 | the result holds only ASCII digits and is no longer than the input |
| Normalizer.NumbersIsDigitSubsequence | Sources/CreditCardValidator/CreditCardValidator.swift:114-118 | `numbers` picks characters of the input at strictly increasing positions, and a position is picked exactly when it holds a digit: the order-preserving subsequence of the digits |
| Normalizer.NumbersAppend | Sources/CreditCardValidator/CreditCardValidator.swift:116-117 | splitting at non-digits and joining with "" distributes over concatenation |
| Normalizer.NumbersFixedPoint | Sources/CreditCardValidator/CreditCardValidator.swift:46-55 | a string is unchanged by `numbers` exactly when it is all digits; `numbers` is idempotent, so the second normalisation in `type` changes nothing |
| Normalizer.DigitsUnchanged | Sources/CreditCardValidator/CreditCardValidator.swift:55 | an all-digit string is a fixed point of `numbers` |
| Normalizer.NumbersDropsSeparator | Sources/CreditCardValidator/CreditCardValidator.swift:114-118 | a non-digit anywhere in the input is dropped |
| CardTypes.AmexPrefix | Sources/CreditCardValidator/CreditCardValidator.swift:4 | a 3 followed by 4 or 7 |
| CardTypes.VisaPrefix | Sources/CreditCardValidator/CreditCardValidator.swift:5 | a leading 4 |
| CardTypes.MasterCardPrefix | Sources/CreditCardValidator/CreditCardValidator.swift:6 | one disjunct per alternative: 5 then 1-5; 222 then 1-9; 22 then 3-9; 2 then 3-6; 27 then 0 or 1 then a digit; 2720 |
| CardTypes.DinersClubPrefix | Sources/CreditCardValidator/CreditCardValidator.swift:7 | a 3 followed by one of 0, 6, 8, 9 (first alternative) or one of 6, 8 (second alternative) |
| CardTypes.JCBPrefix | Sources/CreditCardValidator/CreditCardValidator.swift:8 | 352 then 8 or 9, or 35 then 3-8 |
| CardTypes.DiscoverPrefix | Sources/CreditCardValidator/CreditCardValidator.swift:9 | 6011, or 64 then 4-9, or 65 |
| CardTypes.UnionPayPrefix | Sources/CreditCardValidator/CreditCardValidator.swift:10 | a leading 62 |
| CardTypes.HasPrefix | Sources/CreditCardValidator/CreditCardValidator.swift:4-10 | selects the prefix rule of the given network, the pattern without its `[0-9]*` tail |
| CardTypes.Matches | Sources/CreditCardValidator/CreditCardValidator.swift:4-10 | the anchored pattern matches the whole string: its prefix rule holds and every character is an ASCII digit; so the empty string matches no network |
| CardTypes.ValidNumberLength | Sources/CreditCardValidator/CreditCardValidator.swift:14-25 | Amex {15}, DinersClub {14}, Visa, JCB, Discover and UnionPay {16, 17, 18, 19}, MasterCard {16} through the `default` branch; every set is non-empty and lies within 14..19 |
| CardTypes.InTypes | Sources/CreditCardValidator/CreditCardValidator.swift:31-39 | the list of networks `type` searches names every one of the seven networks |
| CardTypes.Classify | Sources/CreditCardValidator/CreditCardValidator.swift:51-57 | `type` on an already normalised string: the first network of the declared list whose pattern matches; a returned network matches |
| CardTypes.FirstMatch | Sources/CreditCardValidator/CreditCardValidator.swift:52-57 | `first { }`: a returned network matches, every network before it in the list does not, and none is returned exactly when no network of the list matches |
| CardTypes.DinersClubDigits | Sources/CreditCardValidator/CreditCardValidator.swift:7 | the DinersClub alternation of `[0689]` and `[68]` after the 3 is a 3 followed by one of 0, 6, 8, 9 |
| CardTypes.PrefixLeadingPair | Sources/CreditCardValidator/CreditCardValidator.swift:4-10 | a necessary condition each network's pattern puts on the first two digits (for MasterCard only that the first is 2 or 5) |
| CardTypes.PrefixesDisjoint | Sources/CreditCardValidator/CreditCardValidator.swift:4-10 | no string satisfies the prefix rules of two different networks |
| CardTypes.ClassifyMatches | Sources/CreditCardValidator/CreditCardValidator.swift:31-39 | `type` names network t exactly when t's pattern matches the whole string, and is nil exactly when no pattern matches |
| CardTypes.ClassifyIsMatch | Sources/CreditCardValidator/CreditCardValidator.swift:51-57 | the same for every network at once, and that some network is found exactly when some pattern matches |
| CardTypes.ListOrderIrrelevant | Sources/CreditCardValidator/CreditCardValidator.swift:31-39 | any list naming all seven networks, in any order, classifies every string as the declared order does |
| CardTypes.ClassifyEmpty | Sources/CreditCardValidator/CreditCardValidator.swift:51-57 | the empty string, and any string with a non-digit, has no network |
| CardTypes.ClassifyExtend | Sources/CreditCardValidator/CreditCardValidator.swift:4-10 | every pattern ends in `[0-9]*`, so appending digits to a classified number keeps its network |
| CardTypes.HasPrefixExtend | Sources/CreditCardValidator/CreditCardValidator.swift:4-10 | a prefix rule that holds of a string holds of all its extensions |
| CardTypes.AmexIsRange | Sources/CreditCardValidator/CreditCardValidator.swift:4 | on four or more digits, the Amex pattern is the range 3400-3499 or 3700-3799 |
| CardTypes.VisaIsRange | Sources/CreditCardValidator/CreditCardValidator.swift:5 | on four or more digits, the Visa pattern is the range 4000-4999 |
| CardTypes.MasterCardIsRange | Sources/CreditCardValidator/CreditCardValidator.swift:6 | on four or more digits, the MasterCard pattern is 5100-5599 or 2221-2720 |
| CardTypes.DinersClubIsRange | Sources/CreditCardValidator/CreditCardValidator.swift:7 | on four or more digits, the DinersClub pattern is 3000-3099, 3600-3699 or 3800-3999 |
| CardTypes.JCBIsRange | Sources/CreditCardValidator/CreditCardValidator.swift:8 | on four or more digits, the JCB pattern is the range 3528-3589 |
| CardTypes.DiscoverIsRange | Sources/CreditCardValidator/CreditCardValidator.swift:9 | on four or more digits, the Discover pattern is 6011 or 6440-6599 |
| CardTypes.UnionPayIsRange | Sources/CreditCardValidator/CreditCardValidator.swift:10 | on four or more digits, the UnionPay pattern is the range 6200-6299 |
| CardTypes.PrefixIsRange | Sources/CreditCardValidator/CreditCardValidator.swift:4-10 | each of the seven patterns equals the numeric range it denotes on the first four digits |
| CardTypes.ClassifyByRange | Sources/CreditCardValidator/CreditCardValidator.swift:31-57 | on four or more digits, `type` is t exactly when the first four digits lie in t's range |
| Luhn.Calculation.Result | Sources/CreditCardValidator/CreditCardValidator.swift:61-66 | the verdict of the accumulator: `odd + even` is a multiple of 10 |
| Luhn.Reversed | Sources/CreditCardValidator/CreditCardValidator.swift:90 | `reversed()`: same length, element i is the input's element counted i from the end |
| Luhn.Step | Sources/CreditCardValidator/CreditCardValidator.swift:102-108 | the reduce closure: at an odd offset adds `d / 5 + (2 * d) % 10` to `odd` and leaves `even`; at an even offset adds `d` to `even` and leaves `odd` |
| Luhn.Reduce | Sources/CreditCardValidator/CreditCardValidator.swift:92-98 | `enumerated().reduce`: a left fold over the digits, the first one at the given offset and each next one at the next offset |
| Luhn.PassesChecksum | Sources/CreditCardValidator/CreditCardValidator.swift:88-100 | the private `isValid(for: String)`: reverse, read digits, fold from `Calculation(odd: 0, even: 0)` at offset 0, take `result()` |
| Luhn.DigitValues | Sources/CreditCardValidator/CreditCardValidator.swift:91 | `compactMap { Int(String($0)) }` yields single digits 0-9, no more of them than there are characters |
| Luhn.DigitValuesOfDigits | Sources/CreditCardValidator/CreditCardValidator.swift:91 | on a digit string every character is read, as its own value |
| Luhn.DigitValuesAppend | Sources/CreditCardValidator/CreditCardValidator.swift:91 | reading digits distributes over concatenation |
| Luhn.DigitValuesReversed | Sources/CreditCardValidator/CreditCardValidator.swift:89-91 | reading digits after `reversed()` gives the digits in reverse order |
| Luhn.DoubledDigit | Sources/CreditCardValidator/CreditCardValidator.swift:103 | for a digit d, `d / 5 + (2 * d) % 10` is 2d, minus 9 when 2d exceeds 9, and is itself a digit |
| Luhn.ReduceIsLuhnSum | Sources/CreditCardValidator/CreditCardValidator.swift:92-108 | folding reversed digits from an offset adds exactly their Luhn sum to `odd + even`, doubling the rightmost digit when the offset is odd |
| Luhn.ChecksumIsLuhn | Sources/CreditCardValidator/CreditCardValidator.swift:88-100 | the private `isValid(for: String)` holds exactly when the textbook Luhn sum of the digits is a multiple of 10 |
| Luhn.LuhnSumAppend | Sources/CreditCardValidator/CreditCardValidator.swift:92-108 | the Luhn sum of a concatenation: the right part keeps its weights, the left part's shift by the right part's length |
| Luhn.EmptyPasses | Sources/CreditCardValidator/CreditCardValidator.swift:61-66 | the empty string passes the checksum, since both sums start at 0 |
| Luhn.CheckDigit | Sources/CreditCardValidator/CreditCardValidator.swift:88-108 | the check digit that completes a payload is a single digit |
| Luhn.CheckDigitUnique | Sources/CreditCardValidator/CreditCardValidator.swift:88-108 | a payload followed by digit d passes exactly when d is the payload's check digit |
| Luhn.LastDigitDetects | Sources/CreditCardValidator/CreditCardValidator.swift:88-108 | if a string followed by digit c passes, the same string followed by any other digit fails |
| Validation.New | Sources/CreditCardValidator/CreditCardValidator.swift:45-47 | `init` stores exactly the digits of its input, in order |
| Validation.CreditCardValidator.Type | Sources/CreditCardValidator/CreditCardValidator.swift:51-57 | `type` is t exactly when t's pattern matches the stored number, and nil exactly when none does |
| Validation.CreditCardValidator.IsValid | Sources/CreditCardValidator/CreditCardValidator.swift:69-73 | `isValid` holds exactly when some network matches, the digit count is in that network's set (Amex 15, DinersClub 14, Visa/JCB/Discover/UnionPay 16-19, MasterCard 16) and the Luhn sum is a multiple of 10; a valid number has 14 to 19 digits |
| Validation.CreditCardValidator.IsValidFor | Sources/CreditCardValidator/CreditCardValidator.swift:80-82 | `isValid(for: t)` holds exactly when t matches, the length fits t and the Luhn check passes; it implies `isValid` |
| Validation.FormattingIgnored | Sources/CreditCardValidator/CreditCardValidator.swift:45-47 | a space, dash or other non-digit anywhere in the raw input gives the same validator |
| Validation.ValidForOneNetwork | Sources/CreditCardValidator/CreditCardValidator.swift:80-82 | a number is valid for at most one network |
| Validation.LastDigitMutated | Sources/CreditCardValidator/CreditCardValidator.swift:69-108 | changing only the last digit of a valid number makes it invalid and keeps its network; the digits before the last one already have that network |
| TestVectors.Outcome | Sources/CreditCardValidator/CreditCardValidator.swift:41-82 | for a number written as digit groups and separators, `type` is its network and `isValid`, `isValid(for:)` are the length-and-Luhn verdict |
| TestVectors.AmexValid1 | Tests/CreditCardValidatorTests/CreditCardValidatorTests.swift:12 | `"3782 8224 6310 005"` is Amex, valid, and valid for Amex |
| TestVectors.AmexValid2 | Tests/CreditCardValidatorTests/CreditCardValidatorTests.swift:13 | `"3714 4963 5398 431"` is Amex, valid, and valid for Amex |
| TestVectors.AmexValid3 | Tests/CreditCardValidatorTests/CreditCardValidatorTests.swift:14 | `"3787 3449 3671 000"` is Amex, valid, and valid for Amex |
| TestVectors.AmexInvalid1 | Tests/CreditCardValidatorTests/CreditCardValidatorTests.swift:36 | `"3782 8224 6310 006"` is still Amex but invalid, and not valid for Amex |
| TestVectors.AmexInvalid2 | Tests/CreditCardValidatorTests/CreditCardValidatorTests.swift:37 | `"3714 4963 5398 432"` is still Amex but invalid, and not valid for Amex |
| TestVectors.AmexInvalid3 | Tests/CreditCardValidatorTests/CreditCardValidatorTests.swift:38 | `"3787 3449 3671 001"` is still Amex but invalid, and not valid for Amex |
| TestVectors.AmexInvalid4 | Tests/CreditCardValidatorTests/CreditCardValidatorTests.swift:39 | `"3715 6536 866"` is still Amex but invalid, and not valid for Amex |
| TestVectors.VisaValid1 | Tests/CreditCardValidatorTests/CreditCardValidatorTests.swift:15 | `"4111 1111 1111 1111"` is Visa, valid, and valid for Visa |
| TestVectors.VisaValid2 | Tests/CreditCardValidatorTests/CreditCardValidatorTests.swift:16 | `"4012 8888 8888 1881"` is Visa, valid, and valid for Visa |
| TestVectors.VisaInvalid1 | Tests/CreditCardValidatorTests/CreditCardValidatorTests.swift:40 | `"4111 1111 1111 1112"` is still Visa but invalid, and not valid for Visa |
| TestVectors.VisaInvalid2 | Tests/CreditCardValidatorTests/CreditCardValidatorTests.swift:41 | `"4012 8888 8888 1882"` is still Visa but invalid, and not valid for Visa |
| TestVectors.VisaInvalid3 | Tests/CreditCardValidatorTests/CreditCardValidatorTests.swift:42 | `"4222 2222 2222"` is still Visa but invalid, and not valid for Visa |
| TestVectors.MasterCardValid1 | Tests/CreditCardValidatorTests/CreditCardValidatorTests.swift:17 | `"5500 0000 0000 0004"` is MasterCard, valid, and valid for MasterCard |
| TestVectors.MasterCardValid2 | Tests/CreditCardValidatorTests/CreditCardValidatorTests.swift:18 | `"5555 5555 5555 4444"` is MasterCard, valid, and valid for MasterCard |
| TestVectors.MasterCardValid3 | Tests/CreditCardValidatorTests/CreditCardValidatorTests.swift:19 | `"5105 1051 0510 5100"` is MasterCard, valid, and valid for MasterCard |
| TestVectors.MasterCardValid4 | Tests/CreditCardValidatorTests/CreditCardValidatorTests.swift:20 | `"2222 4107 4036 0010"` is MasterCard, valid, and valid for MasterCard |
| TestVectors.MasterCardInvalid1 | Tests/CreditCardValidatorTests/CreditCardValidatorTests.swift:43 | `"5500 0000 0000 0005"` is still MasterCard but invalid, and not valid for MasterCard |
| TestVectors.MasterCardInvalid2 | Tests/CreditCardValidatorTests/CreditCardValidatorTests.swift:44 | `"5555 5555 5555 4445"` is still MasterCard but invalid, and not valid for MasterCard |
| TestVectors.MasterCardInvalid3 | Tests/CreditCardValidatorTests/CreditCardValidatorTests.swift:45 | `"5105 1051 0510 5101"` is still MasterCard but invalid, and not valid for MasterCard |
| TestVectors.MasterCardInvalid4 | Tests/CreditCardValidatorTests/CreditCardValidatorTests.swift:46-47 | `"2222 4107 4036 0011"` is still MasterCard but invalid, and not valid for MasterCard |
| TestVectors.DinersClubValid1 | Tests/CreditCardValidatorTests/CreditCardValidatorTests.swift:21 | `"30569309025904"` is DinersClub, valid, and valid for DinersClub |
| TestVectors.DinersClubInvalid1 | Tests/CreditCardValidatorTests/CreditCardValidatorTests.swift:48 | `"30569309025905"` is still DinersClub but invalid, and not valid for DinersClub |
| TestVectors.DinersClubInvalid2 | Tests/CreditCardValidatorTests/CreditCardValidatorTests.swift:49 | `"30569309021"` is still DinersClub but invalid, and not valid for DinersClub |
| TestVectors.JCBValid1 | Tests/CreditCardValidatorTests/CreditCardValidatorTests.swift:22 | `"3569 9900 1009 5841"` is JCB, valid, and valid for JCB |
| TestVectors.JCBInvalid1 | Tests/CreditCardValidatorTests/CreditCardValidatorTests.swift:50 | `"3569 9900 1009 5842"` is still JCB but invalid, and not valid for JCB |
| TestVectors.JCBInvalid2 | Tests/CreditCardValidatorTests/CreditCardValidatorTests.swift:51 | `"3569 9900 1009 3"` is still JCB but invalid, and not valid for JCB |
| TestVectors.DiscoverValid1 | Tests/CreditCardValidatorTests/CreditCardValidatorTests.swift:23 | `"6011 0000 0000 0004"` is Discover, valid, and valid for Discover |
| TestVectors.DiscoverInvalid1 | Tests/CreditCardValidatorTests/CreditCardValidatorTests.swift:52 | `"6011 0000 0000 0005"` is still Discover but invalid, and not valid for Discover |
| TestVectors.DiscoverInvalid2 | Tests/CreditCardValidatorTests/CreditCardValidatorTests.swift:53 | `"6011 0000 001"` is still Discover but invalid, and not valid for Discover |
| TestVectors.UnionPayValid1 | Tests/CreditCardValidatorTests/CreditCardValidatorTests.swift:24 | `"6250 9470 0000 0014"` is UnionPay, valid, and valid for UnionPay |
| TestVectors.UnionPayInvalid1 | Tests/CreditCardValidatorTests/CreditCardValidatorTests.swift:54 | `"6250 9470 0000 0015"` is still UnionPay but invalid, and not valid for UnionPay |

## Left out

- Regular expressions: `NSPredicate` matching (line 53) is a Foundation call. Each anchored pattern is written out as an equivalent predicate on the leading characters, and the predicate also requires the whole string to be ASCII digits (the `[0-9]*` tail).
- Unicode digits: `CharacterSet.decimalDigits` (line 115) also keeps non-ASCII decimal digits. Such a digit would survive normalisation, count towards `string.count`, fail every pattern and be dropped by `Int(String($0))`. The model treats only '0'-'9' as digits. So in the model `string.count` is the length of the stored string.
- `IndexSet`: the length sets are Dafny `set<int>`.
- Short-circuit evaluation of `&&` (line 72) makes no difference to a pure model.
- The XCTest harness: `print`, and the `allTests` manifest (which lists `testValidData` under the name `testInvalidData`). The vectors are stated as lemmas. Each input string appears as a Dafny string; the proofs split it into its digit groups.
