/**
 * The request DTOs of the processor-facing endpoints: the card-number
 * validator with its Luhn check (ISO/IEC 7812-1, Annex B), the numeric and
 * string bounds class-validator enforces, and the prefixed-UUID patterns
 * (the 8-4-4-4-12 layout of section 3 of RFC 4122, lower-case hex only).
 *
 * A JSON field that is absent is `None`; a number is a `real`.
 */
module MockbankDtos {
  import opened Wrappers
  import opened Decimal

  predicate AllDigits(s: string) {
    forall i :: 0 <= i < |s| ==> IsDigit(s[i])
  }

  // ---------------------------------------------------------------- Luhn

  /** `replace(/\D/g, '')` and `Number.parseInt` on each remaining character. */
  function DigitValues(code: string): (ds: seq<nat>)
    ensures |ds| <= |code|
    ensures forall i :: 0 <= i < |ds| ==> ds[i] < 10
    ensures AllDigits(code) ==> |ds| == |code|
  {
    if code == [] then []
    else if IsDigit(code[0]) then [code[0] as int - '0' as int] + DigitValues(code[1..])
    else DigitValues(code[1..])
  }

  function Reverse<T>(s: seq<T>): (r: seq<T>)
    ensures |r| == |s|
    ensures forall i :: 0 <= i < |s| ==> r[i] == s[|s| - 1 - i]
  {
    if s == [] then [] else [s[|s| - 1]] + Reverse(s[..|s| - 1])
  }

  /** A digit doubled, less 9 when that exceeds 9. */
  function Doubled(v: nat): (d: nat)
    requires v < 10
    ensures d < 10
    ensures d == (2 * v) % 10 + (2 * v) / 10
  {
    if v * 2 > 9 then v * 2 - 9 else v * 2
  }

  /** The callback of `reduce`: an odd index adds the digit, an even one adds it doubled. */
  function ReduceStep(acc: nat, val: nat, i: nat): nat
    requires val < 10
  {
    if i % 2 != 0 then acc + val else acc + Doubled(val)
  }

  /** `vals.reduce(ReduceStep, acc)`, where the first element of `vals` has index `i`. */
  function Reduce(vals: seq<nat>, i: nat, acc: nat): nat
    requires forall j :: 0 <= j < |vals| ==> vals[j] < 10
    decreases |vals|
  {
    if vals == [] then acc else Reduce(vals[1..], i + 1, ReduceStep(acc, vals[0], i))
  }

  /**
   * The sum `luhnChecksum` forms: the digits reversed, the first one
   * (`shift`) added only when it is truthy, the rest folded by `Reduce`.
   */
  function LuhnSum(code: string): nat {
    var arr := Reverse(DigitValues(code));
    if arr == [] then 0
    else
      var sum := Reduce(arr[1..], 0, 0);
      if arr[0] != 0 then sum + arr[0] else sum
  }

  predicate LuhnChecksum(code: string) {
    LuhnSum(code) % 10 == 0
  }

  /**
   * The Luhn sum of ISO/IEC 7812-1, Annex B over digits written most
   * significant first: counting from the right, the digit is doubled when
   * `doubleLast` holds and the doubling alternates leftwards.
   */
  function ReferenceSum(ds: seq<nat>, doubleLast: bool): nat
    requires forall j :: 0 <= j < |ds| ==> ds[j] < 10
    decreases |ds|
  {
    if ds == [] then 0
    else (if doubleLast then Doubled(ds[|ds| - 1]) else ds[|ds| - 1]) + ReferenceSum(ds[..|ds| - 1], !doubleLast)
  }

  /** The reference check: the check digit is not doubled and the sum is a multiple of 10. */
  predicate LuhnValid(ds: seq<nat>)
    requires forall j :: 0 <= j < |ds| ==> ds[j] < 10
  {
    ReferenceSum(ds, false) % 10 == 0
  }

  /** The sum read left to right, doubling first when `doubleFirst` holds. */
  function FrontSum(vals: seq<nat>, doubleFirst: bool): nat
    requires forall j :: 0 <= j < |vals| ==> vals[j] < 10
    decreases |vals|
  {
    if vals == [] then 0
    else (if doubleFirst then Doubled(vals[0]) else vals[0]) + FrontSum(vals[1..], !doubleFirst)
  }

  lemma {:induction false} ReduceIsFrontSum(vals: seq<nat>, i: nat, acc: nat)
    requires forall j :: 0 <= j < |vals| ==> vals[j] < 10
    ensures Reduce(vals, i, acc) == acc + FrontSum(vals, i % 2 == 0)
    decreases |vals|
  {
    if vals != [] {
      ReduceIsFrontSum(vals[1..], i + 1, ReduceStep(acc, vals[0], i));
    }
  }

  lemma {:induction false} FrontSumOfReverse(ds: seq<nat>, doubleFirst: bool)
    requires forall j :: 0 <= j < |ds| ==> ds[j] < 10
    ensures FrontSum(Reverse(ds), doubleFirst) == ReferenceSum(ds, doubleFirst)
    decreases |ds|
  {
    if ds != [] {
      var r := Reverse(ds);
      assert r[1..] == Reverse(ds[..|ds| - 1]);
      FrontSumOfReverse(ds[..|ds| - 1], !doubleFirst);
    }
  }

  /** `luhnChecksum` computes exactly the reference Luhn sum of the digits it keeps. */
  lemma LuhnMatchesReference(code: string)
    ensures LuhnSum(code) == ReferenceSum(DigitValues(code), false)
    ensures LuhnChecksum(code) <==> LuhnValid(DigitValues(code))
  {
    var ds := DigitValues(code);
    if ds != [] {
      var arr := Reverse(ds);
      assert arr[1..] == Reverse(ds[..|ds| - 1]);
      ReduceIsFrontSum(arr[1..], 0, 0);
      FrontSumOfReverse(ds[..|ds| - 1], true);
    }
  }

  lemma {:induction false} DigitValuesAppend(a: string, b: string)
    ensures DigitValues(a + b) == DigitValues(a) + DigitValues(b)
    decreases |a|
  {
    if a == [] {
      assert a + b == b;
    } else {
      var c := a[0];
      var rest := a[1..];
      assert a + b == [c] + (rest + b);
      DigitValuesAppend(rest, b);
      DigitValuesCons(c, rest + b);
      DigitValuesCons(c, rest);
    }
  }

  /** One step of `DigitValues`, on a string written as its first character and the rest. */
  lemma DigitValuesCons(c: char, s: string)
    ensures DigitValues([c] + s) == (if IsDigit(c) then [c as int - '0' as int] else []) + DigitValues(s)
  {
    assert ([c] + s)[0] == c;
    assert ([c] + s)[1..] == s;
  }

  /** A character that is not a digit does not affect the check. */
  lemma NonDigitIgnored(a: string, c: char, b: string)
    requires !IsDigit(c)
    ensures LuhnChecksum(a + [c] + b) == LuhnChecksum(a + b)
  {
    var spliced := a + [c] + b;
    var plain := a + b;
    assert spliced == a + ([c] + b);
    DigitValuesAppend(a, [c] + b);
    DigitValuesCons(c, b);
    DigitValuesAppend(a, b);
    assert DigitValues(spliced) == DigitValues(plain);
    LuhnMatchesReference(spliced);
    LuhnMatchesReference(plain);
  }

  lemma {:induction false} NoDigitsNoValues(code: string)
    requires forall i :: 0 <= i < |code| ==> !IsDigit(code[i])
    ensures DigitValues(code) == []
    decreases |code|
  {
    if code != [] {
      NoDigitsNoValues(code[1..]);
    }
  }

  /** A string without digits passes the check: the empty sum is 0. */
  lemma NoDigitsPass(code: string)
    requires forall i :: 0 <= i < |code| ==> !IsDigit(code[i])
    ensures LuhnChecksum(code)
  {
    NoDigitsNoValues(code);
  }

  // ------------------------------------------------------ card validator

  /** JavaScript's `\s`. */
  predicate JsWhitespace(c: char) {
    || c == '\t' || c == '\n' || c == '\U{000B}' || c == '\U{000C}' || c == '\r' || c == ' '
    || c == '\U{00A0}' || c == '\U{1680}' || '\U{2000}' <= c <= '\U{200A}'
    || c == '\U{2028}' || c == '\U{2029}' || c == '\U{202F}' || c == '\U{205F}'
    || c == '\U{3000}' || c == '\U{FEFF}'
  }

  /** A character outside `[^0-9-\s]`. */
  predicate CardCharAllowed(c: char) {
    IsDigit(c) || c == '-' || JsWhitespace(c)
  }

  /** The `isValidCardNumber` validator: truthy, 16 characters, only digits, '-' or whitespace, and the Luhn check. */
  predicate CardNumberValid(value: Option<string>) {
    && value.Some?
    && value.value != ""
    && |value.value| == 16
    && (forall i :: 0 <= i < |value.value| ==> CardCharAllowed(value.value[i]))
    && LuhnChecksum(value.value)
  }

  /** class-validator's `IsNotEmpty`: neither absent nor ''. */
  predicate IsNotEmpty(value: Option<string>) {
    value.Some? && value.value != ""
  }

  /** All four decorators of `cardNumber`: IsNotEmpty, Length(13, 19), the Luhn validator and IsString. */
  predicate CardNumberFieldValid(value: Option<string>) {
    IsNotEmpty(value) && 13 <= |value.value| <= 19 && CardNumberValid(value)
  }

  /** The Luhn validator alone decides the field: the length and non-empty rules are implied by it. */
  lemma CardValidatorDecides(value: Option<string>)
    ensures CardNumberFieldValid(value) <==> CardNumberValid(value)
    ensures CardNumberValid(value) ==> 13 <= |value.value| <= 19
  {
  }

  /** Sixteen digits are accepted exactly when the reference Luhn check holds. */
  lemma SixteenDigits(s: string)
    requires |s| == 16 && AllDigits(s)
    ensures CardNumberValid(Some(s)) <==> LuhnValid(DigitValues(s))
  {
    LuhnMatchesReference(s);
  }

  /** "42" written n times. */
  function FortyTwos(n: nat): (s: string)
    ensures |s| == 2 * n && AllDigits(s)
  {
    if n == 0 then "" else FortyTwos(n - 1) + "42"
  }

  /** A trailing "42" adds 2, plus 4 doubled, to the reference sum. */
  lemma PairAddsTen(ds: seq<nat>)
    requires forall j :: 0 <= j < |ds| ==> ds[j] < 10
    ensures ReferenceSum(ds + [4, 2], false) == ReferenceSum(ds, false) + 10
  {
    var ds' := ds + [4, 2];
    assert ds'[..|ds'| - 1] == ds + [4];
    assert (ds + [4])[..|ds|] == ds;
  }

  lemma PairDigits()
    ensures DigitValues("42") == [4, 2]
  {
    assert "42"[1..] == "2";
  }

  lemma {:induction false} FortyTwosReference(n: nat)
    ensures ReferenceSum(DigitValues(FortyTwos(n)), false) == 10 * n
  {
    if n > 0 {
      var s := FortyTwos(n - 1);
      var ds := DigitValues(s);
      FortyTwosReference(n - 1);
      DigitValuesAppend(s, "42");
      PairDigits();
      assert DigitValues(FortyTwos(n)) == ds + [4, 2];
      PairAddsTen(ds);
    }
  }

  /** Each "42" adds 2 + Doubled(4) = 10 to the Luhn sum, so every repetition passes the check. */
  lemma FortyTwosSum(n: nat)
    ensures LuhnSum(FortyTwos(n)) == 10 * n
  {
    FortyTwosReference(n);
    LuhnMatchesReference(FortyTwos(n));
  }

  /** Any number of "42" pairs passes the Luhn check; with 8 pairs the card validator accepts it. */
  lemma FortyTwosPass(n: nat)
    ensures LuhnChecksum(FortyTwos(n))
    ensures |FortyTwos(n)| == 16 ==> CardNumberValid(Some(FortyTwos(n)))
  {
    FortyTwosSum(n);
    var s := FortyTwos(n);
    forall i | 0 <= i < |s|
      ensures CardCharAllowed(s[i])
    {
    }
  }

  lemma FortyTwosLiteral()
    ensures FortyTwos(8) == "4242424242424242"
  {
  }

  /**
   * A separator inside an accepted number leaves the Luhn check passing but
   * the length check failing, so spaced or dashed card numbers are refused.
   */
  lemma SeparatedCardFails(s: string, sep: char, k: nat)
    requires CardNumberValid(Some(s)) && !IsDigit(sep) && k <= |s|
    ensures LuhnChecksum(s[..k] + [sep] + s[k..])
    ensures !CardNumberValid(Some(s[..k] + [sep] + s[k..]))
  {
    var t := s[..k] + [sep] + s[k..];
    assert |t| == 17;
    NonDigitIgnored(s[..k], sep, s[k..]);
    assert s[..k] + s[k..] == s;
  }

  lemma SpacedCardFails()
    ensures !CardNumberValid(Some("4242 4242 4242 4242"))
  {
  }

  lemma LetterCardFails()
    ensures !CardCharAllowed('a')
    ensures !CardNumberValid(Some("4242a424242424242"))
    ensures !CardNumberValid(Some("4242a42424242424"))
  {
    assert "4242a42424242424"[4] == 'a';
  }

  // ----------------------------------------------------------------- CVV

  /** A leading sign, if any, removed. */
  function Unsigned(s: string): (t: string)
    ensures |t| <= |s|
  {
    if |s| > 0 && (s[0] == '+' || s[0] == '-') then s[1..] else s
  }

  /** `IsNumberString`: validator.js `isNumeric`, the pattern `^[+-]?([0-9]*[.])?[0-9]+$`. */
  predicate IsNumeric(s: string) {
    var t := Unsigned(s);
    || (t != [] && AllDigits(t))
    || (exists k :: 0 <= k < |t| - 1 && t[k] == '.' && AllDigits(t[..k]) && AllDigits(t[k + 1..]))
  }

  /** The decorators of `cvv`: IsNotEmpty, Length(3, 4) and IsNumberString. */
  predicate CvvValid(cvv: Option<string>) {
    IsNotEmpty(cvv) && 3 <= |cvv.value| <= 4 && IsNumeric(cvv.value)
  }

  /** A string of digits is a valid CVV exactly when it has 3 or 4 of them. */
  lemma DigitCvv(s: string)
    requires AllDigits(s)
    ensures CvvValid(Some(s)) <==> 3 <= |s| <= 4
  {
    if 3 <= |s| {
      assert Unsigned(s) == s;
    }
  }

  /** 4-digit CVVs pass, and so do a sign or a decimal point; letters and other lengths do not. */
  lemma CvvExamples()
    ensures CvvValid(Some("123")) && CvvValid(Some("1234"))
    ensures CvvValid(Some("+12")) && CvvValid(Some("1.5"))
    ensures !CvvValid(Some("12")) && !CvvValid(Some("12345")) && !CvvValid(Some("12a"))
  {
    DigitCvv("123");
    DigitCvv("1234");
    DigitCvv("12");
    DigitCvv("12345");
    assert Unsigned("+12") == "12";
    var t := "1.5";
    assert t[1] == '.' && t[..1] == "1" && t[2..] == "5";
    assert Unsigned("12a") == "12a";
    assert !AllDigits("12a") by { assert "12a"[2] == 'a'; }
    forall k | 0 <= k < 2 && "12a"[k] == '.'
      ensures false
    {
    }
  }

  // ------------------------------------------------------ numeric bounds

  /** `IsNotEmpty`, `IsNumber`, `Min(1)` and `Max(9999)` on an amount. */
  predicate AmountValid(amount: Option<real>) {
    amount.Some? && 1.0 <= amount.value <= 9999.0
  }

  /** class-validator's `IsInt`. */
  predicate IsInt(x: real) {
    x.Floor as real == x
  }

  predicate ExpiryMonthValid(month: Option<real>) {
    month.Some? && IsInt(month.value) && 1.0 <= month.value <= 12.0
  }

  predicate ExpiryYearValid(year: Option<real>) {
    year.Some? && IsInt(year.value) && 2024.0 <= year.value <= 2099.0
  }

  /** The accepted months and years are exactly the whole numbers 1..12 and 2024..2099. */
  lemma ExpiryWholeNumbers(x: real)
    ensures ExpiryMonthValid(Some(x)) <==> x == x.Floor as real && 1 <= x.Floor <= 12
    ensures ExpiryYearValid(Some(x)) <==> x == x.Floor as real && 2024 <= x.Floor <= 2099
  {
  }

  /** 2020 and 2023 are refused and 2024 accepted; a fraction is refused. */
  lemma ExpiryYearExamples()
    ensures !ExpiryYearValid(Some(2020.0)) && !ExpiryYearValid(Some(2023.0))
    ensures ExpiryYearValid(Some(2024.0)) && ExpiryYearValid(Some(2099.0))
    ensures !ExpiryYearValid(Some(2100.0)) && !ExpiryYearValid(Some(2024.5))
    ensures ExpiryMonthValid(Some(12.0)) && !ExpiryMonthValid(Some(0.0)) && !ExpiryMonthValid(Some(13.0))
  {
    assert (2024.5).Floor == 2024;
  }

  // ---------------------------------------------------- prefixed UUIDs

  const AUTH_PREFIX := "auth_"
  const CAP_PREFIX := "cap_"
  const UUID_LENGTH := 36

  predicate LowerHex(c: char) {
    '0' <= c <= '9' || 'a' <= c <= 'f'
  }

  predicate HyphenAt(i: int) {
    i == 8 || i == 13 || i == 18 || i == 23
  }

  /** `[0-9a-f]{8}-[0-9a-f]{4}-[0-9a-f]{4}-[0-9a-f]{4}-[0-9a-f]{12}`. */
  predicate IsUuidLayout(u: string) {
    |u| == UUID_LENGTH && forall i :: 0 <= i < |u| ==> if HyphenAt(i) then u[i] == '-' else LowerHex(u[i])
  }

  /** The pattern `^<prefix><uuid>$`. */
  predicate MatchesAnchored(prefix: string, s: string) {
    |s| >= |prefix| && s[..|prefix|] == prefix && IsUuidLayout(s[|prefix|..])
  }

  /** `RegExp.test` of the pattern `<prefix><uuid>$`: a match may start anywhere. */
  predicate MatchesEndAnchored(prefix: string, s: string) {
    exists k :: 0 <= k <= |s| && MatchesAnchored(prefix, s[k..])
  }

  predicate IsAuthorizationId(s: string) {
    MatchesAnchored(AUTH_PREFIX, s)
  }

  predicate IsCaptureId(s: string) {
    MatchesAnchored(CAP_PREFIX, s)
  }

  /** The anchored pattern is the prefix followed by a UUID and nothing else. */
  lemma AnchoredIsPrefixPlusUuid(prefix: string, s: string)
    ensures MatchesAnchored(prefix, s) <==> |s| == |prefix| + UUID_LENGTH && s[..|prefix|] == prefix && IsUuidLayout(s[|prefix|..])
    ensures forall u :: IsUuidLayout(u) ==> MatchesAnchored(prefix, prefix + u)
  {
    forall u | IsUuidLayout(u)
      ensures MatchesAnchored(prefix, prefix + u)
    {
      assert (prefix + u)[..|prefix|] == prefix;
      assert (prefix + u)[|prefix|..] == u;
    }
  }

  /** Accepted authorization ids have 41 characters, accepted capture ids 40. */
  lemma IdLengths(s: string)
    ensures IsAuthorizationId(s) ==> |s| == 41
    ensures IsCaptureId(s) ==> |s| == 40
  {
  }

  /** The unanchored pattern matches exactly when the last 41 characters form an anchored match. */
  lemma EndAnchoredIsSuffix(prefix: string, s: string)
    ensures MatchesEndAnchored(prefix, s) <==>
      |s| >= |prefix| + UUID_LENGTH && MatchesAnchored(prefix, s[|s| - |prefix| - UUID_LENGTH..])
  {
    if MatchesEndAnchored(prefix, s) {
      var k :| 0 <= k <= |s| && MatchesAnchored(prefix, s[k..]);
      assert |s[k..]| == |prefix| + UUID_LENGTH;
    }
    if |s| >= |prefix| + UUID_LENGTH && MatchesAnchored(prefix, s[|s| - |prefix| - UUID_LENGTH..]) {
      assert 0 <= |s| - |prefix| - UUID_LENGTH <= |s|;
    }
  }

  /** Every character of an accepted authorization id is lower case, a digit, '_' or '-'. */
  lemma NoUpperCaseInIds(s: string)
    requires IsAuthorizationId(s) || IsCaptureId(s)
    ensures forall i :: 0 <= i < |s| ==> !('A' <= s[i] <= 'Z')
  {
    var p := if IsAuthorizationId(s) then AUTH_PREFIX else CAP_PREFIX;
    forall i | 0 <= i < |s|
      ensures !('A' <= s[i] <= 'Z')
    {
      if i < |p| {
        assert s[i] == s[..|p|][i] == p[i];
      } else {
        assert s[i] == s[|p|..][i - |p|];
      }
    }
  }

  /** An id that starts with 'auth_' is never a capture id, and the reverse. */
  lemma PrefixesExclusive(s: string)
    ensures |s| >= 5 && s[..5] == AUTH_PREFIX ==> !IsCaptureId(s)
    ensures IsCaptureId(s) ==> !IsAuthorizationId(s)
  {
    assert |s| >= 5 && s[..5] == AUTH_PREFIX ==> s[0] == 'a' by {
      if |s| >= 5 && s[..5] == AUTH_PREFIX {
        assert s[0] == s[..5][0];
      }
    }
    assert IsCaptureId(s) ==> s[0] == 'c' by {
      if IsCaptureId(s) {
        assert s[0] == s[..4][0];
      }
    }
    IdLengths(s);
  }

  const SAMPLE_UUID := "01234567-89ab-cdef-0123-456789abcdef"

  lemma SampleUuid()
    ensures IsUuidLayout(SAMPLE_UUID)
  {
  }

  // --------------------------------------------------------------- DTOs

  datatype AuthorizeRequest = AuthorizeRequest(
    amount: Option<real>,
    cardNumber: Option<string>,
    cvv: Option<string>,
    expiryMonth: Option<real>,
    expiryYear: Option<real>)

  datatype CaptureRequest = CaptureRequest(amount: Option<real>, authorizationId: Option<string>)
  datatype GetCaptureRequest = GetCaptureRequest(captureId: Option<string>)
  datatype RefundRequest = RefundRequest(amount: Option<real>, captureId: Option<string>)
  datatype VoidRequest = VoidRequest(authorizationId: Option<string>)

  predicate AuthorizeRequestValid(d: AuthorizeRequest) {
    && AmountValid(d.amount)
    && CardNumberFieldValid(d.cardNumber)
    && CvvValid(d.cvv)
    && ExpiryMonthValid(d.expiryMonth)
    && ExpiryYearValid(d.expiryYear)
  }

  predicate CaptureRequestValid(d: CaptureRequest) {
    AmountValid(d.amount) && IsNotEmpty(d.authorizationId) && IsAuthorizationId(d.authorizationId.value)
  }

  predicate GetCaptureRequestValid(d: GetCaptureRequest) {
    d.captureId.Some? && IsCaptureId(d.captureId.value)
  }

  predicate RefundRequestValid(d: RefundRequest) {
    AmountValid(d.amount) && d.captureId.Some? && IsCaptureId(d.captureId.value)
  }

  predicate VoidRequestValid(d: VoidRequest) {
    IsNotEmpty(d.authorizationId) && MatchesEndAnchored(AUTH_PREFIX, d.authorizationId.value)
  }

  /** A sample request of the form the processor's documentation shows is accepted. */
  lemma AuthorizeRequestExample()
    ensures AuthorizeRequestValid(AuthorizeRequest(Some(100.0), Some(FortyTwos(8)), Some("1234"), Some(12.0), Some(2024.0)))
    ensures !AuthorizeRequestValid(AuthorizeRequest(Some(100.0), Some(FortyTwos(8)), Some("123"), Some(12.0), Some(2020.0)))
  {
    FortyTwosPass(8);
    CvvExamples();
    ExpiryYearExamples();
  }

  /** The amount bounds of capture and refund are inclusive at both ends. */
  lemma AmountBounds(x: real)
    ensures AmountValid(Some(x)) <==> 1.0 <= x <= 9999.0
    ensures !AmountValid(None)
  {
  }

  /** A capture id is refused as a capture's authorization id, and an authorization id as a refund's capture id; an empty one fails the pattern. */
  lemma IdsNotInterchangeable(id: string, amount: real)
    requires 1.0 <= amount <= 9999.0
    ensures IsCaptureId(id) ==> !CaptureRequestValid(CaptureRequest(Some(amount), Some(id)))
    ensures IsAuthorizationId(id) ==> !RefundRequestValid(RefundRequest(Some(amount), Some(id)))
    ensures !RefundRequestValid(RefundRequest(Some(amount), Some("")))
  {
    PrefixesExclusive(id);
  }

  /** The void pattern accepts any text in front of an authorization id, which capture refuses. */
  lemma VoidAcceptsLeadingText(lead: string, id: string)
    requires IsAuthorizationId(id)
    ensures VoidRequestValid(VoidRequest(Some(lead + id)))
    ensures lead != "" ==> !CaptureRequestValid(CaptureRequest(Some(1.0), Some(lead + id)))
  {
    var s := lead + id;
    assert s[|lead|..] == id;
    IdLengths(id);
    IdLengths(s);
  }

  /** An anchored match ends in a lower-case hex digit. */
  lemma AnchoredEndsInHex(prefix: string, s: string)
    requires MatchesAnchored(prefix, s)
    ensures |s| > 0 && LowerHex(s[|s| - 1])
  {
    var u := s[|prefix|..];
    assert s[|s| - 1] == u[|u| - 1];
  }

  /** Anything after the UUID that is not a lower-case hex digit makes the void id invalid; so does an upper-case hex digit at the end. */
  lemma VoidRejectsTrailing(s: string, c: char)
    requires !LowerHex(c)
    ensures !VoidRequestValid(VoidRequest(Some(s + [c])))
  {
    var t := s + [c];
    EndAnchoredIsSuffix(AUTH_PREFIX, t);
    if |t| >= 41 {
      var x := t[|t| - 41..];
      assert x[|x| - 1] == c;
      if MatchesAnchored(AUTH_PREFIX, x) {
        AnchoredEndsInHex(AUTH_PREFIX, x);
      }
    }
  }

  /** For the void DTO the IsNotEmpty rule is implied by the pattern. */
  lemma VoidPatternDecides(value: string)
    ensures VoidRequestValid(VoidRequest(Some(value))) <==> MatchesEndAnchored(AUTH_PREFIX, value)
  {
    EndAnchoredIsSuffix(AUTH_PREFIX, value);
  }
}
