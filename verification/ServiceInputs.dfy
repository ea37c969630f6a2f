/** What the moderation service refuses before it touches the store. Lengths are in bytes of UTF-8, as Go counts them. */
module ServiceInputs {
  import opened Results
  import opened Text
  import opened IdempotencyKey

  const MAX_CONTENT_LENGTH := 10_000
  const MAX_SOURCE_LENGTH := 50
  const MAX_METADATA_LENGTH := 128
  const MAX_REVIEW_NOTES_LENGTH := 2_000
  const DEFAULT_SOURCE := "api"
  const MAX_UINT64 := 0xFFFF_FFFF_FFFF_FFFF

  function Utf8Width(c: char): nat {
    if c as int < 0x80 then 1 else if c as int < 0x800 then 2 else if c as int < 0x1_0000 then 3 else 4
  }

  function Utf8Length(s: string): nat {
    if s == [] then 0 else Utf8Length(s[..|s| - 1]) + Utf8Width(s[|s| - 1])
  }

  // ---------- Checks ----------

  datatype RawCheck = RawCheck(
    userId: nat, clientId: nat, content: string, source: string, externalId: string, actorId: string)

  datatype InputError = NotAuthenticated | ContentRequired | TooLong | BadCaseId

  function Source(raw: RawCheck): string {
    if Trim(raw.source) == "" then DEFAULT_SOURCE else Trim(raw.source)
  }

  function CheckFault(raw: RawCheck): Option<InputError> {
    if raw.userId == 0 then Some(NotAuthenticated)
    else if Trim(raw.content) == "" then Some(ContentRequired)
    else if Utf8Length(Trim(raw.content)) > MAX_CONTENT_LENGTH then Some(TooLong)
    else if Utf8Length(Source(raw)) > MAX_SOURCE_LENGTH then Some(TooLong)
    else if Utf8Length(Trim(raw.externalId)) > MAX_METADATA_LENGTH then Some(TooLong)
    else if Utf8Length(Trim(raw.actorId)) > MAX_METADATA_LENGTH then Some(TooLong)
    else None
  }

  /** A character takes the fewest bytes whose bits hold it: 7, 11, 16 or 21 of them (section 3 of RFC 3629). */
  lemma {:induction false} Utf8WidthIsLeast(c: char)
    ensures 1 <= Utf8Width(c) <= 4
    ensures var bound := [1, 0x80, 0x800, 0x1_0000, 0x20_0000];
            c as int < bound[Utf8Width(c)] && (Utf8Width(c) > 1 ==> bound[Utf8Width(c) - 1] <= c as int)
  {
  }

  /** A text of ASCII characters has as many bytes as characters, any other text more, up to four for each. */
  lemma {:induction false} Utf8Lengths(s: string)
    ensures |s| <= Utf8Length(s) <= 4 * |s|
    ensures Utf8Length(s) == |s| <==> forall i :: 0 <= i < |s| ==> s[i] as int < 128
  {
    if s != [] {
      Utf8Lengths(s[..|s| - 1]);
    }
  }

  /** Which checks are refused, and for what: an absent user comes first, then blank content, then any text that is too
      long once trimmed. A blank source is never too long, as it is replaced. */
  lemma {:induction false} ChecksRefusedExactlyWhen(raw: RawCheck)
    ensures var tooLong := || Utf8Length(Trim(raw.content)) > 10_000 || Utf8Length(Trim(raw.source)) > 50
                           || Utf8Length(Trim(raw.externalId)) > 128 || Utf8Length(Trim(raw.actorId)) > 128;
            var blank := AllSpace(raw.content, IsSpace);
            && (CheckFault(raw) == Some(NotAuthenticated) <==> raw.userId == 0)
            && (CheckFault(raw) == Some(ContentRequired) <==> raw.userId != 0 && blank)
            && (CheckFault(raw) == Some(TooLong) <==> raw.userId != 0 && !blank && tooLong)
            && (CheckFault(raw) == None <==> raw.userId != 0 && !blank && !tooLong)
  {
    BlankIsAllSpace(raw.content, IsSpace);
    Utf8Lengths(DEFAULT_SOURCE);
    Utf8Lengths("");
  }

  // ---------- Review case ids ----------

  predicate IsDigit(c: char) {
    '0' <= c <= '9'
  }

  predicate AllDigits(s: string) {
    forall i :: 0 <= i < |s| ==> IsDigit(s[i])
  }

  /** A positive decimal number of 64 bits, with white space around it and leading zeros allowed. */
  function ParseCaseId(text: string): Option<nat> {
    var digits := Trim(text);
    if digits != "" && AllDigits(digits) && 0 < Value(digits) <= MAX_UINT64 then Some(Value(digits)) else None
  }

  lemma {:induction false} DecimalIsDigits(n: nat)
    ensures Decimal(n) != "" && AllDigits(Decimal(n))
  {
    if n >= 10 {
      DecimalIsDigits(n / 10);
    }
  }

  /** Every id a case can have is parsed back from its decimal form. */
  lemma {:induction false} CaseIdReadsBack(n: nat)
    requires 0 < n <= MAX_UINT64
    ensures ParseCaseId(Decimal(n)) == Some(n)
  {
    var digits := Decimal(n);
    DecimalIsDigits(n);
    DecimalReadsBack(n);
    assert IsDigit(digits[0]) && IsDigit(digits[|digits| - 1]);
    StripFixesStripped(digits, IsSpace);
  }

  function Zeros(n: nat): string {
    if n == 0 then "" else Zeros(n - 1) + "0"
  }

  lemma {:induction false} ZerosAreDigits(n: nat, rest: string)
    requires AllDigits(rest)
    ensures AllDigits(Zeros(n) + rest) && Value(Zeros(n) + rest) == Value(rest)
    decreases n, |rest|
  {
    if rest != "" {
      assert (Zeros(n) + rest)[..|Zeros(n) + rest| - 1] == Zeros(n) + rest[..|rest| - 1];
      ZerosAreDigits(n, rest[..|rest| - 1]);
    } else if n > 0 {
      ZerosAreDigits(n - 1, "");
      assert Zeros(n - 1) + "" == Zeros(n - 1) && Zeros(n) + "" == Zeros(n);
      assert Zeros(n)[..|Zeros(n)| - 1] == Zeros(n - 1);
    }
  }

  /** Digits that mean a positive number are its decimal form behind zeros. */
  lemma {:induction false} DigitsAreDecimal(digits: string) returns (zeros: nat)
    requires AllDigits(digits) && Value(digits) > 0
    ensures digits == Zeros(zeros) + Decimal(Value(digits))
  {
    var front, last := digits[..|digits| - 1], digits[|digits| - 1];
    ValueIsNatural(front);
    assert digits == front + [last];
    if Value(front) > 0 {
      zeros := DigitsAreDecimal(front);
      assert Decimal(Value(digits)) == Decimal(Value(front)) + [last];
    } else {
      zeros := AllZeros(front);
      assert Decimal(Value(digits)) == [last];
    }
  }

  lemma {:induction false} ValueIsNatural(digits: string)
    requires AllDigits(digits)
    ensures Value(digits) >= 0
  {
    if digits != "" {
      ValueIsNatural(digits[..|digits| - 1]);
    }
  }

  lemma {:induction false} AllZeros(digits: string) returns (zeros: nat)
    requires AllDigits(digits) && Value(digits) == 0
    ensures digits == Zeros(zeros)
  {
    zeros := |digits|;
    if digits != "" {
      ValueIsNatural(digits[..|digits| - 1]);
      var front := AllZeros(digits[..|digits| - 1]);
      ZerosLength(front);
      assert digits == digits[..|digits| - 1] + "0";
    }
  }

  lemma {:induction false} ZerosLength(n: nat)
    ensures |Zeros(n)| == n
  {
    if n > 0 {
      ZerosLength(n - 1);
    }
  }

  /** A case id is accepted exactly when, trimmed, it is a positive 64-bit number in decimal, leading zeros allowed. */
  lemma {:induction false} CaseIdsAcceptedExactlyWhen(text: string, n: nat)
    ensures ParseCaseId(text) == Some(n) <==>
              0 < n <= 0xFFFF_FFFF_FFFF_FFFF && exists zeros :: Trim(text) == Zeros(zeros) + Decimal(n)
  {
    if ParseCaseId(text) == Some(n) {
      var zeros := DigitsAreDecimal(Trim(text));
    }
    forall zeros | 0 < n <= MAX_UINT64 && Trim(text) == Zeros(zeros) + Decimal(n)
      ensures ParseCaseId(text) == Some(n)
    {
      DecimalIsDigits(n);
      DecimalReadsBack(n);
      ZerosAreDigits(zeros, Decimal(n));
    }
  }

  function ReviewFault(caseId: string, reviewer: nat, notes: string): Option<InputError> {
    if reviewer == 0 then Some(NotAuthenticated)
    else if ParseCaseId(caseId) == None then Some(BadCaseId)
    else if Utf8Length(Trim(notes)) > MAX_REVIEW_NOTES_LENGTH then Some(TooLong)
    else None
  }

  /** Which reviews are refused: an absent reviewer first, then an id that is none, then notes too long once trimmed. */
  lemma {:induction false} ReviewsRefusedExactlyWhen(caseId: string, reviewer: nat, notes: string)
    ensures var fault, known := ReviewFault(caseId, reviewer, notes), ParseCaseId(caseId).Some?;
            && (fault == Some(NotAuthenticated) <==> reviewer == 0)
            && (fault == Some(BadCaseId) <==> reviewer != 0 && !known)
            && (fault == Some(TooLong) <==> reviewer != 0 && known && Utf8Length(Trim(notes)) > 2_000)
            && fault != Some(ContentRequired)
  {
  }
}
