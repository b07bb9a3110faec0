/** CreditCardDetails: normalises the four card fields, runs the four field
    validators in a fixed order on one error list, and builds the value only
    when that list is empty. */
module CreditCard {
  import opened Results
  import opened Text
  import opened Calendar

  const MinCardNumberLength := 13
  const MaxCardNumberLength := 19
  const MinHolderNameLength := 2
  const MaxHolderNameLength := 100
  /** `AllowedCvvLengths = [3, 4]`. */
  const AllowedCvvLengths: seq<int> := [3, 4]

  const CardNumberRequired := "Card number is required."
  const CardNumberInvalid := "Card number must contain only digits and have between 13 and 19 characters."
  const CardHolderNameRequired := "Card holder name is required."
  const CardHolderNameInvalid := "Card holder name must have between 2 and 100 characters."
  const ExpirationDateRequired := "Expiration date is required."
  const ExpirationDatePast := "Expiration date cannot be in the past."
  const CvvRequired := "CVV is required."
  const CvvInvalid := "CVV must contain only digits and have 3 or 4 characters."

  datatype CreditCardDetails = CreditCardDetails(cardNumber: string, cardHolderName: string,
                                                 expirationDate: DateTime, cvv: string)
  {
    /** What holds of every value `Create` builds, at the instant it was built. */
    predicate Valid(now: DateTime)
      requires now.Valid()
    {
      AllDigits(cardNumber) && MinCardNumberLength <= |cardNumber| <= MaxCardNumberLength &&
      IsTrimmed(cardHolderName) &&
      MinHolderNameLength <= |cardHolderName| <= MaxHolderNameLength &&
      expirationDate.Valid() && expirationDate != Default &&
      !Precedes(ExpirationLimit(expirationDate), now) &&
      AllDigits(cvv) && (|cvv| == 3 || |cvv| == 4)
    }
  }

  // ---------------------------------------------------------------------------
  // Normalisation

  /** The two `Replace` calls: every ' ' removed, then every '-'. */
  function StripSeparators(s: string): (r: string)
    ensures ' ' !in r && '-' !in r
    ensures multiset(r) == multiset(s)[' ' := 0]['-' := 0]
  {
    var spaceless := Without(s, ' ');
    var r := Without(spaceless, '-');
    assert multiset(r)[' '] == multiset(spaceless)[' '] == 0;
    r
  }

  lemma StripSeparatorsAppend(a: string, b: string)
    ensures StripSeparators(a + b) == StripSeparators(a) + StripSeparators(b)
  {
    WithoutAppend(a, b, ' ');
    WithoutAppend(Without(a, ' '), Without(b, ' '), '-');
  }

  /** `NormalizeCardNumber`: empty for null or whitespace-only input, otherwise
      the input with every ' ' and every '-' removed and nothing else changed. */
  function NormalizeCardNumber(value: Option<string>): (r: string)
    ensures ' ' !in r && '-' !in r
    ensures IsNullOrWhiteSpace(value) ==> r == []
    ensures !IsNullOrWhiteSpace(value) ==> multiset(r) == multiset(value.value)[' ' := 0]['-' := 0]
  {
    if IsNullOrWhiteSpace(value) then [] else StripSeparators(value.value)
  }

  /** A normalised number that is not blank is left alone by a second
      normalisation. */
  lemma NormalizeStable(value: Option<string>)
    requires !IsBlank(NormalizeCardNumber(value))
    ensures NormalizeCardNumber(Some(NormalizeCardNumber(value))) == NormalizeCardNumber(value)
  {
    var r := NormalizeCardNumber(value);
    WithoutAbsent(r, ' ');
    WithoutAbsent(r, '-');
  }

  /** Normalising is not idempotent in general: removing the hyphen from
      TAB-hyphen leaves a lone TAB, which a second pass blanks out. */
  lemma NormalizeNotIdempotent()
    ensures NormalizeCardNumber(Some("\t-")) == "\t"
    ensures NormalizeCardNumber(Some("\t")) == ""
  {
    var tab, hyphen := "\t", "-";
    assert IsBlank(tab) by { assert IsWhiteSpace(tab[0]); }
    assert !IsBlank(tab + hyphen) by { assert !IsWhiteSpace((tab + hyphen)[1]); }
    assert StripSeparators(tab) == tab by {
      WithoutAbsent(tab, ' ');
      WithoutAbsent(tab, '-');
    }
    assert StripSeparators(hyphen) == [] by {
      assert hyphen[1..] == [];
      assert Without(hyphen, ' ') == hyphen;
    }
    StripSeparatorsAppend(tab, hyphen);
    assert tab + hyphen == "\t-";
  }

  lemma NotBlankAfterInsert(a: string, b: string, c: char)
    requires !IsBlank(a + b)
    ensures !IsBlank(a + [c] + b)
  {
    var x := a + [c] + b;
    var i :| 0 <= i < |a + b| && !IsWhiteSpace((a + b)[i]);
    if i < |a| {
      assert x[i] == (a + b)[i];
    } else {
      assert x[i + 1] == (a + b)[i];
    }
  }

  /** Past the blank check, normalising is stripping the separators. */
  lemma NormalizeIsStrip(s: string)
    requires !IsBlank(s)
    ensures NormalizeCardNumber(Some(s)) == StripSeparators(s)
  {
  }

  lemma StripInsert(a: string, b: string, sep: char)
    requires sep == ' ' || sep == '-'
    ensures StripSeparators(a + [sep] + b) == StripSeparators(a + b)
  {
    assert StripSeparators([sep]) == [] by {
      assert [sep][1..] == [];
    }
    StripSeparatorsAppend(a + [sep], b);
    StripSeparatorsAppend(a, [sep]);
    StripSeparatorsAppend(a, b);
  }

  /** Spaces and hyphens may be placed anywhere in the number: inserting one
      between two parts of a number that is not blank changes nothing. */
  lemma SeparatorsIgnored(a: string, b: string, sep: char)
    requires sep == ' ' || sep == '-'
    requires !IsBlank(a + b)
    ensures NormalizeCardNumber(Some(a + [sep] + b)) == NormalizeCardNumber(Some(a + b))
  {
    NotBlankAfterInsert(a, b, sep);
    NormalizeIsStrip(a + [sep] + b);
    NormalizeIsStrip(a + b);
    StripInsert(a, b, sep);
  }

  // ---------------------------------------------------------------------------
  // The four validators, each adding at most one message

  /** The messages `ValidateCardNumber` adds for a normalised card number. */
  function CardNumberErrors(cardNumber: string): (r: seq<string>)
    ensures r == [] <==> AllDigits(cardNumber) &&
                         MinCardNumberLength <= |cardNumber| <= MaxCardNumberLength
    ensures r != [] ==> r == [if IsBlank(cardNumber) then CardNumberRequired else CardNumberInvalid]
  {
    DigitsAreNotBlank(cardNumber);
    if IsNullOrWhiteSpace(Some(cardNumber)) then [CardNumberRequired]
    else if !AllDigits(cardNumber) ||
            !(MinCardNumberLength <= |cardNumber| <= MaxCardNumberLength) then [CardNumberInvalid]
    else []
  }

  /** The messages `ValidateCardHolderName` adds for a trimmed holder name. */
  function CardHolderNameErrors(cardHolderName: Option<string>): (r: seq<string>)
    ensures r == [] <==> cardHolderName.Some? && !IsBlank(cardHolderName.value) &&
                         MinHolderNameLength <= |cardHolderName.value| <= MaxHolderNameLength
    ensures r != [] ==> r == [if IsNullOrWhiteSpace(cardHolderName) then CardHolderNameRequired
                              else CardHolderNameInvalid]
  {
    if IsNullOrWhiteSpace(cardHolderName) then [CardHolderNameRequired]
    else if !(MinHolderNameLength <= |cardHolderName.value| <= MaxHolderNameLength) then
      [CardHolderNameInvalid]
    else []
  }

  /** The last second of the expiration month: 23:59:59 on its last day. */
  function ExpirationLimit(expirationDate: DateTime): (limit: DateTime)
    requires expirationDate.Valid()
    ensures limit.Valid()
    ensures limit.year == expirationDate.year && limit.month == expirationDate.month
  {
    DateTime(expirationDate.year, expirationDate.month,
             DaysInMonth(expirationDate.year, expirationDate.month), 23, 59, 59, 0)
  }

  /** The messages `ValidateExpirationDate` adds, `now` being `DateTime.UtcNow`. */
  function ExpirationDateErrors(expirationDate: DateTime, now: DateTime): (r: seq<string>)
    requires expirationDate.Valid() && now.Valid()
    ensures r == [] <==> expirationDate != Default && !Precedes(ExpirationLimit(expirationDate), now)
    ensures r != [] ==> r == [if expirationDate == Default then ExpirationDateRequired
                              else ExpirationDatePast]
  {
    if expirationDate == Default then [ExpirationDateRequired]
    else
      var limit := ExpirationLimit(expirationDate);
      if Before(limit, now) then [ExpirationDatePast] else []
  }

  /** The messages `ValidateCvv` adds for a trimmed CVV. */
  function CvvErrors(cvv: Option<string>): (r: seq<string>)
    ensures r == [] <==> cvv.Some? && AllDigits(cvv.value) && (|cvv.value| == 3 || |cvv.value| == 4)
    ensures r != [] ==> r == [if IsNullOrWhiteSpace(cvv) then CvvRequired else CvvInvalid]
  {
    DigitsAreNotBlank(if cvv.Some? then cvv.value else []);
    if IsNullOrWhiteSpace(cvv) then [CvvRequired]
    else if !AllDigits(cvv.value) || |cvv.value| !in AllowedCvvLengths then [CvvInvalid]
    else []
  }

  /** The list `Validate` returns: the four validators' messages, in order. */
  function ValidationErrors(cardNumber: string, cardHolderName: Option<string>,
                            expirationDate: DateTime, cvv: Option<string>, now: DateTime): seq<string>
    requires expirationDate.Valid() && now.Valid()
  {
    CardNumberErrors(cardNumber) + CardHolderNameErrors(cardHolderName) +
    ExpirationDateErrors(expirationDate, now) + CvvErrors(cvv)
  }

  // ---------------------------------------------------------------------------
  // The validators as the source runs them: each appends to the one list

  method ValidateCardNumber(cardNumber: string, errors: seq<string>) returns (errors': seq<string>)
    ensures errors' == errors + CardNumberErrors(cardNumber)
  {
    if IsNullOrWhiteSpace(Some(cardNumber)) {
      errors' := errors + [CardNumberRequired];
      return;
    }
    var hasValidLength := MinCardNumberLength <= |cardNumber| <= MaxCardNumberLength;
    errors' := errors;
    if !AllDigits(cardNumber) || !hasValidLength {
      errors' := errors' + [CardNumberInvalid];
    }
  }

  method ValidateCardHolderName(cardHolderName: Option<string>, errors: seq<string>)
    returns (errors': seq<string>)
    ensures errors' == errors + CardHolderNameErrors(cardHolderName)
  {
    if IsNullOrWhiteSpace(cardHolderName) {
      errors' := errors + [CardHolderNameRequired];
      return;
    }
    var hasValidLength := MinHolderNameLength <= |cardHolderName.value| <= MaxHolderNameLength;
    errors' := errors;
    if !hasValidLength {
      errors' := errors' + [CardHolderNameInvalid];
    }
  }

  method ValidateExpirationDate(expirationDate: DateTime, now: DateTime, errors: seq<string>)
    returns (errors': seq<string>)
    requires expirationDate.Valid() && now.Valid()
    ensures errors' == errors + ExpirationDateErrors(expirationDate, now)
  {
    if expirationDate == Default {
      errors' := errors + [ExpirationDateRequired];
      return;
    }
    var expirationLimit := DateTime(expirationDate.year, expirationDate.month,
                                    DaysInMonth(expirationDate.year, expirationDate.month),
                                    23, 59, 59, 0);
    errors' := errors;
    if Before(expirationLimit, now) {
      errors' := errors' + [ExpirationDatePast];
    }
  }

  method ValidateCvv(cvv: Option<string>, errors: seq<string>) returns (errors': seq<string>)
    ensures errors' == errors + CvvErrors(cvv)
  {
    if IsNullOrWhiteSpace(cvv) {
      errors' := errors + [CvvRequired];
      return;
    }
    errors' := errors;
    if !AllDigits(cvv.value) || |cvv.value| !in AllowedCvvLengths {
      errors' := errors' + [CvvInvalid];
    }
  }

  /** `Validate`: one list, the four validators in order, none skipped. */
  method Validate(normalizedCardNumber: string, normalizedHolderName: Option<string>,
                  expirationDate: DateTime, normalizedCvv: Option<string>, now: DateTime)
    returns (errors: seq<string>)
    requires expirationDate.Valid() && now.Valid()
    ensures errors == ValidationErrors(normalizedCardNumber, normalizedHolderName,
                                       expirationDate, normalizedCvv, now)
  {
    errors := [];
    errors := ValidateCardNumber(normalizedCardNumber, errors);
    assert errors == CardNumberErrors(normalizedCardNumber);
    errors := ValidateCardHolderName(normalizedHolderName, errors);
    errors := ValidateExpirationDate(expirationDate, now, errors);
    errors := ValidateCvv(normalizedCvv, errors);
  }

  // ---------------------------------------------------------------------------
  // The factory

  /** `x?.Trim()`. */
  function TrimOrNull(value: Option<string>): (r: Option<string>)
    ensures r.Some? <==> value.Some?
    ensures r.Some? ==> r.value == Trim(value.value)
    ensures r.Some? ==> IsTrimmed(r.value) && (r.value == [] <==> IsBlank(value.value))
  {
    if value.Some? then Some(Trim(value.value)) else None
  }

  /** The errors `Create` reports for raw inputs. */
  function CreateErrors(cardNumber: Option<string>, cardHolderName: Option<string>,
                        expirationDate: DateTime, cvv: Option<string>, now: DateTime): seq<string>
    requires expirationDate.Valid() && now.Valid()
  {
    ValidationErrors(NormalizeCardNumber(cardNumber), TrimOrNull(cardHolderName),
                     expirationDate, TrimOrNull(cvv), now)
  }

  /** The card number passes once normalised: 13 to 19 ASCII digits. */
  predicate CardNumberAccepted(cardNumber: Option<string>) {
    var n := NormalizeCardNumber(cardNumber);
    AllDigits(n) && MinCardNumberLength <= |n| <= MaxCardNumberLength
  }

  /** The holder name passes: present, and 2 to 100 characters once trimmed. */
  predicate CardHolderNameAccepted(cardHolderName: Option<string>) {
    cardHolderName.Some? &&
    MinHolderNameLength <= |Trim(cardHolderName.value)| <= MaxHolderNameLength
  }

  /** The expiration date passes: set, and its month has not ended before `now`. */
  predicate ExpirationDateAccepted(expirationDate: DateTime, now: DateTime)
    requires expirationDate.Valid()
  {
    expirationDate != Default && !Precedes(ExpirationLimit(expirationDate), now)
  }

  /** The CVV passes: present, and 3 or 4 ASCII digits once trimmed. */
  predicate CvvAccepted(cvv: Option<string>) {
    cvv.Some? && AllDigits(Trim(cvv.value)) && (|Trim(cvv.value)| == 3 || |Trim(cvv.value)| == 4)
  }

  /** `CreditCardDetails.Create`: normalise, validate all four fields, and build
      the value exactly when no validator complained. */
  function Create(cardNumber: Option<string>, cardHolderName: Option<string>,
                  expirationDate: DateTime, cvv: Option<string>, now: DateTime)
    : (r: Result<CreditCardDetails>)
    requires expirationDate.Valid() && now.Valid()
    ensures r.Ok? <==> CardNumberAccepted(cardNumber) && CardHolderNameAccepted(cardHolderName) &&
                       ExpirationDateAccepted(expirationDate, now) && CvvAccepted(cvv)
    ensures r.Fail? ==> r.errors == CreateErrors(cardNumber, cardHolderName, expirationDate, cvv, now)
                        && 1 <= |r.errors| <= 4
    ensures r.Ok? ==> r.value.Valid(now)
    ensures r.Ok? ==> r.value == CreditCardDetails(NormalizeCardNumber(cardNumber),
                                                   Trim(cardHolderName.value), expirationDate,
                                                   Trim(cvv.value))
  {
    var normalizedCardNumber := NormalizeCardNumber(cardNumber);
    var normalizedHolderName := TrimOrNull(cardHolderName);
    var normalizedCvv := TrimOrNull(cvv);
    var errors := ValidationErrors(normalizedCardNumber, normalizedHolderName,
                                   expirationDate, normalizedCvv, now);
    TrimmedNotBlank(if normalizedHolderName.Some? then normalizedHolderName.value else []);
    if |errors| > 0 then
      Fail(errors)
    else
      Ok(CreditCardDetails(normalizedCardNumber, normalizedHolderName.value,
                           expirationDate, normalizedCvv.value))
  }

  // ---------------------------------------------------------------------------
  // Properties of the error list

  /** The field a message is about: 0 card number, 1 holder name, 2 expiration
      date, 3 CVV. */
  function Field(message: string): nat {
    if message == CardNumberRequired || message == CardNumberInvalid then 0
    else if message == CardHolderNameRequired || message == CardHolderNameInvalid then 1
    else if message == ExpirationDateRequired || message == ExpirationDatePast then 2
    else 3
  }

  /** The messages of `errors` about field `k`, in order. */
  function OfField(errors: seq<string>, k: nat): (r: seq<string>)
    ensures |r| <= |errors|
  {
    if errors == [] then []
    else (if Field(errors[0]) == k then [errors[0]] else []) + OfField(errors[1..], k)
  }

  lemma {:induction false} OfFieldAppend(a: seq<string>, b: seq<string>, k: nat)
    ensures OfField(a + b, k) == OfField(a, k) + OfField(b, k)
  {
    if a == [] {
      assert a + b == b;
    } else {
      var head := if Field(a[0]) == k then [a[0]] else [];
      assert (a + b)[0] == a[0] && (a + b)[1..] == a[1..] + b;
      assert OfField(a + b, k) == head + OfField(a[1..] + b, k);
      OfFieldAppend(a[1..], b, k);
    }
  }

  lemma OfFieldSingle(m: string, k: nat)
    ensures OfField([m], k) == if Field(m) == k then [m] else []
  {
    assert [m][1..] == [];
  }

  lemma OfFieldOneField(errors: seq<string>, k: nat, j: nat)
    requires |errors| <= 1 && (errors != [] ==> Field(errors[0]) == j)
    ensures OfField(errors, k) == if j == k then errors else []
  {
    if errors != [] {
      assert errors == [errors[0]];
      OfFieldSingle(errors[0], k);
    }
  }

  lemma MessageFields()
    ensures Field(CardNumberRequired) == 0 && Field(CardNumberInvalid) == 0
    ensures Field(CardHolderNameRequired) == 1 && Field(CardHolderNameInvalid) == 1
    ensures Field(ExpirationDateRequired) == 2 && Field(ExpirationDatePast) == 2
    ensures Field(CvvRequired) == 3 && Field(CvvInvalid) == 3
  {
    // The two messages of equal length differ in the digit before " characters.".
    assert CvvInvalid[|CvvInvalid| - 13] == '4';
    assert CardHolderNameInvalid[|CardHolderNameInvalid| - 13] == '0';
  }

  /** Strictly ascending fields, each in [lo, hi). */
  predicate Ascending(errors: seq<string>, lo: nat, hi: nat) {
    (forall i :: 0 <= i < |errors| ==> lo <= Field(errors[i]) < hi) &&
    (forall i, j :: 0 <= i < j < |errors| ==> Field(errors[i]) < Field(errors[j]))
  }

  lemma AscendingAppend(a: seq<string>, b: seq<string>, lo: nat, mid: nat, hi: nat)
    requires lo <= mid <= hi
    requires Ascending(a, lo, mid) && Ascending(b, mid, hi)
    ensures Ascending(a + b, lo, hi)
  {
    forall i | 0 <= i < |a + b| ensures lo <= Field((a + b)[i]) < hi {
      if i >= |a| { assert (a + b)[i] == b[i - |a|]; } else { assert (a + b)[i] == a[i]; }
    }
    forall i, j | 0 <= i < j < |a + b| ensures Field((a + b)[i]) < Field((a + b)[j]) {
      if j < |a| {
        assert (a + b)[i] == a[i] && (a + b)[j] == a[j];
      } else if i >= |a| {
        assert (a + b)[i] == b[i - |a|] && (a + b)[j] == b[j - |a|];
      } else {
        assert (a + b)[i] == a[i] && (a + b)[j] == b[j - |a|];
      }
    }
  }

  lemma OneFieldAscending(errors: seq<string>, k: nat)
    requires |errors| <= 1 && (errors != [] ==> Field(errors[0]) == k)
    ensures Ascending(errors, k, k + 1)
  {
    if errors != [] {
      assert errors == [errors[0]];
    }
  }

  /** Each validator reports at most one message, about its own field. */
  lemma ValidatorFields(cardNumber: string, cardHolderName: Option<string>,
                        expirationDate: DateTime, cvv: Option<string>, now: DateTime)
    requires expirationDate.Valid() && now.Valid()
    ensures var a := CardNumberErrors(cardNumber); |a| <= 1 && (a != [] ==> Field(a[0]) == 0)
    ensures var b := CardHolderNameErrors(cardHolderName); |b| <= 1 && (b != [] ==> Field(b[0]) == 1)
    ensures var c := ExpirationDateErrors(expirationDate, now); |c| <= 1 && (c != [] ==> Field(c[0]) == 2)
    ensures var d := CvvErrors(cvv); |d| <= 1 && (d != [] ==> Field(d[0]) == 3)
  {
    MessageFields();
  }

  lemma AscendingOfFour(a: seq<string>, b: seq<string>, c: seq<string>, d: seq<string>)
    requires |a| <= 1 && (a != [] ==> Field(a[0]) == 0)
    requires |b| <= 1 && (b != [] ==> Field(b[0]) == 1)
    requires |c| <= 1 && (c != [] ==> Field(c[0]) == 2)
    requires |d| <= 1 && (d != [] ==> Field(d[0]) == 3)
    ensures |a + b + c + d| <= 4 && Ascending(a + b + c + d, 0, 4)
  {
    OneFieldAscending(a, 0);
    OneFieldAscending(b, 1);
    OneFieldAscending(c, 2);
    OneFieldAscending(d, 3);
    AscendingAppend(a, b, 0, 1, 2);
    AscendingAppend(a + b, c, 0, 2, 3);
    AscendingAppend(a + b + c, d, 0, 3, 4);
  }

  /** At most four messages, at most one per field, in the order card number,
      holder name, expiration date, CVV. */
  lemma ValidationErrorsOrdered(cardNumber: string, cardHolderName: Option<string>,
                                expirationDate: DateTime, cvv: Option<string>, now: DateTime)
    requires expirationDate.Valid() && now.Valid()
    ensures var errors := ValidationErrors(cardNumber, cardHolderName, expirationDate, cvv, now);
            |errors| <= 4 &&
            forall i, j :: 0 <= i < j < |errors| ==> Field(errors[i]) < Field(errors[j])
  {
    ValidatorFields(cardNumber, cardHolderName, expirationDate, cvv, now);
    AscendingOfFour(CardNumberErrors(cardNumber), CardHolderNameErrors(cardHolderName),
                    ExpirationDateErrors(expirationDate, now), CvvErrors(cvv));
  }

  lemma {:induction false} OfFieldOfFour(a: seq<string>, b: seq<string>, c: seq<string>,
                                         d: seq<string>, k: nat)
    requires |a| <= 1 && (a != [] ==> Field(a[0]) == 0)
    requires |b| <= 1 && (b != [] ==> Field(b[0]) == 1)
    requires |c| <= 1 && (c != [] ==> Field(c[0]) == 2)
    requires |d| <= 1 && (d != [] ==> Field(d[0]) == 3)
    ensures OfField(a + b + c + d, k) ==
            if k == 0 then a else if k == 1 then b else if k == 2 then c else if k == 3 then d else []
  {
    OfFieldAppend(a + b + c, d, k);
    OfFieldAppend(a + b, c, k);
    OfFieldAppend(a, b, k);
    OfFieldOneField(a, k, 0);
    OfFieldOneField(b, k, 1);
    OfFieldOneField(c, k, 2);
    OfFieldOneField(d, k, 3);
  }

  /** No validator suppresses another: the messages about each field are exactly
      what that field's validator reports, whatever the other fields hold. */
  lemma ValidatorsIndependent(cardNumber: string, cardHolderName: Option<string>,
                              expirationDate: DateTime, cvv: Option<string>, now: DateTime)
    requires expirationDate.Valid() && now.Valid()
    ensures var errors := ValidationErrors(cardNumber, cardHolderName, expirationDate, cvv, now);
            OfField(errors, 0) == CardNumberErrors(cardNumber) &&
            OfField(errors, 1) == CardHolderNameErrors(cardHolderName) &&
            OfField(errors, 2) == ExpirationDateErrors(expirationDate, now) &&
            OfField(errors, 3) == CvvErrors(cvv)
  {
    var a, b := CardNumberErrors(cardNumber), CardHolderNameErrors(cardHolderName);
    var c, d := ExpirationDateErrors(expirationDate, now), CvvErrors(cvv);
    ValidatorFields(cardNumber, cardHolderName, expirationDate, cvv, now);
    OfFieldOfFour(a, b, c, d, 0);
    OfFieldOfFour(a, b, c, d, 1);
    OfFieldOfFour(a, b, c, d, 2);
    OfFieldOfFour(a, b, c, d, 3);
  }

  // ---------------------------------------------------------------------------
  // The expiration rule by month

  /** The limit is the last whole second of the month: an instant of that month
      is after it only in the last second of the last day, past its first tick. */
  lemma LimitIsLastSecond(expirationDate: DateTime, d: DateTime)
    requires expirationDate.Valid() && d.Valid()
    requires d.year == expirationDate.year && d.month == expirationDate.month
    ensures Before(ExpirationLimit(expirationDate), d) <==>
            d.day == DaysInMonth(d.year, d.month) && d.hour == 23 && d.minute == 59 &&
            d.second == 59 && d.fraction > 0
  {
  }

  /** A card expiring in a month before the current one is rejected, one
      expiring in a later month is accepted, and one expiring this month is
      accepted up to 23:59:59 on the month's last day. */
  lemma ExpirationByMonth(expirationDate: DateTime, now: DateTime)
    requires expirationDate.Valid() && now.Valid() && expirationDate != Default
    ensures (expirationDate.year, expirationDate.month) != (now.year, now.month) ==>
            (ExpirationDateErrors(expirationDate, now) == [] <==>
             (now.year < expirationDate.year ||
              (now.year == expirationDate.year && now.month < expirationDate.month)))
    ensures (expirationDate.year, expirationDate.month) == (now.year, now.month) ==>
            (ExpirationDateErrors(expirationDate, now) == [] <==>
             !(now.day == DaysInMonth(now.year, now.month) && now.hour == 23 && now.minute == 59 &&
               now.second == 59 && now.fraction > 0))
  {
  }

  /** One of the eight messages the card validators use. */
  predicate IsCardMessage(message: string) {
    message == CardNumberRequired || message == CardNumberInvalid ||
    message == CardHolderNameRequired || message == CardHolderNameInvalid ||
    message == ExpirationDateRequired || message == ExpirationDatePast ||
    message == CvvRequired || message == CvvInvalid
  }

  predicate AllCardMessages(errors: seq<string>) {
    forall m :: m in errors ==> IsCardMessage(m)
  }

  lemma AllCardMessagesOfFour(a: seq<string>, b: seq<string>, c: seq<string>, d: seq<string>)
    requires AllCardMessages(a) && AllCardMessages(b) && AllCardMessages(c) && AllCardMessages(d)
    ensures AllCardMessages(a + b + c + d)
  {
  }

  lemma ValidatorMessages(cardNumber: string, cardHolderName: Option<string>,
                          expirationDate: DateTime, cvv: Option<string>, now: DateTime)
    requires expirationDate.Valid() && now.Valid()
    ensures AllCardMessages(CardNumberErrors(cardNumber))
    ensures AllCardMessages(CardHolderNameErrors(cardHolderName))
    ensures AllCardMessages(ExpirationDateErrors(expirationDate, now))
    ensures AllCardMessages(CvvErrors(cvv))
  {
  }

  /** Every message `Create` reports is one of the card messages. */
  lemma CreateErrorsAreCardMessages(cardNumber: Option<string>, cardHolderName: Option<string>,
                                    expirationDate: DateTime, cvv: Option<string>, now: DateTime)
    requires expirationDate.Valid() && now.Valid()
    ensures forall m :: m in CreateErrors(cardNumber, cardHolderName, expirationDate, cvv, now) ==>
                          IsCardMessage(m)
  {
    var a := CardNumberErrors(NormalizeCardNumber(cardNumber));
    var b := CardHolderNameErrors(TrimOrNull(cardHolderName));
    var c := ExpirationDateErrors(expirationDate, now);
    var d := CvvErrors(TrimOrNull(cvv));
    ValidatorMessages(NormalizeCardNumber(cardNumber), TrimOrNull(cardHolderName),
                      expirationDate, TrimOrNull(cvv), now);
    AllCardMessagesOfFour(a, b, c, d);
  }

  /** A number made of digits only is its own normal form. */
  lemma NormalizeDigits(s: string)
    ensures AllDigits(s) && s != [] ==> NormalizeCardNumber(Some(s)) == s
  {
    DigitsAreNotBlank(s);
    if AllDigits(s) && s != [] {
      assert ' ' !in s && '-' !in s;
      WithoutAbsent(s, ' ');
      WithoutAbsent(s, '-');
    }
  }

  /** A number without spaces and hyphens, not blank, is its own normal form. */
  lemma NormalizeUnseparated(s: string)
    ensures ' ' !in s && '-' !in s && !IsBlank(s) ==> NormalizeCardNumber(Some(s)) == s
  {
    if ' ' !in s && '-' !in s {
      WithoutAbsent(s, ' ');
      WithoutAbsent(s, '-');
    }
  }

  /** Stripping a separator followed by a group of digits leaves the digits. */
  lemma StripGroup(p: string, sep: char, g: string)
    requires sep in " -" && AllDigits(g)
    ensures StripSeparators(p + [sep] + g) == StripSeparators(p) + g
  {
    assert StripSeparators([sep]) == [] by {
      assert [sep][1..] == [];
    }
    assert StripSeparators(g) == g by {
      WithoutAbsent(g, ' ');
      WithoutAbsent(g, '-');
    }
    StripSeparatorsAppend(p + [sep], g);
    StripSeparatorsAppend(p, [sep]);
  }

  /** Four groups of digits joined by spaces or hyphens normalise to the
      digits alone. */
  lemma NormalizeGroups(g1: string, g2: string, g3: string, g4: string,
                        s1: char, s2: char, s3: char)
    requires s1 in " -" && s2 in " -" && s3 in " -"
    requires g1 != [] && AllDigits(g1) && AllDigits(g2) && AllDigits(g3) && AllDigits(g4)
    ensures NormalizeCardNumber(Some(g1 + [s1] + g2 + [s2] + g3 + [s3] + g4)) == g1 + g2 + g3 + g4
  {
    var printed := g1 + [s1] + g2 + [s2] + g3 + [s3] + g4;
    assert !IsBlank(printed) by {
      assert printed[0] == g1[0];
    }
    assert StripSeparators(g1) == g1 by {
      WithoutAbsent(g1, ' ');
      WithoutAbsent(g1, '-');
    }
    StripGroup(g1, s1, g2);
    StripGroup(g1 + [s1] + g2, s2, g3);
    StripGroup(g1 + [s1] + g2 + [s2] + g3, s3, g4);
  }
}
