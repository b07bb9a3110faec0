/** The cases of the domain's unit tests, on a fixed clock: the tests read
    `DateTime.UtcNow`, here `now` is 2025-01-15 10:00 and "in six months" and
    "two months ago" are the dates `AddMonths` gives from it. Each fact about a
    literal is proved in a lemma of its own, which takes the literal as a
    parameter so that only that lemma unfolds it; the cases are put together
    from those facts, which keeps every proof small. */
module Examples {
  import opened Results
  import opened Text
  import opened Calendar
  import opened CreditCard
  import opened Currency
  import opened Payments

  const Now := DateTime(2025, 1, 15, 10, 0, 0, 0)
  const InSixMonths := DateTime(2025, 7, 15, 10, 0, 0, 0)
  const TwoMonthsAgo := DateTime(2024, 11, 15, 10, 0, 0, 0)

  /** `Create` succeeds when no validator complains. */
  lemma CreateSucceeds(cardNumber: Option<string>, cardHolderName: Option<string>,
                       expirationDate: DateTime, cvv: Option<string>, now: DateTime,
                       number: string, name: string, code: string)
    requires expirationDate.Valid() && now.Valid()
    requires NormalizeCardNumber(cardNumber) == number && CardNumberErrors(number) == []
    requires TrimOrNull(cardHolderName) == Some(name) && CardHolderNameErrors(Some(name)) == []
    requires ExpirationDateErrors(expirationDate, now) == []
    requires TrimOrNull(cvv) == Some(code) && CvvErrors(Some(code)) == []
    ensures Create(cardNumber, cardHolderName, expirationDate, cvv, now) ==
            Ok(CreditCardDetails(number, name, expirationDate, code))
  {
  }

  /** `Create` fails with the validators' messages, in order. */
  lemma CreateFails(cardNumber: Option<string>, cardHolderName: Option<string>,
                    expirationDate: DateTime, cvv: Option<string>, now: DateTime,
                    e1: seq<string>, e2: seq<string>, e3: seq<string>, e4: seq<string>)
    requires expirationDate.Valid() && now.Valid()
    requires CardNumberErrors(NormalizeCardNumber(cardNumber)) == e1
    requires CardHolderNameErrors(TrimOrNull(cardHolderName)) == e2
    requires ExpirationDateErrors(expirationDate, now) == e3
    requires CvvErrors(TrimOrNull(cvv)) == e4
    requires e1 + e2 + e3 + e4 != []
    ensures Create(cardNumber, cardHolderName, expirationDate, cvv, now) == Fail(e1 + e2 + e3 + e4)
  {
  }

  /** Concatenations of a list with empty lists, stated once for any list so
      that the cases below need not unfold the message texts to see them. */
  lemma OnlyOne(x: seq<string>)
    ensures x + [] + [] + [] == x && [] + x + [] + [] == x
    ensures [] + [] + x + [] == x && [] + [] + [] + x == x
  {
  }

  /** Four one-message lists make the four-message list. */
  lemma AllFour(a: string, b: string, c: string, d: string)
    ensures [a] + [b] + [c] + [d] == [a, b, c, d]
  {
  }

  // ---------------------------------------------------------------------------
  // One lemma per input

  lemma DatesFacts()
    ensures Now.Valid() && InSixMonths.Valid() && TwoMonthsAgo.Valid()
    ensures ExpirationDateErrors(InSixMonths, Now) == []
    ensures ExpirationDateErrors(TwoMonthsAgo, Now) == [ExpirationDatePast]
  {
  }

  lemma NumberFacts(number: string)
    requires number == "4111111111111111"
    ensures NormalizeCardNumber(Some(number)) == number && CardNumberErrors(number) == []
  {
    assert AllDigits(number);
    NormalizeDigits(number);
  }

  lemma PrintedGroups(printed: string, number: string)
    requires printed == "4111 1111-1111 1111" && number == "4111111111111111"
    ensures printed == "4111" + [' '] + "1111" + ['-'] + "1111" + [' '] + "1111"
    ensures number == "4111" + "1111" + "1111" + "1111"
  {
  }

  lemma PrintedNumberFacts(printed: string, number: string)
    requires printed == "4111 1111-1111 1111" && number == "4111111111111111"
    ensures NormalizeCardNumber(Some(printed)) == number
  {
    PrintedGroups(printed, number);
    var g, h := "4111", "1111";
    assert AllDigits(g) && AllDigits(h);
    NormalizeGroups(g, h, h, h, ' ', '-', ' ');
  }

  lemma LettersNumberFacts(number: string)
    requires number == "ABC"
    ensures CardNumberErrors(NormalizeCardNumber(Some(number))) == [CardNumberInvalid]
  {
    assert !IsDigit(number[0]);
    NormalizeUnseparated(number);
  }

  lemma ShortNumberFacts(number: string)
    requires number == "123"
    ensures CardNumberErrors(NormalizeCardNumber(Some(number))) == [CardNumberInvalid]
  {
    assert AllDigits(number);
    NormalizeDigits(number);
  }

  lemma HolderNameFacts(name: string)
    requires name == "John Doe"
    ensures TrimOrNull(Some(name)) == Some(name) && CardHolderNameErrors(Some(name)) == []
  {
    assert name[0] == 'J' && name[|name| - 1] == 'e';
    TrimOfTrimmed(name);
  }

  lemma BlankNameFacts(name: string)
    requires name == " "
    ensures CardHolderNameErrors(TrimOrNull(Some(name))) == [CardHolderNameRequired]
  {
    assert IsWhiteSpace(name[0]);
  }

  lemma CvvFacts(cvv: string)
    requires cvv == "123"
    ensures TrimOrNull(Some(cvv)) == Some(cvv) && CvvErrors(Some(cvv)) == []
  {
    assert IsTrimmed(cvv) by {
      assert cvv[0] == '1' && cvv[|cvv| - 1] == '3';
    }
    TrimOfTrimmed(cvv);
    assert AllDigits(cvv) && |cvv| == 3;
  }

  lemma LetterCvvFacts(cvv: string)
    requires cvv == "12A"
    ensures CvvErrors(TrimOrNull(Some(cvv))) == [CvvInvalid]
  {
    assert !IsWhiteSpace(cvv[0]) && !IsDigit(cvv[2]);
    TrimOfTrimmed(cvv);
  }

  lemma ShortCvvFacts(cvv: string)
    requires cvv == "1"
    ensures CvvErrors(TrimOrNull(Some(cvv))) == [CvvInvalid]
  {
    assert !IsWhiteSpace(cvv[0]);
    TrimOfTrimmed(cvv);
  }

  lemma DescriptionFacts(description: string)
    requires description == "Order #123"
    ensures DescriptionAccepted(Some(description))
  {
    assert |description| == 10;
  }

  // ---------------------------------------------------------------------------
  // CreditCardDetailsTests

  /** Spaces and hyphens are dropped from the number, the rest is kept. */
  lemma ValidCardCreated()
    ensures Create(Some("4111 1111-1111 1111"), Some("John Doe"), InSixMonths, Some("123"), Now) ==
            Ok(CreditCardDetails("4111111111111111", "John Doe", InSixMonths, "123"))
  {
    var printed, number, name, cvv := "4111 1111-1111 1111", "4111111111111111", "John Doe", "123";
    DatesFacts();
    PrintedNumberFacts(printed, number);
    NumberFacts(number);
    HolderNameFacts(name);
    CvvFacts(cvv);
    CreateSucceeds(Some(printed), Some(name), InSixMonths, Some(cvv), Now, number, name, cvv);
  }

  /** A number of letters is reported, and nothing else. */
  lemma LettersNumberRejected()
    ensures Create(Some("ABC"), Some("John Doe"), InSixMonths, Some("123"), Now) ==
            Fail([CardNumberInvalid])
  {
    var number, name, cvv := "ABC", "John Doe", "123";
    DatesFacts();
    LettersNumberFacts(number);
    HolderNameFacts(name);
    CvvFacts(cvv);
    CreateFails(Some(number), Some(name), InSixMonths, Some(cvv), Now, [CardNumberInvalid], [], [], []);
    OnlyOne([CardNumberInvalid]);
  }

  /** A blank holder name is reported as missing, and nothing else. */
  lemma BlankNameRejected()
    ensures Create(Some("4111111111111111"), Some(" "), InSixMonths, Some("123"), Now) ==
            Fail([CardHolderNameRequired])
  {
    var number, name, cvv := "4111111111111111", " ", "123";
    DatesFacts();
    NumberFacts(number);
    BlankNameFacts(name);
    CvvFacts(cvv);
    CreateFails(Some(number), Some(name), InSixMonths, Some(cvv), Now, [], [CardHolderNameRequired], [], []);
    OnlyOne([CardHolderNameRequired]);
  }

  /** A card whose month ended before today is reported, and nothing else. */
  lemma ExpiredCardRejected()
    ensures Create(Some("4111111111111111"), Some("John Doe"), TwoMonthsAgo, Some("123"), Now) ==
            Fail([ExpirationDatePast])
  {
    var number, name, cvv := "4111111111111111", "John Doe", "123";
    DatesFacts();
    NumberFacts(number);
    HolderNameFacts(name);
    CvvFacts(cvv);
    CreateFails(Some(number), Some(name), TwoMonthsAgo, Some(cvv), Now, [], [], [ExpirationDatePast], []);
    OnlyOne([ExpirationDatePast]);
  }

  /** A CVV with a letter is reported, and nothing else. */
  lemma LetterCvvRejected()
    ensures Create(Some("4111111111111111"), Some("John Doe"), InSixMonths, Some("12A"), Now) ==
            Fail([CvvInvalid])
  {
    var number, name, cvv := "4111111111111111", "John Doe", "12A";
    DatesFacts();
    NumberFacts(number);
    HolderNameFacts(name);
    LetterCvvFacts(cvv);
    CreateFails(Some(number), Some(name), InSixMonths, Some(cvv), Now, [], [], [], [CvvInvalid]);
    OnlyOne([CvvInvalid]);
  }

  // ---------------------------------------------------------------------------
  // PaymentTests

  /** An order of 100 with a valid card becomes a BRL credit-card payment
      holding the amount, the description and the normalised card. */
  lemma ValidPaymentCreated(id: Guid)
    ensures CreateBRLCreditCardPayment(100.0, Some("Order #123"), Some("4111111111111111"),
                                       Some("John Doe"), InSixMonths, Some("123"), Now, id, Now) ==
            Ok(Payment(id, NewBRL(100.0), Some("Order #123"), PaymentType.CreditCard, Now,
                       Card(CreditCardDetails("4111111111111111", "John Doe", InSixMonths, "123"))))
  {
    var description, number, name, cvv := "Order #123", "4111111111111111", "John Doe", "123";
    DatesFacts();
    DescriptionFacts(description);
    NumberFacts(number);
    HolderNameFacts(name);
    CvvFacts(cvv);
    CreateSucceeds(Some(number), Some(name), InSixMonths, Some(cvv), Now, number, name, cvv);
  }

  /** The same order with every card field wrong reports all four card
      errors, in the validators' order. */
  lemma InvalidCardPaymentRejected(id: Guid)
    ensures CreateBRLCreditCardPayment(100.0, Some("Order #123"), Some("123"), Some(" "),
                                       TwoMonthsAgo, Some("1"), Now, id, Now) ==
            Fail([CardNumberInvalid, CardHolderNameRequired, ExpirationDatePast, CvvInvalid])
  {
    var description, number, name, cvv := "Order #123", "123", " ", "1";
    DatesFacts();
    ShortNumberFacts(number);
    BlankNameFacts(name);
    ShortCvvFacts(cvv);
    CreateFails(Some(number), Some(name), TwoMonthsAgo, Some(cvv), Now, [CardNumberInvalid],
                [CardHolderNameRequired], [ExpirationDatePast], [CvvInvalid]);
    AllFour(CardNumberInvalid, CardHolderNameRequired, ExpirationDatePast, CvvInvalid);
  }
}
