/** The Payment aggregate and its factory CreateBRLCreditCardPayment: money is
    built first, then the card, then the description is checked; the first
    collaborator that fails decides the result with its own errors. The fresh
    identifier (`Guid.NewGuid()`) and the creation instant (`DateTime.UtcNow`)
    are parameters. */
module Payments {
  import opened Results
  import opened Calendar
  import opened Currency
  import Cards = CreditCard

  /** A 128-bit identifier. */
  newtype Guid = n: int | 0 <= n < 0x1_0000_0000_0000_0000_0000_0000_0000_0000

  datatype PaymentType = CreditCard | Debit | Pix

  /** PixDetails: two optional strings, never validated. */
  datatype PixDetails = PixDetails(pixKey: Option<string>, description: Option<string>)

  /** The payment-method variant a Payment holds. */
  datatype PaymentMethod = Card(card: Cards.CreditCardDetails) | PixMethod(pix: PixDetails)

  datatype Payment = Payment(id: Guid, money: Money, description: Option<string>,
                             paymentType: PaymentType, createdAt: DateTime,
                             paymentDetails: PaymentMethod)

  const DescriptionInvalid := "Payment description is invalid"
  const MinDescriptionLength := 5
  const MaxDescriptionLength := 50

  /** C#'s lifted `a < b` on `int?`: false when `a` is null. */
  predicate LiftedLess(a: Option<int>, b: int) {
    a.Some? && a.value < b
  }

  /** C#'s lifted `a > b` on `int?`: false when `a` is null. */
  predicate LiftedGreater(a: Option<int>, b: int) {
    a.Some? && a.value > b
  }

  /** `description?.Length`. */
  function LengthOrNull(description: Option<string>): Option<int> {
    if description.Some? then Some(|description.value|) else None
  }

  /** The factory's test: `description == string.Empty || description?.Length < 5
      || description?.Length > 50`. */
  predicate DescriptionRejected(description: Option<string>): (rejected: bool)
    ensures rejected <==> description.Some? &&
                          !(MinDescriptionLength <= |description.value| <= MaxDescriptionLength)
  {
    description == Some("") || LiftedLess(LengthOrNull(description), MinDescriptionLength) ||
    LiftedGreater(LengthOrNull(description), MaxDescriptionLength)
  }

  /** What that test accepts: no description at all, or 5 to 50 characters. */
  predicate DescriptionAccepted(description: Option<string>) {
    description.None? || MinDescriptionLength <= |description.value| <= MaxDescriptionLength
  }

  lemma DescriptionRule(description: Option<string>)
    ensures DescriptionRejected(description) <==> !DescriptionAccepted(description)
    ensures !DescriptionRejected(None) && DescriptionRejected(Some(""))
  {
  }

  /** `Payment.CreateBRLCreditCardPayment`. `now` is the instant the card's
      expiry is checked against; `id` and `createdAt` are what `Guid.NewGuid()`
      and `DateTime.UtcNow` return when the payment is built. */
  function CreateBRLCreditCardPayment(amount: real, description: Option<string>,
                                      cardNumber: Option<string>, cardHolderName: Option<string>,
                                      expirationDate: DateTime, cvv: Option<string>,
                                      now: DateTime, id: Guid, createdAt: DateTime)
    : (r: Result<Payment>)
    requires expirationDate.Valid() && now.Valid()
    // money first: a bad amount decides the result, whatever the other inputs
    ensures amount <= 0.0 ==> r == Fail([AmountMustBePositive])
    // then the card, with all of its own errors
    ensures amount > 0.0 && !Cards.Create(cardNumber, cardHolderName, expirationDate, cvv, now).Ok? ==>
            r == Fail(Cards.CreateErrors(cardNumber, cardHolderName, expirationDate, cvv, now))
    // then the description
    ensures (amount > 0.0 && Cards.Create(cardNumber, cardHolderName, expirationDate, cvv, now).Ok? &&
             !DescriptionAccepted(description)) ==> r == Fail([DescriptionInvalid])
    ensures r.Ok? <==> amount > 0.0 && DescriptionAccepted(description) &&
                       Cards.CardNumberAccepted(cardNumber) &&
                       Cards.CardHolderNameAccepted(cardHolderName) &&
                       Cards.ExpirationDateAccepted(expirationDate, now) &&
                       Cards.CvvAccepted(cvv)
    ensures r.Ok? ==>
              r.value == Payment(id, NewBRL(amount), description, PaymentType.CreditCard, createdAt,
                                 Card(Cards.Create(cardNumber, cardHolderName, expirationDate, cvv, now).value))
  {
    var brlMoneyResult := CreateBRL(amount);
    if brlMoneyResult.Fail? then Fail(brlMoneyResult.errors)
    else
      var cardDetailsResult := Cards.Create(cardNumber, cardHolderName, expirationDate, cvv, now);
      if cardDetailsResult.Fail? then Fail(cardDetailsResult.errors)
      else
        DescriptionRule(description);
        if DescriptionRejected(description) then Fail([DescriptionInvalid])
        else Ok(Payment(id, brlMoneyResult.value, description, PaymentType.CreditCard, createdAt,
                        Card(cardDetailsResult.value)))
  }

  /** What every Payment the factory builds satisfies at the instant `now` its
      card was checked: a positive BRL amount, an accepted description, a
      payment type matching the method it holds, and a valid card. */
  predicate Valid(p: Payment, now: DateTime)
    requires now.Valid()
  {
    p.money.amount > 0.0 && p.money.currency == BRL && DescriptionAccepted(p.description) &&
    (p.paymentType == PaymentType.CreditCard <==> p.paymentDetails.Card?) &&
    (p.paymentType == PaymentType.Pix <==> p.paymentDetails.PixMethod?) &&
    (p.paymentDetails.Card? ==> p.paymentDetails.card.Valid(now))
  }

  lemma CreatedPaymentValid(amount: real, description: Option<string>,
                            cardNumber: Option<string>, cardHolderName: Option<string>,
                            expirationDate: DateTime, cvv: Option<string>,
                            now: DateTime, id: Guid, createdAt: DateTime)
    requires expirationDate.Valid() && now.Valid()
    ensures var r := CreateBRLCreditCardPayment(amount, description, cardNumber, cardHolderName,
                                                expirationDate, cvv, now, id, createdAt);
            r.Ok? ==> Valid(r.value, now)
  {
  }

  /** A failure carries the errors of one stage only, and at least one: the
      money error alone, card errors alone, or the description error alone. */
  lemma ErrorsFromOneStage(amount: real, description: Option<string>,
                           cardNumber: Option<string>, cardHolderName: Option<string>,
                           expirationDate: DateTime, cvv: Option<string>,
                           now: DateTime, id: Guid, createdAt: DateTime)
    requires expirationDate.Valid() && now.Valid()
    ensures !Cards.IsCardMessage(AmountMustBePositive) && !Cards.IsCardMessage(DescriptionInvalid)
    ensures var r := CreateBRLCreditCardPayment(amount, description, cardNumber, cardHolderName,
                                                expirationDate, cvv, now, id, createdAt);
            r.Fail? ==> r.errors != [] &&
                        (r.errors == [AmountMustBePositive] || r.errors == [DescriptionInvalid] ||
                         forall m :: m in r.errors ==> Cards.IsCardMessage(m))
  {
    StageMessagesDistinct();
    var card := Cards.Create(cardNumber, cardHolderName, expirationDate, cvv, now);
    if amount > 0.0 && card.Fail? {
      Cards.CreateErrorsAreCardMessages(cardNumber, cardHolderName, expirationDate, cvv, now);
      assert card.errors == Cards.CreateErrors(cardNumber, cardHolderName, expirationDate, cvv, now);
    }
  }

  /** The money and description messages are not card messages. */
  lemma StageMessagesDistinct()
    ensures !Cards.IsCardMessage(AmountMustBePositive) && !Cards.IsCardMessage(DescriptionInvalid)
  {
    assert |AmountMustBePositive| == 23 && |DescriptionInvalid| == 30;
    assert |Cards.CardNumberRequired| == 24 && |Cards.CardHolderNameRequired| == 29;
    assert |Cards.ExpirationDateRequired| == 28 && |Cards.CvvRequired| == 16;
    assert |Cards.ExpirationDatePast| == 38;
    assert |Cards.CardNumberInvalid| > 30 && |Cards.CardHolderNameInvalid| > 30;
    assert |Cards.CvvInvalid| > 30;
  }

  /** The identifier and the creation instant are stored as given and
      influence nothing else. */
  lemma IdentityAndClockOnlyStored(amount: real, description: Option<string>,
                                   cardNumber: Option<string>, cardHolderName: Option<string>,
                                   expirationDate: DateTime, cvv: Option<string>, now: DateTime,
                                   id1: Guid, createdAt1: DateTime, id2: Guid, createdAt2: DateTime)
    requires expirationDate.Valid() && now.Valid()
    ensures var r1 := CreateBRLCreditCardPayment(amount, description, cardNumber, cardHolderName,
                                                 expirationDate, cvv, now, id1, createdAt1);
            var r2 := CreateBRLCreditCardPayment(amount, description, cardNumber, cardHolderName,
                                                 expirationDate, cvv, now, id2, createdAt2);
            r1.Ok? == r2.Ok? && (r1.Fail? ==> r1 == r2) &&
            (r1.Ok? ==> r1.value.id == id1 && r1.value.createdAt == createdAt1 &&
                        r2.value == r1.value.(id := id2, createdAt := createdAt2))
  {
  }
}
