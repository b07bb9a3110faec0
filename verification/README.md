# Payments domain: card details, money and the credit-card payment factory

A Dafny model of the domain validation layer of a small C# payments service.
It has three cooperating parts.

- **CreditCardDetails** (`credit_card_details.dfy`, module `CreditCard`).
  - `Create` normalises the card number: null or whitespace-only input becomes empty; otherwise every space and hyphen is removed.
  - It trims the holder name and the CVV.
  - It runs four validators in a fixed order. Each adds at most one message to a single error list.
  - It builds the value only when that list is empty.
  - The expiry rule compares 23:59:59 on the last day of the expiry month with the current instant.
- **Money, BRL and USD** (`money.dfy`, module `Currency`).
  - The `Create` factories refuse amounts that are not positive.
  - `ToString` writes the tag, one space, and the amount rounded half-to-even to two places. The amount is printed in fixed notation with the invariant '.' separator.
- **Payment.CreateBRLCreditCardPayment** (`payment.dfy`, module `Payments`).
  - It builds the BRL money first, then the card details, then checks the description.
  - The first stage that fails decides the result, with that stage's own errors.
  - Otherwise it builds a credit-card payment holding the normalised card.

Supporting modules:

- `results.dfy`: `Option` and `Result`.
- `text.dfy`: .NET's whitespace set, `Trim`, `IsNullOrWhiteSpace`, digits, character removal and decimal numerals.
- `calendar.dfy`: the part of `System.DateTime` the expiry rule needs:
  - the components and the tick count;
  - `DaysInMonth`;
  - `default(DateTime)`;
  - `<`.
- `examples.dfy`: the repository's unit-test cases, stated on a fixed clock.

Types follow C#:

- A nullable `string` is `Option<string>`.
- A `decimal` is a `real`, which is exact like base-10 `decimal`.
- A `Guid` is a 128-bit number.
- A `DateTime` is its components, ordered by ticks.

`Validate` and the four `Validate*` methods append to one list step by step, so they are Dafny methods that thread a `seq<string>`. Each is proved to compute a specification function (`ValidationErrors`, `CardNumberErrors`, …), and the rest of the model reasons about those functions. Everything else is pure and is modelled as functions.

The clock and the identifier generator are parameters:

- `now` is the `DateTime.UtcNow` read by the expiry check.
- `id` is `Guid.NewGuid()`.
- `createdAt` is the `DateTime.UtcNow` read when the payment is built.

## Model

| member | source | states |
|---|---|---|
| Text.Trim | src/Domain/ValueObjects/CreditCardDetails.cs:36-37 | `x.Trim()` gives a string that neither starts nor ends with whitespace and is no longer than the input; it is empty exactly when the input is blank |
| Text.TrimSplits | src/Domain/ValueObjects/CreditCardDetails.cs:36-37 | trimming removes only whitespace, only at the two ends: the input is the blank prefix, the result and the blank suffix, in order |
| Text.TrimIdempotent | src/Domain/ValueObjects/CreditCardDetails.cs:36-37 | trimming a trimmed string changes nothing |
| Text.Without | src/Domain/ValueObjects/CreditCardDetails.cs:55 | `Replace(c, "")` leaves no `c` and keeps every other character with its multiplicity |
| Text.IsNullOrWhiteSpace | src/Domain/ValueObjects/CreditCardDetails.cs:53 | `string.IsNullOrWhiteSpace` (also the tests at lines 73, 88 and 126) holds exactly for null or for a string that is empty once trimmed |
| Calendar.DaysInMonth | src/Domain/ValueObjects/CreditCardDetails.cs:109-116 | `DateTime.DaysInMonth` is 28 to 31; February has 29 days exactly in Gregorian leap years; April, June, September and November have 30; the other months have 31 |
| Calendar.TicksOrder | src/Domain/ValueObjects/CreditCardDetails.cs:118 | for valid dates, fewer ticks is exactly the calendar order of year, month, day, hour, minute, second and fraction; equal ticks mean equal dates |
| Calendar.Before | src/Domain/ValueObjects/CreditCardDetails.cs:118 | the `<` of `DateTime` compares ticks, and on valid dates it holds exactly when the first date comes earlier in calendar order |
| CreditCard.StripSeparators | src/Domain/ValueObjects/CreditCardDetails.cs:55 | the two `Replace` calls leave no space or hyphen and keep every other character with its multiplicity |
| CreditCard.NormalizeCardNumber | src/Domain/ValueObjects/CreditCardDetails.cs:52-55 | the result holds no space or hyphen; it is empty for null or whitespace-only input; otherwise it is the input with exactly those two characters removed |
| CreditCard.SeparatorsIgnored | src/Domain/ValueObjects/CreditCardDetails.cs:52-55 | inserting a space or hyphen anywhere in a non-blank number does not change its normal form |
| CreditCard.NormalizeGroups | src/Domain/ValueObjects/CreditCardDetails.cs:52-55 | four digit groups joined by spaces or hyphens normalise to the concatenated digits |
| CreditCard.NormalizeStable | src/Domain/ValueObjects/CreditCardDetails.cs:52-55 | a normalised number that is not blank is a fixed point of normalisation |
| CreditCard.NormalizeNotIdempotent | src/Domain/ValueObjects/CreditCardDetails.cs:52-55 | normalisation is not idempotent in general: TAB-hyphen normalises to a lone TAB, which normalises to the empty string |
| CreditCard.NormalizeDigits | src/Domain/ValueObjects/CreditCardDetails.cs:52-55 | a non-empty all-digit number is its own normal form |
| CreditCard.CardNumberErrors | src/Domain/ValueObjects/CreditCardDetails.cs:71-84 | the number is accepted iff it is all digits with length in [13, 19]; otherwise exactly one message: "required" when blank, the format message otherwise |
| CreditCard.CardHolderNameErrors | src/Domain/ValueObjects/CreditCardDetails.cs:86-99 | the name is accepted iff it is present, not blank and 2 to 100 characters long; otherwise exactly one message: "required" when null or blank, the length message otherwise |
| CreditCard.ExpirationLimit | src/Domain/ValueObjects/CreditCardDetails.cs:109-116 | the limit is a valid date in the same year and month as the expiration date |
| CreditCard.ExpirationDateErrors | src/Domain/ValueObjects/CreditCardDetails.cs:101-122 | the date is accepted iff it is not `default(DateTime)` and 23:59:59 on the last day of its month is not before `now`; otherwise exactly one message: "required" for the default date (no expiry check), "in the past" otherwise |
| CreditCard.CvvErrors | src/Domain/ValueObjects/CreditCardDetails.cs:124-135 | the CVV is accepted iff it is present, all digits and 3 or 4 long; otherwise exactly one message: "required" when null or blank, the format message otherwise |
| CreditCard.ValidateCardNumber | src/Domain/ValueObjects/CreditCardDetails.cs:71-84 | appends exactly the card-number messages to the list it is given |
| CreditCard.ValidateCardHolderName | src/Domain/ValueObjects/CreditCardDetails.cs:86-99 | appends exactly the holder-name messages to the list it is given |
| CreditCard.ValidateExpirationDate | src/Domain/ValueObjects/CreditCardDetails.cs:101-122 | appends exactly the expiration messages to the list it is given |
| CreditCard.ValidateCvv | src/Domain/ValueObjects/CreditCardDetails.cs:124-135 | appends exactly the CVV messages to the list it is given |
| CreditCard.Validate | src/Domain/ValueObjects/CreditCardDetails.cs:57-69 | the list is the four validators' messages concatenated in the order number, holder name, expiration, CVV |
| CreditCard.TrimOrNull | src/Domain/ValueObjects/CreditCardDetails.cs:36-37 | `x?.Trim()` is null exactly when `x` is; otherwise it is `Trim(x)`, which is trimmed and empty exactly when `x` is blank |
| CreditCard.Create | src/Domain/ValueObjects/CreditCardDetails.cs:29-50 | success iff every field passes its rule after normalisation; a failure carries the validators' list of 1 to 4 messages; a success holds the normalised number, trimmed name, unchanged date and trimmed CVV, and satisfies the card invariant at `now` |
| CreditCard.ValidationErrorsOrdered | src/Domain/ValueObjects/CreditCardDetails.cs:63-68 | at most four messages, with fields strictly ascending: number, holder name, expiration, CVV |
| CreditCard.ValidatorsIndependent | src/Domain/ValueObjects/CreditCardDetails.cs:63-68 | no validator suppresses another: the messages about each field are exactly that field's validator's messages, whatever the other fields hold |
| CreditCard.LimitIsLastSecond | src/Domain/ValueObjects/CreditCardDetails.cs:109-118 | within the expiry month, an instant is after the limit only in the last second of the last day, past its first tick |
| CreditCard.ExpirationByMonth | src/Domain/ValueObjects/CreditCardDetails.cs:101-122 | a card expiring in an earlier month than `now` is rejected and one in a later month accepted; in the current month it is accepted until 23:59:59 on the last day |
| CreditCard.CreateErrorsAreCardMessages | src/Domain/ValueObjects/CreditCardDetails.cs:29-50 | every message `Create` reports is one of the eight card messages |
| Currency.NewBRL | src/Domain/ValueObjects/Money.cs:44-47 | `new BRL(a)` keeps `a` exactly, with currency BRL, tag "R$" and 2 decimals |
| Currency.NewUSD | src/Domain/ValueObjects/Money.cs:59-62 | `new USD(a)` keeps `a` exactly, with currency USD, tag "US$" and 2 decimals |
| Currency.CreateBRL | src/Domain/ValueObjects/Money.cs:51-53 | fails iff the amount is ≤ 0, with exactly "Amount must be positive"; otherwise the BRL value of that exact amount |
| Currency.CreateUSD | src/Domain/ValueObjects/Money.cs:66-68 | fails iff the amount is ≤ 0, with exactly "Amount must be positive"; otherwise the USD value of that exact amount |
| Currency.RoundHalfEven | src/Domain/ValueObjects/Money.cs:37 | `Math.Round(x, d)` in units of 10^-d is an integer nearest to x·10^d, the even one on a tie |
| Currency.NearestEvenUnique | src/Domain/ValueObjects/Money.cs:37 | the nearest-with-ties-to-even integer is unique, so the rounding is determined |
| Currency.FormatFixed | src/Domain/ValueObjects/Money.cs:38 | the "F<d>" text reads back as the number formatted: '-' exactly for negatives, a whole part without superfluous leading zeros, '.' and exactly d fraction digits |
| Currency.DenotesUnique | src/Domain/ValueObjects/Money.cs:38 | at most one text is the fixed-point form of a number with d decimals, so the read-back property fixes the formatted text completely |
| Currency.ToString | src/Domain/ValueObjects/Money.cs:35-39 | the text is the tag, one space, then the fixed-point form of the amount rounded half-to-even to `Decimals` places; with `DenotesUnique` that text is the only one possible |
| Currency.ShownWithinHalfCent | src/Domain/ValueObjects/Money.cs:37 | with two decimals the shown value differs from the amount by at most 0.005, and a tie goes to the even cent |
| Currency.BrlExample | tests/Domain.UnitTests/MoneyTests.cs:9-17 | `new BRL(10.239m)` shows as "R$ 10.24" |
| Currency.UsdExample | tests/Domain.UnitTests/MoneyTests.cs:20-28 | `new USD(20.125m)` shows as "US$ 20.12" (a tie, rounded to the even cent) |
| Payments.DescriptionRule | src/Domain/Entities/Payment.cs:45-46 | the lifted test rejects exactly the descriptions that are not null and not 5 to 50 long; null passes and "" fails |
| Payments.DescriptionRejected | src/Domain/Entities/Payment.cs:45 | the factory's rejection test (empty, or a lifted length comparison below 5 or above 50, both false for null) holds exactly for a present description whose length is outside 5 to 50 |
| Payments.CreateBRLCreditCardPayment | src/Domain/Entities/Payment.cs:35-53 | a bad amount gives the money error alone; then an invalid card gives the card's whole error list; then a bad description gives the one description message; success iff all three pass, holding the identifier, BRL money of the amount, the description unchanged, type CreditCard, the creation instant and the normalised card |
| Payments.CreatedPaymentValid | src/Domain/Entities/Payment.cs:35-53 | every payment built has a positive BRL amount, an accepted description, a type matching its method and a valid card |
| Payments.ErrorsFromOneStage | src/Domain/Entities/Payment.cs:37-46 | a failure carries at least one error, and its errors come from one stage only: the money message, card messages, or the description message; these message sets are disjoint |
| Payments.StageMessagesDistinct | src/Domain/Entities/Payment.cs:37-46 | the money and description messages are not card messages |
| Payments.IdentityAndClockOnlyStored | src/Domain/Entities/Payment.cs:24-53 | the identifier and creation instant are stored as given and change nothing else in the result |
| Examples.ValidCardCreated | tests/Domain.UnitTests/CreditCardDetailsTests.cs:8-22 | "4111 1111-1111 1111", "John Doe", six months ahead, "123" gives the card "4111111111111111", "John Doe", "123" |
| Examples.LettersNumberRejected | tests/Domain.UnitTests/CreditCardDetailsTests.cs:25-35 | number "ABC" fails with the card-number format message alone |
| Examples.BlankNameRejected | tests/Domain.UnitTests/CreditCardDetailsTests.cs:38-48 | holder name " " fails with the holder-name "required" message alone |
| Examples.ExpiredCardRejected | tests/Domain.UnitTests/CreditCardDetailsTests.cs:51-61 | a date two months back fails with the "in the past" message alone |
| Examples.LetterCvvRejected | tests/Domain.UnitTests/CreditCardDetailsTests.cs:64-74 | CVV "12A" fails with the CVV format message alone |
| Examples.ValidPaymentCreated | tests/Domain.UnitTests/PaymentTests.cs:9-23 | 100 with "Order #123" and a valid card gives a CreditCard payment with BRL 100, that description and the card |
| Examples.InvalidCardPaymentRejected | tests/Domain.UnitTests/PaymentTests.cs:26-38 | with every card field wrong the payment fails with all four card messages, in validator order |

## Left out

- Unicode digits: `char.IsDigit` accepts every Unicode decimal digit, but the model accepts only '0'..'9'. Whitespace follows .NET's `char.IsWhiteSpace` set exactly.
- Strings are sequences of characters. C# strings are UTF-16 code units, so `Length` differs for characters outside the Basic Multilingual Plane.
- `decimal` is a `real`. The model leaves out its range (about ±7.9·10^28), its 28-digit scale limit and the trailing zeros it keeps.
- Currency.ToString: requires `Decimals` ≤ 28, where `Math.Round` would otherwise throw. A negative `Decimals` (where `Math.Round` also throws) and a null `MoneyTag` (printed as "") are both reachable through the public `DefaultMoneyBehaviour` constructor (src/Domain/ValueObjects/Money.cs:29-33), but the model cannot represent them: `decimals` is a `nat` and `moneyTag` a `string`. For a negative amount that rounds to zero, the model writes no '-'; whether .NET shows a sign there is not modelled.
- `DateTimeKind` is ignored. .NET compares `DateTime` by ticks whatever the kind.
- The clock and `Guid.NewGuid()` are parameters (`now`, `createdAt`, `id`). Reading the clock twice, once for the expiry check and once when the payment is built, is two parameters.
- The unit tests' `DateTime.UtcNow.AddMonths(±n)` is replaced by fixed dates: 2025-01-15 10:00 as now, and 2025-07-15 and 2024-11-15 as the two expiration dates. `AddMonths` itself is not modelled.
- The unit tests assert only that some message contains a field name. The examples state the exact result instead.
- The test of the `Money` base record (tests/Domain.UnitTests/MoneyTests.cs:31-37) calls a protected constructor. Money is modelled through the `DefaultMoneyBehaviour` fields only.
- The HTTP endpoint files under src/Api only register routes, and they are not part of this model.
- Pix and debit payments have no factory in the source. `PixDetails` appears only as a variant of the payment method.
- OneOf and FluentResults are replaced by one `Result` datatype. Where the source calls methods those types do not have, the model follows the evident intent:
  - `IsFailed` and `Errors` on a `OneOf` at src/Domain/Entities/Payment.cs:42-43;
  - `CreditCardDetails` used as a `PaymentMethod`;
  - `IsT0` and `AsT0` on a `Result<Payment>` in the tests.

  So a card failure propagates the card's message list.
- `CreditCardValidationErrors` (src/Domain/ValueObjects/CreditCardDetails.cs:139-147) is the error list carried by `Fail`.
