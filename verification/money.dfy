/** Money, DefaultMoneyBehaviour, BRL and USD: a currency-tagged decimal amount,
    the factories that refuse amounts that are not positive, and the display
    form "<tag> <amount rounded half-to-even, fixed decimals>". A C# `decimal`
    is exact base-10, so the amount is a `real`. */
module Currency {
  import opened Results
  import opened Text

  datatype CurrencyType = USD | BRL

  /** A DefaultMoneyBehaviour record: the amount and currency of the base
      Money record, the display tag and the number of decimals shown. */
  datatype Money = Money(amount: real, currency: CurrencyType, moneyTag: string, decimals: nat)

  const AmountMustBePositive := "Amount must be positive"
  const BrlTag := "R$"
  const UsdTag := "US$"

  /** `new BRL(amount)`. */
  function NewBRL(amount: real): (m: Money)
    ensures m.amount == amount && m.currency == BRL
    ensures m.moneyTag == "R$" && m.decimals == 2
  {
    Money(amount, BRL, BrlTag, 2)
  }

  /** `new USD(amount)`. */
  function NewUSD(amount: real): (m: Money)
    ensures m.amount == amount && m.currency == USD
    ensures m.moneyTag == "US$" && m.decimals == 2
  {
    Money(amount, USD, UsdTag, 2)
  }

  /** `BRL.Create`: fails with the one message when the amount is not
      positive, and otherwise keeps the amount exactly. */
  function CreateBRL(amount: real): (r: Result<Money>)
    ensures r.Fail? <==> amount <= 0.0
    ensures r.Fail? ==> r.errors == [AmountMustBePositive]
    ensures r.Ok? ==> r.value == NewBRL(amount) && r.value.amount > 0.0
  {
    if amount <= 0.0 then Fail([AmountMustBePositive]) else Ok(NewBRL(amount))
  }

  /** `USD.Create`: as `CreateBRL`, in dollars. */
  function CreateUSD(amount: real): (r: Result<Money>)
    ensures r.Fail? <==> amount <= 0.0
    ensures r.Fail? ==> r.errors == [AmountMustBePositive]
    ensures r.Ok? ==> r.value == NewUSD(amount) && r.value.amount > 0.0
  {
    if amount <= 0.0 then Fail([AmountMustBePositive]) else Ok(NewUSD(amount))
  }

  // ---------------------------------------------------------------------------
  // Math.Round(decimal, int): round half to even

  /** `k` is an integer nearest to `x`, and the even one on a tie. */
  predicate IsNearestEven(k: int, x: real) {
    -0.5 <= k as real - x <= 0.5 &&
    ((k as real - x == 0.5 || k as real - x == -0.5) ==> k % 2 == 0)
  }

  /** At most one integer is nearest to `x` with ties to even. */
  lemma NearestEvenUnique(k1: int, k2: int, x: real)
    requires IsNearestEven(k1, x) && IsNearestEven(k2, x)
    ensures k1 == k2
  {
  }

  /** `Math.Round(x, decimals)` in units of 10^-decimals (MidpointRounding.ToEven). */
  function RoundHalfEven(x: real, decimals: nat): (k: int)
    ensures IsNearestEven(k, x * Pow10(decimals) as real)
  {
    var scaled := x * Pow10(decimals) as real;
    var n := scaled.Floor;
    var rest := scaled - n as real;
    if rest < 0.5 then n
    else if rest > 0.5 then n + 1
    else if n % 2 == 0 then n
    else n + 1
  }

  // ---------------------------------------------------------------------------
  // ToString("F<decimals>", CultureInfo.InvariantCulture)

  function Abs(n: int): nat {
    if n < 0 then -n else n
  }

  /** `body` is the unsigned fixed-point form of magnitude x 10^-decimals:
      a whole part without superfluous leading zeros, and when `decimals` > 0
      a '.' followed by exactly `decimals` digits; all the digits together
      spell `magnitude`. */
  predicate Unsigned(body: string, magnitude: nat, decimals: nat) {
    if decimals == 0 then
      IsCanonical(body) && DigitsValue(body) == magnitude
    else
      |body| >= decimals + 2 &&
      var point := |body| - decimals - 1;
      body[point] == '.' && IsCanonical(body[..point]) && AllDigits(body[point + 1..]) &&
      AllDigits(body[..point] + body[point + 1..]) &&
      DigitsValue(body[..point] + body[point + 1..]) == magnitude
  }

  /** `text` is the fixed-point form of units x 10^-decimals: a '-' exactly
      when negative, then the unsigned form of |units|. */
  predicate Denotes(text: string, units: int, decimals: nat) {
    var negative := |text| > 0 && text[0] == '-';
    negative == (units < 0) && Unsigned(if negative then text[1..] else text, Abs(units), decimals)
  }

  /** The invariant-culture "F" format of magnitude x 10^-decimals, unsigned. */
  function UnsignedFormat(magnitude: nat, decimals: nat): string {
    DivModBounds(magnitude, Pow10(decimals));
    var whole := NatToString(magnitude / Pow10(decimals));
    if decimals == 0 then whole
    else whole + "." + FixedDigits(magnitude % Pow10(decimals), decimals)
  }

  lemma DivModBounds(n: nat, p: nat)
    requires p >= 1
    ensures n / p >= 0 && 0 <= n % p < p
    ensures n == (n / p) * p + n % p
  {
  }

  lemma WholeAndFraction(whole: string, fraction: string, magnitude: nat, decimals: nat)
    requires decimals > 0
    requires IsCanonical(whole) && |fraction| == decimals && AllDigits(fraction)
    requires DigitsValue(whole) * Pow10(decimals) + DigitsValue(fraction) == magnitude
    ensures Unsigned(whole + "." + fraction, magnitude, decimals)
  {
    var body := whole + "." + fraction;
    var point := |body| - decimals - 1;
    assert body[..point] == whole && body[point + 1..] == fraction;
    DigitsValueAppend(whole, fraction);
  }

  lemma UnsignedFormatDenotes(magnitude: nat, decimals: nat)
    ensures Unsigned(UnsignedFormat(magnitude, decimals), magnitude, decimals)
    ensures IsDigit(UnsignedFormat(magnitude, decimals)[0])
  {
    DivModBounds(magnitude, Pow10(decimals));
    var whole := NatToString(magnitude / Pow10(decimals));
    if decimals == 0 {
      assert magnitude / Pow10(0) == magnitude;
    } else {
      var fraction := FixedDigits(magnitude % Pow10(decimals), decimals);
      WholeAndFraction(whole, fraction, magnitude, decimals);
      assert (whole + "." + fraction)[0] == whole[0];
    }
  }

  /** The invariant-culture "F<decimals>" format of units x 10^-decimals: the
      text reads back as that number, with exactly `decimals` digits after
      the point. */
  function FormatFixed(units: int, decimals: nat): (s: string)
    ensures Denotes(s, units, decimals)
  {
    var body := UnsignedFormat(Abs(units), decimals);
    UnsignedFormatDenotes(Abs(units), decimals);
    var s := (if units < 0 then "-" else "") + body;
    assert units < 0 ==> s[1..] == body;
    assert units >= 0 ==> s == body;
    s
  }

  lemma {:induction false} MulAtLeast(k: int, p: int)
    requires k >= 1 && p >= 0
    ensures k * p >= p
  {
    if k > 1 {
      MulAtLeast(k - 1, p);
      assert k * p == (k - 1) * p + p;
    }
  }

  /** Whole part and remainder below `p` are determined by their sum. */
  lemma PlaceValueUnique(a: nat, x: nat, b: nat, y: nat, p: nat)
    requires x < p && y < p && a * p + x == b * p + y
    ensures a == b && x == y
  {
    if a < b {
      MulAtLeast(b - a, p);
    } else if b < a {
      MulAtLeast(a - b, p);
    }
  }

  /** A whole part and a fraction of known width are determined by the
      number their digits spell together. */
  lemma WholeAndFractionUnique(w1: string, f1: string, w2: string, f2: string, decimals: nat)
    requires IsCanonical(w1) && IsCanonical(w2)
    requires AllDigits(f1) && AllDigits(f2) && |f1| == decimals && |f2| == decimals
    requires AllDigits(w1 + f1) && AllDigits(w2 + f2)
    requires DigitsValue(w1 + f1) == DigitsValue(w2 + f2)
    ensures w1 == w2 && f1 == f2
  {
    DigitsValueAppend(w1, f1);
    DigitsValueAppend(w2, f2);
    DigitsValueBound(f1);
    DigitsValueBound(f2);
    PlaceValueUnique(DigitsValue(w1), DigitsValue(f1), DigitsValue(w2), DigitsValue(f2),
                     Pow10(decimals));
    CanonicalUnique(w1, w2);
    FixedLengthUnique(f1, f2);
  }

  lemma UnsignedUnique(b1: string, b2: string, magnitude: nat, decimals: nat)
    requires Unsigned(b1, magnitude, decimals) && Unsigned(b2, magnitude, decimals)
    ensures b1 == b2
  {
    if decimals == 0 {
      CanonicalUnique(b1, b2);
    } else {
      var p1, p2 := |b1| - decimals - 1, |b2| - decimals - 1;
      WholeAndFractionUnique(b1[..p1], b1[p1 + 1..], b2[..p2], b2[p2 + 1..], decimals);
      assert b1 == b1[..p1] + [b1[p1]] + b1[p1 + 1..];
      assert b2 == b2[..p2] + [b2[p2]] + b2[p2 + 1..];
    }
  }

  /** The fixed-point form of a number is unique: at most one text denotes
      it, so `Denotes` fixes the formatted text completely. */
  lemma DenotesUnique(t1: string, t2: string, units: int, decimals: nat)
    requires Denotes(t1, units, decimals) && Denotes(t2, units, decimals)
    ensures t1 == t2
  {
    if units < 0 {
      UnsignedUnique(t1[1..], t2[1..], Abs(units), decimals);
      assert t1 == [t1[0]] + t1[1..] && t2 == [t2[0]] + t2[1..];
    } else {
      UnsignedUnique(t1, t2, Abs(units), decimals);
    }
  }

  /** `DefaultMoneyBehaviour.ToString`: the tag, one space, and the amount
      rounded half-to-even to `decimals` places in fixed notation. */
  function ToString(m: Money): (s: string)
    requires m.decimals <= 28
    ensures |s| > |m.moneyTag| + 1 && s[..|m.moneyTag| + 1] == m.moneyTag + " "
    ensures Denotes(s[|m.moneyTag| + 1..], RoundHalfEven(m.amount, m.decimals), m.decimals)
  {
    var rounded := RoundHalfEven(m.amount, m.decimals);
    var prefix := m.moneyTag + " ";
    var s := prefix + FormatFixed(rounded, m.decimals);
    assert s[..|prefix|] == prefix && s[|prefix|..] == FormatFixed(rounded, m.decimals);
    s
  }

  /** With two decimals the shown value is within half a cent of the amount,
      and a tie goes to the even cent. */
  lemma ShownWithinHalfCent(m: Money)
    requires m.decimals == 2
    ensures var cents := RoundHalfEven(m.amount, 2);
            -0.005 <= cents as real / 100.0 - m.amount <= 0.005 &&
            ((cents as real / 100.0 - m.amount == 0.005 ||
              cents as real / 100.0 - m.amount == -0.005) ==> cents % 2 == 0)
  {
    var cents := RoundHalfEven(m.amount, 2);
    assert Pow10(2) == 100;
  }

  /** The BRL case of the unit tests: 10.239 shows as "R$ 10.24". */
  lemma BrlExample()
    ensures ToString(NewBRL(10.239)) == "R$ 10.24"
  {
    assert Pow10(2) == 100;
    assert (10.239 * 100.0).Floor == 1023;
    assert RoundHalfEven(10.239, 2) == 1024;
    assert NatToString(10) == "10" by { assert NatToString(1) == "1"; }
    assert FixedDigits(24, 2) == "24" by { assert FixedDigits(2, 1) == "2"; }
    assert UnsignedFormat(1024, 2) == "10" + "." + "24";
  }

  /** The USD case of the unit tests: 20.125, a tie, shows as "US$ 20.12". */
  lemma UsdExample()
    ensures ToString(NewUSD(20.125)) == "US$ 20.12"
  {
    assert Pow10(2) == 100;
    assert (20.125 * 100.0).Floor == 2012;
    assert RoundHalfEven(20.125, 2) == 2012;
    assert NatToString(20) == "20" by { assert NatToString(2) == "2"; }
    assert FixedDigits(12, 2) == "12" by { assert FixedDigits(1, 1) == "1"; }
    assert UnsignedFormat(2012, 2) == "20" + "." + "12";
  }
}
