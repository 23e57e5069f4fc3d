/** Amounts of money in whole cents, and the rounding between them and exact numbers. */
module Monies {
  import opened Common
  import Text

  const CURRENCY_CODE_LENGTH := 3

  predicate IsCode(code: string) {
    |code| == CURRENCY_CODE_LENGTH && forall i :: 0 <= i < |code| ==> 'A' <= code[i] <= 'Z'
  }

  type Currency = code: string | IsCode(code) witness "EUR"

  /** An amount as stored: non-negative whole cents of one currency. */
  datatype Money = Money(cents: nat, currency: Currency)
  {
    function Amount(): real { cents as real / 100.0 }
  }

  datatype MoneyError = InvalidCurrency | NegativeAmount | CurrencyMismatch

  function ValidatedCurrency(value: string): Result<Currency, MoneyError> {
    var code := Text.Upper(Text.Trim(value));
    if IsCode(code) then Ok(code) else Err(InvalidCurrency)
  }

  /** Rounding a non-negative number of cents half-up. */
  function HalfUp(cents: real): int {
    (cents + 0.5).Floor
  }

  /** An amount of a valid currency; the sign is checked before the amount is rounded. */
  function Rounded(amount: real, currency: Currency): Result<Money, MoneyError> {
    if amount < 0.0 then Err(NegativeAmount) else Ok(Money(HalfUp(amount * 100.0), currency))
  }

  function MakeMoney(amount: real, currency: string): Result<Money, MoneyError> {
    match ValidatedCurrency(currency)
    case Err(error) => Err(error)
    case Ok(code) => Rounded(amount, code)
  }

  function Add(m: Money, other: Money): Result<Money, MoneyError> {
    if m.currency != other.currency then Err(CurrencyMismatch)
    else Rounded(m.Amount() + other.Amount(), m.currency)
  }

  function Subtract(m: Money, other: Money): Result<Money, MoneyError> {
    if m.currency != other.currency then Err(CurrencyMismatch)
    else Rounded(m.Amount() - other.Amount(), m.currency)
  }

  function Covers(m: Money, other: Money): Result<bool, MoneyError> {
    if m.currency != other.currency then Err(CurrencyMismatch)
    else Ok(m.Amount() >= other.Amount())
  }

  function Percentage(m: Money, percent: real): Result<Money, MoneyError> {
    Rounded(m.Amount() * percent / 100.0, m.currency)
  }

  /** The share in cents before rounding. */
  function Exact(m: Money, percent: real): real {
    m.cents as real * percent / 100.0
  }

  /** Constructing with a currency that is valid already leaves the currency alone. */
  lemma {:induction false} ValidCurrencyStays(amount: real, currency: Currency)
    ensures MakeMoney(amount, currency) == Rounded(amount, currency)
  {
    assert Text.Trim(currency) == currency;
    assert Text.Upper(currency) == currency;
  }

  lemma {:induction false} WholeCentsStay(cents: int)
    ensures HalfUp(cents as real) == cents
  {
  }

  /** Making money again from its own amount changes nothing. */
  lemma {:induction false} MakingAgainChangesNothing(m: Money)
    ensures MakeMoney(m.Amount(), m.currency) == Ok(m)
  {
    ValidCurrencyStays(m.Amount(), m.currency);
    assert m.Amount() * 100.0 == m.cents as real;
    WholeCentsStay(m.cents);
  }

  /** Money is made of any amount that is not negative and any currency of three letters,
      which are upper-cased; it is within half a cent of the amount, a tie going up. */
  lemma {:induction false} MakesExactly(amount: real, currency: string)
    ensures var code := Text.Upper(Text.Trim(currency));
            var valid := |code| == 3 && forall i :: 0 <= i < 3 ==> 'A' <= code[i] <= 'Z';
            (MakeMoney(amount, currency) == Err(InvalidCurrency) <==> !valid) &&
            (valid ==> (MakeMoney(amount, currency) == Err(NegativeAmount) <==> amount < 0.0)) &&
            (valid && amount >= 0.0 ==>
               MakeMoney(amount, currency).Ok? &&
               var m := MakeMoney(amount, currency).value;
               m.currency == code && m.cents as real - 0.5 <= amount * 100.0 < m.cents as real + 0.5)
  {
    if amount >= 0.0 {
      HalfUpIsNearest(amount * 100.0);
    }
  }

  /** The cents of a sum are the sum of the cents; of a difference, likewise. */
  lemma {:induction false} SumsAreExact(m: Money, other: Money)
    requires m.currency == other.currency
    ensures Add(m, other) == Ok(Money(m.cents + other.cents, m.currency))
    ensures Subtract(m, other) == if m.cents >= other.cents then Ok(Money(m.cents - other.cents, m.currency))
            else Err(NegativeAmount)
  {
    assert (m.Amount() + other.Amount()) * 100.0 == (m.cents + other.cents) as real;
    assert (m.Amount() - other.Amount()) * 100.0 == (m.cents - other.cents) as real;
    WholeCentsStay(m.cents + other.cents);
    WholeCentsStay(m.cents - other.cents);
  }

  /** Subtracting succeeds exactly when the amount covers the other, and undoes adding. */
  lemma {:induction false} SubtractIffCovers(m: Money, other: Money)
    ensures Subtract(m, other).Ok? <==> Covers(m, other) == Ok(true)
    ensures m.currency == other.currency ==>
              Add(m, other).Ok? && Subtract(Add(m, other).value, other) == Ok(m) &&
              Covers(Add(m, other).value, other) == Ok(true)
    ensures m.currency != other.currency ==>
              Add(m, other) == Subtract(m, other) == Err(CurrencyMismatch) && Covers(m, other) == Err(CurrencyMismatch)
  {
    if m.currency == other.currency {
      SumsAreExact(m, other);
      SumsAreExact(Add(m, other).value, other);
    }
  }

  lemma {:induction false} HalfUpIsNearest(x: real)
    ensures HalfUp(x) as real - 0.5 <= x < HalfUp(x) as real + 0.5
  {
  }

  lemma {:induction false} PercentageRounds(m: Money, percent: real)
    ensures Exact(m, percent) >= 0.0 ==>
              Percentage(m, percent).Ok? && Percentage(m, percent).value.cents == HalfUp(Exact(m, percent))
    ensures Exact(m, percent) < 0.0 ==> Percentage(m, percent) == Err(NegativeAmount)
  {
    assert m.Amount() * percent / 100.0 * 100.0 == Exact(m, percent);
  }

  /** A share is refused exactly when it is negative; otherwise it is within half a
      cent of the true value, a tie going up, in the same currency. */
  lemma {:induction false} PercentageIsNearest(m: Money, percent: real)
    ensures Percentage(m, percent).Err? <==> percent < 0.0 && m.cents > 0
    ensures Percentage(m, percent).Ok? ==>
              var share := Percentage(m, percent).value;
              share.currency == m.currency && share.cents as real - 0.5 <= Exact(m, percent) < share.cents as real + 0.5
  {
    PercentageRounds(m, percent);
    HalfUpIsNearest(Exact(m, percent));
    ExactSign(m, percent);
  }

  lemma {:induction false} ExactSign(m: Money, percent: real)
    ensures Exact(m, percent) < 0.0 <==> percent < 0.0 && m.cents > 0
  {
    if m.cents == 0 {
      assert m.cents as real * percent == 0.0;
    } else if percent < 0.0 {
      Product(m.cents as real, -percent);
      assert m.cents as real * percent == -(m.cents as real * -percent);
    } else if percent > 0.0 {
      Product(m.cents as real, percent);
    }
  }

  lemma {:induction false} Product(x: real, y: real)
    requires x > 0.0 && y > 0.0
    ensures x * y > 0.0
  {
  }

  lemma {:induction false} ProductsInOrder(a: real, b: real, p: real, q: real)
    requires 0.0 <= a <= b && 0.0 <= p <= q
    ensures a * p <= b * q
  {
    assert a * p <= a * q by {
      assert a * q - a * p == a * (q - p);
    }
    assert a * q <= b * q by {
      assert b * q - a * q == (b - a) * q;
    }
  }

  /** A larger percentage, of a larger amount, is never a smaller share. */
  lemma {:induction false} PercentageIsMonotone(m: Money, larger: Money, p: real, q: real)
    requires m.cents <= larger.cents && 0.0 <= p <= q
    ensures Percentage(m, p).Ok? && Percentage(larger, q).Ok? &&
            Percentage(m, p).value.cents <= Percentage(larger, q).value.cents
  {
    PercentageRounds(m, p);
    PercentageRounds(larger, q);
    ExactSign(m, p);
    ExactSign(larger, q);
    ProductsInOrder(m.cents as real, larger.cents as real, p, q);
    assert Exact(m, p) <= Exact(larger, q);
  }

  /** The share falls exactly halfway between two cents. */
  predicate Tie(m: Money, percent: real) {
    Exact(m, percent) == Exact(m, percent).Floor as real + 0.5
  }

  lemma {:induction false} ExactSharesAddUp(m: Money, p: real)
    ensures Exact(m, p) + Exact(m, 100.0 - p) == m.cents as real
  {
    assert m.cents as real * p + m.cents as real * (100.0 - p) == m.cents as real * 100.0;
  }

  /** Splitting an amount: the two shares add up to it, or to one cent more exactly
      when they fall on a half-cent tie. */
  lemma {:induction false} SharesAddUp(m: Money, p: real)
    requires 0.0 <= p <= 100.0
    ensures Percentage(m, p).Ok? && Percentage(m, 100.0 - p).Ok?
    ensures Percentage(m, p).value.cents + Percentage(m, 100.0 - p).value.cents == m.cents + if Tie(m, p) then 1 else 0
  {
    PercentageRounds(m, p);
    PercentageRounds(m, 100.0 - p);
    ExactSign(m, p);
    ExactSign(m, 100.0 - p);
    ExactSharesAddUp(m, p);
    ComplementRounds(Exact(m, p), m.cents);
  }

  lemma {:induction false} FloorIs(x: real, k: int)
    requires k as real <= x < k as real + 1.0
    ensures x.Floor == k
  {
  }

  lemma {:induction false} ComplementRounds(x: real, total: int)
    ensures HalfUp(x) + HalfUp(total as real - x) == total + if x == x.Floor as real + 0.5 then 1 else 0
  {
    var k := x.Floor;
    var rest := total - k;
    assert rest as real == total as real - k as real;
    if x < k as real + 0.5 {
      FloorIs(x + 0.5, k);
      FloorIs(total as real - x + 0.5, rest);
    } else if x == k as real + 0.5 {
      FloorIs(x + 0.5, k + 1);
      FloorIs(total as real - x + 0.5, rest);
    } else {
      FloorIs(x + 0.5, k + 1);
      FloorIs(total as real - x + 0.5, rest - 1);
    }
  }
}
