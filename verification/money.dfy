/** The `Money` value object: a non-negative amount in one of three
    currencies. The stored currency code is kept as given; only the
    validity check upper-cases it. */
module Money {
  import opened Results
  import Text

  datatype Money = Money(amount: real, currency: string)

  /** `c.toUpperCase() === code`, compared character by character. */
  predicate UpperEquals(c: string, code: string) {
    |c| == |code| && forall i :: 0 <= i < |c| ==> Text.UpperChar(c[i]) == code[i]
  }

  /** `isValidCurrency`: the upper-cased code is USD, EUR or RUB. */
  predicate IsValidCurrency(c: string) {
    UpperEquals(c, "USD") || UpperEquals(c, "EUR") || UpperEquals(c, "RUB")
  }

  /** The character-wise comparison is the comparison of `toUpperCase()`. */
  lemma IsValidCurrencyIsUpperLookup(c: string)
    ensures IsValidCurrency(c) <==> Text.Upper(c) in ["USD", "EUR", "RUB"]
  {
    if Text.Upper(c) == "USD" { assert UpperEquals(c, "USD"); }
    if Text.Upper(c) == "EUR" { assert UpperEquals(c, "EUR"); }
    if Text.Upper(c) == "RUB" { assert UpperEquals(c, "RUB"); }
  }

  predicate Valid(m: Money) {
    m.amount >= 0.0 && IsValidCurrency(m.currency)
  }

  /** The currency a `Money` gets when the constructor or `zero` is called
      without one. */
  const DefaultCurrency: string := "USD"

  type ValidMoney = m: Money | Valid(m) witness Money(0.0, DefaultCurrency)

  /** The constructor: negative amounts are refused before the currency is
      looked at. */
  function Create(amount: real, currency: string): (r: Result<ValidMoney>)
    ensures r.Ok? <==> amount >= 0.0 && IsValidCurrency(currency)
    ensures r.Ok? ==> r.value.amount == amount && r.value.currency == currency
    ensures amount < 0.0 ==> r == Err("Amount cannot be negative")
    ensures amount >= 0.0 && !IsValidCurrency(currency) ==> r == Err("Invalid currency: " + currency)
  {
    if amount < 0.0 then Err("Amount cannot be negative")
    else if !IsValidCurrency(currency) then Err("Invalid currency: " + currency)
    else Ok(Money(amount, currency))
  }

  /** Lower-case codes are accepted and stored without normalisation. */
  lemma CurrencyNotNormalised()
    ensures Create(5.0, "usd") == Ok(Money(5.0, "usd"))
    ensures Create(5.0, "GBP").Err?
  {
    assert !UpperEquals("GBP", "USD") by { assert Text.UpperChar("GBP"[0]) != "USD"[0]; }
    assert !UpperEquals("GBP", "EUR") by { assert Text.UpperChar("GBP"[0]) != "EUR"[0]; }
    assert !UpperEquals("GBP", "RUB") by { assert Text.UpperChar("GBP"[0]) != "RUB"[0]; }
  }

  /** `add`: currencies must match exactly (case-sensitive). */
  function Add(a: ValidMoney, b: ValidMoney): (r: Result<ValidMoney>)
    ensures r.Ok? <==> a.currency == b.currency
    ensures r.Ok? ==> r.value == Money(a.amount + b.amount, a.currency)
    ensures r.Err? ==> r.message == "Cannot add different currencies"
  {
    if a.currency != b.currency then Err("Cannot add different currencies")
    else Create(a.amount + b.amount, a.currency)
  }

  /** `subtract`: a currency mismatch or a negative difference is refused. */
  function Subtract(a: ValidMoney, b: ValidMoney): (r: Result<ValidMoney>)
    ensures r.Ok? <==> a.currency == b.currency && b.amount <= a.amount
    ensures r.Ok? ==> r.value == Money(a.amount - b.amount, a.currency)
    ensures a.currency != b.currency ==> r == Err("Cannot subtract different currencies")
    ensures a.currency == b.currency && a.amount < b.amount ==> r == Err("Result cannot be negative")
  {
    if a.currency != b.currency then Err("Cannot subtract different currencies")
    else
      var result := a.amount - b.amount;
      if result < 0.0 then Err("Result cannot be negative")
      else Create(result, a.currency)
  }

  /** `multiply`: a negative factor is refused. */
  function Multiply(m: ValidMoney, factor: real): (r: Result<ValidMoney>)
    ensures r.Ok? <==> factor >= 0.0
    ensures r.Ok? ==> r.value == Money(m.amount * factor, m.currency)
    ensures r.Err? ==> r.message == "Factor cannot be negative"
  {
    if factor < 0.0 then Err("Factor cannot be negative")
    else Create(m.amount * factor, m.currency)
  }

  /** Adding then subtracting the same amount gives back the original. */
  lemma AddSubtractRoundTrip(a: ValidMoney, b: ValidMoney)
    requires a.currency == b.currency
    ensures Add(a, b).Ok?
    ensures Subtract(Add(a, b).value, b) == Ok(a)
  {
  }

  function IsGreaterThan(a: ValidMoney, b: ValidMoney): (r: Result<bool>)
    ensures r.Err? <==> a.currency != b.currency
    ensures r.Ok? ==> r.value == (a.amount > b.amount)
  {
    if a.currency != b.currency then Err("Cannot compare different currencies")
    else Ok(a.amount > b.amount)
  }

  function IsLessThan(a: ValidMoney, b: ValidMoney): (r: Result<bool>)
    ensures r.Err? <==> a.currency != b.currency
    ensures r.Ok? ==> r.value == (a.amount < b.amount)
  {
    if a.currency != b.currency then Err("Cannot compare different currencies")
    else Ok(a.amount < b.amount)
  }

  /** `equals` does not throw on a mismatch; it answers false. */
  predicate Equals(a: ValidMoney, b: ValidMoney)
    ensures Equals(a, b) <==> a == b
  {
    a.currency == b.currency && a.amount == b.amount
  }

  /** For one currency exactly one of greater, less and equal holds; across
      currencies the comparisons throw while `equals` is false. */
  lemma Trichotomy(a: ValidMoney, b: ValidMoney)
    ensures a.currency == b.currency ==>
      (if IsGreaterThan(a, b).value then 1 else 0)
      + (if IsLessThan(a, b).value then 1 else 0)
      + (if Equals(a, b) then 1 else 0) == 1
    ensures a.currency != b.currency ==>
      IsGreaterThan(a, b).Err? && IsLessThan(a, b).Err? && !Equals(a, b)
    ensures Equals(a, b) <==> a == b
  {
  }

  /** `Money.zero(currency)`, which throws on an unknown currency. */
  function Zero(currency: string): (r: Result<ValidMoney>)
    ensures r.Ok? <==> IsValidCurrency(currency)
    ensures r.Ok? ==> r.value.amount == 0.0 && r.value.currency == currency
  {
    Create(0.0, currency)
  }

  /** `new Money(amount)`: the default currency is always accepted, so
      only a negative amount is refused. */
  function CreateDefault(amount: real): (r: Result<ValidMoney>)
    ensures r.Ok? <==> amount >= 0.0
    ensures r.Ok? ==> r.value == Money(amount, DefaultCurrency)
    ensures r.Err? ==> r == Err("Amount cannot be negative")
  {
    assert UpperEquals(DefaultCurrency, "USD");
    Create(amount, DefaultCurrency)
  }

  /** `Money.zero()` never throws: it is zero dollars. */
  function DefaultZero(): (r: Result<ValidMoney>)
    ensures r == Ok(Money(0.0, DefaultCurrency))
  {
    assert UpperEquals(DefaultCurrency, "USD");
    Zero(DefaultCurrency)
  }

  /** Zero is an identity for `add`, on either side. */
  lemma ZeroIsAddIdentity(m: ValidMoney)
    ensures Zero(m.currency).Ok?
    ensures Add(m, Zero(m.currency).value) == Ok(m)
    ensures Add(Zero(m.currency).value, m) == Ok(m)
  {
  }
}
