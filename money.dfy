/** An amount in a currency. Amounts are modelled as exact reals. */
module MoneyValues {
  import opened Php
  import opened Currencies

  datatype Money = Money(amount: real, currency: Currency)
  {
    /** `isZero`: closer to zero than one cent. */
    predicate IsZero() {
      -0.01 < amount < 0.01
    }

    predicate IsPositive() {
      amount > 0.0
    }

    /** `currencyCode` is the currency's ISO code. */
    function CurrencyCode(): string {
      currency.Value()
    }
  }

  /** The `Currency|string` parameter of `from` and `zero`. */
  datatype CurrencyArg = Code(code: string) | Enum(value: Currency)

  function ResolveCurrency(c: CurrencyArg): (r: Result<Currency>)
    ensures c.Enum? ==> r == Ok(c.value)
    ensures c.Code? ==> r == FromString(c.code)
  {
    match c
    case Enum(v) => Ok(v)
    case Code(s) => FromString(s)
  }

  /** `Money::from`: a negative amount is an InvalidMoneyException (checked
      before the currency); a currency string that is not a known code is an
      InvalidCurrencyException; otherwise amount and currency are kept. */
  function From(amount: real, currency: CurrencyArg): (r: Result<Money>)
    ensures amount < 0.0 ==> r == Err(InvalidMoney(amount))
    ensures amount >= 0.0 && ResolveCurrency(currency).Err? ==> r == Err(ResolveCurrency(currency).error)
    ensures r.Ok? <==> amount >= 0.0 && ResolveCurrency(currency).Ok?
    ensures r.Ok? ==> r.value == Money(amount, ResolveCurrency(currency).value)
  {
    if amount < 0.0 then Err(InvalidMoney(amount))
    else
      var c :- ResolveCurrency(currency);
      Ok(Money(amount, c))
  }

  /** `Money::zero`. */
  function Zero(currency: CurrencyArg): (r: Result<Money>)
    ensures r.Ok? <==> ResolveCurrency(currency).Ok?
    ensures r.Ok? ==> r.value.amount == 0.0 && r.value.currency == ResolveCurrency(currency).value
  {
    var c :- ResolveCurrency(currency);
    Ok(Money(0.0, c))
  }

  /** Zero money is zero and not positive. */
  lemma ZeroIsZero(currency: CurrencyArg)
    requires Zero(currency).Ok?
    ensures Zero(currency).value.IsZero() && !Zero(currency).value.IsPositive()
  {
  }

  /** A string currency goes through `Currency::fromString`: an unknown code
      makes `from` fail even for a valid amount. */
  lemma FromUnknownCode(amount: real)
    requires amount >= 0.0
    ensures From(amount, Code("AZN")) == Err(InvalidCurrency("AZN"))
  {
    FromStringUnknown();
  }

  /** `isZero` and `isPositive` overlap: an amount strictly between 0 and
      one cent is both. */
  lemma SubCentIsZeroAndPositive()
    ensures Money(0.005, USD).IsZero() && Money(0.005, USD).IsPositive()
  {
  }

  /** Rebuilding Money from its amount and its currency code gives it back
      (a negative amount, which `from` never produces, is refused). */
  lemma CurrencyCodeRoundTrip(m: Money)
    ensures From(m.amount, Code(m.CurrencyCode())) == (if m.amount < 0.0 then Err(InvalidMoney(m.amount)) else Ok(m))
  {
    FromStringValue(m.currency);
  }
}
