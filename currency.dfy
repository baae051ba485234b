/** The ISO 4217 currencies accepted for event values. */
module Currencies {
  import opened Php

  datatype Currency = USD | EUR | GBP | TRY | JPY | CNY | CAD | AUD | CHF | SEK | NOK | DKK | INR | BRL | RUB | MXN | KRW | SGD | HKD | NZD | ZAR | AED | SAR | PLN | THB | MYR | IDR | PHP | CZK | HUF | ILS
  {
    /** The enum's backing value, the ISO 4217 code. */
    function Value(): string {
      match this
      case USD => "USD"
      case EUR => "EUR"
      case GBP => "GBP"
      case TRY => "TRY"
      case JPY => "JPY"
      case CNY => "CNY"
      case CAD => "CAD"
      case AUD => "AUD"
      case CHF => "CHF"
      case SEK => "SEK"
      case NOK => "NOK"
      case DKK => "DKK"
      case INR => "INR"
      case BRL => "BRL"
      case RUB => "RUB"
      case MXN => "MXN"
      case KRW => "KRW"
      case SGD => "SGD"
      case HKD => "HKD"
      case NZD => "NZD"
      case ZAR => "ZAR"
      case AED => "AED"
      case SAR => "SAR"
      case PLN => "PLN"
      case THB => "THB"
      case MYR => "MYR"
      case IDR => "IDR"
      case PHP => "PHP"
      case CZK => "CZK"
      case HUF => "HUF"
      case ILS => "ILS"
    }

    /** `symbol()`: the listed currencies have a sign, every other currency
        is shown by its own code. */
    function Symbol(): string {
      match this
      case USD => "$"
      case EUR => "€"
      case GBP => "£"
      case TRY => "₺"
      case JPY => "¥"
      case CNY => "¥"
      case INR => "₹"
      case RUB => "₽"
      case KRW => "₩"
      case BRL => "R$"
      case AUD => "$"
      case CAD => "$"
      case NZD => "$"
      case HKD => "$"
      case SGD => "$"
      case MXN => "$"
      case _ => Value()
    }
  }

  /** `Currency::cases()`, in declaration order. */
  const Cases: seq<Currency> := [USD, EUR, GBP, TRY, JPY, CNY, CAD, AUD, CHF, SEK, NOK, DKK, INR, BRL, RUB, MXN, KRW, SGD, HKD, NZD, ZAR, AED, SAR, PLN, THB, MYR, IDR, PHP, CZK, HUF, ILS]

  function Codes(): (r: seq<string>)
    ensures |r| == |Cases| == 31
    ensures forall i :: 0 <= i < |Cases| ==> r[i] == Cases[i].Value()
  {
    seq(|Cases|, i requires 0 <= i < |Cases| => Cases[i].Value())
  }

  function FindIn(s: string, cs: seq<Currency>): (r: Option<Currency>)
    ensures r.Some? ==> r.value in cs && r.value.Value() == s
    ensures r.None? ==> forall c :: c in cs ==> c.Value() != s
  {
    if |cs| == 0 then None
    else if cs[0].Value() == s then Some(cs[0])
    else FindIn(s, cs[1..])
  }

  /** PHP's `Currency::tryFrom`. */
  function TryFrom(s: string): (r: Option<Currency>)
    ensures r.Some? ==> r.value.Value() == s
    ensures r.None? <==> s !in Codes()
  {
    FindIn(s, Cases)
  }

  /** The normalisation `fromString` applies before the lookup. */
  function Normalize(code: string): string {
    Upper(Trim(code))
  }

  /** `fromString`: succeeds exactly when the trimmed, upper-cased code is
      one of the 31 codes, with that currency; otherwise an
      InvalidCurrencyException naming the original input. */
  function FromString(code: string): (r: Result<Currency>)
    ensures r.Ok? <==> Normalize(code) in Codes()
    ensures r.Ok? ==> r.value.Value() == Normalize(code)
    ensures r.Err? ==> r.error == InvalidCurrency(code)
  {
    match TryFrom(Normalize(code))
    case Some(c) => Ok(c)
    case None => Err(InvalidCurrency(code))
  }

  lemma CasesComplete(c: Currency)
    ensures c in Cases
  {
  }

  lemma ValueInjective(c: Currency, d: Currency)
    requires c.Value() == d.Value()
    ensures c == d
  {
  }

  predicate UpperLetters(v: string) {
    forall i :: 0 <= i < |v| ==> IsUpperAscii(v[i])
  }

  /** A string of upper-case ASCII letters is its own normal form. */
  lemma NormalizeUpperLetters(v: string)
    requires UpperLetters(v)
    ensures Normalize(v) == v
  {
    TrimLeftNoop(v);
    TrimRightNoop(v);
  }

  lemma CodeIsUpperLetters(c: Currency)
    ensures |c.Value()| == 3 && UpperLetters(c.Value())
  {
  }

  /** Every code is three upper-case ASCII letters, so normalising it
      changes nothing. */
  lemma NormalizeCode(c: Currency)
    ensures Normalize(c.Value()) == c.Value()
  {
    CodeIsUpperLetters(c);
    NormalizeUpperLetters(c.Value());
  }

  lemma TryFromValue(c: Currency)
    ensures TryFrom(c.Value()) == Some(c)
  {
    CasesComplete(c);
    assert c.Value() in Codes();
    ValueInjective(TryFrom(c.Value()).value, c);
  }

  /** Parsing a currency's own code gives that currency back. */
  lemma FromStringValue(c: Currency)
    ensures FromString(c.Value()) == Ok(c)
  {
    NormalizeCode(c);
    TryFromValue(c);
  }

  lemma UpperUsd()
    ensures Upper("usd") == "USD"
  {
    var u := Upper("usd");
    assert u[0] == 'U' && u[1] == 'S' && u[2] == 'D';
  }

  /** Case and surrounding whitespace do not matter: `' usd '` is USD. */
  lemma FromStringLoose()
    ensures FromString(" usd ") == Ok(USD)
  {
    TrimPadded("usd");
    assert " " + "usd" + " " == " usd ";
    UpperUsd();
    assert Normalize(" usd ") == "USD";
    TryFromValue(USD);
    assert TryFrom(Normalize(" usd ")) == Some(USD);
  }

  /** A code outside the enum, such as AZN, is rejected. */
  lemma FromStringUnknown()
    ensures FromString("AZN") == Err(InvalidCurrency("AZN"))
  {
    NormalizeUpperLetters("AZN");
    forall c: Currency
      ensures c.Value() != "AZN"
    {
      NotAzn(c);
    }
  }

  lemma NotAzn(c: Currency)
    ensures c.Value() != "AZN"
  {
    assert c.Value()[1] != 'Z' || c.Value()[0] != 'A';
  }

  lemma Symbols()
    ensures USD.Symbol() == "$" && EUR.Symbol() == "€" && GBP.Symbol() == "£"
    ensures CHF.Symbol() == "CHF" && PLN.Symbol() == "PLN"
  {
  }
}
