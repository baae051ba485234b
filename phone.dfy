/** A phone number split into a national number and a country code. */
module Phones {
  import opened Php

  datatype Phone = Phone(number: string, countryCode: string)
  {
    /** `fullNumber`, which `formatted` and `toString` also return. */
    function FullNumber(): string {
      countryCode + number
    }

    function Formatted(): string {
      FullNumber()
    }

    function ToString(): string {
      FullNumber()
    }

    /** `hash`: the hash of the full number, for a given hash function. */
    function Hash(hash: string -> string): string {
      hash(FullNumber())
    }
  }

  const NoDigits := "No digits found"
  const BadLength := "Phone number must be between 6-15 digits"
  const BadFormat := "Invalid format"

  /** The country-code clean-up of `fromParts`: trimmed, and given a leading
      '+' when it is truthy and lacks one. */
  function CleanCountryCode(code: string): (r: string)
    ensures var c := Trim(code); r == (if !EmptyStr(c) && !StartsWith(c, "+") then "+" + c else c)
  {
    var c := Trim(code);
    if !EmptyStr(c) && !StartsWith(c, "+") then "+" + LtrimPlus(c) else c
  }

  /** `fromParts`: keeps only the digits of `number`; fails with 'No digits
      found' when they are empty in PHP's sense ('' or '0'), and with the
      length message when there are fewer than 6 or more than 15 of them. */
  function FromParts(number: string, countryCode: string): (r: Result<Phone>)
    ensures var d := DigitsOf(number);
      r == if EmptyStr(d) then Err(InvalidPhone(number, NoDigits))
           else if |d| < 6 || |d| > 15 then Err(InvalidPhone(number, BadLength))
           else Ok(Phone(d, CleanCountryCode(countryCode)))
  {
    var d := DigitsOf(number);
    if EmptyStr(d) then Err(InvalidPhone(number, NoDigits))
    else
      var cc := CleanCountryCode(countryCode);
      if |d| < 6 || |d| > 15 then Err(InvalidPhone(number, BadLength))
      else Ok(Phone(d, cc))
  }

  /** Every phone `fromParts` builds has a 6-15 digit number, and a country
      code that is '', the falsy '0', or starts with '+'. */
  lemma FromPartsShape(number: string, countryCode: string)
    requires FromParts(number, countryCode).Ok?
    ensures var p := FromParts(number, countryCode).value;
      6 <= |p.number| <= 15 &&
      (forall i :: 0 <= i < |p.number| ==> IsDigit(p.number[i])) &&
      (p.countryCode == "" || p.countryCode == "0" || StartsWith(p.countryCode, "+"))
  {
  }

  /** Input without any digit is rejected with 'No digits found'. */
  lemma NoDigitsRejected(number: string, countryCode: string)
    requires forall i :: 0 <= i < |number| ==> !IsDigit(number[i])
    ensures FromParts(number, countryCode) == Err(InvalidPhone(number, NoDigits))
  {
    DigitsOfEmpty(number);
  }

  /** Formatting characters do not matter: the number is the digit string. */
  lemma FromPartsDigitsOnly(number: string, countryCode: string)
    requires FromParts(number, countryCode).Ok?
    ensures FromParts(number, countryCode).value.number == DigitsOf(number)
  {
  }

  /** `[^0-9+]` removed. */
  function DigitsAndPlus(s: string): (r: string)
    ensures |r| <= |s|
    ensures forall i :: 0 <= i < |r| ==> IsDigit(r[i]) || r[i] == '+'
    ensures |s| > 0 && s[0] == '+' ==> |r| > 0 && r[0] == '+'
  {
    if |s| == 0 then ""
    else if IsDigit(s[0]) || s[0] == '+' then [s[0]] + DigitsAndPlus(s[1..])
    else DigitsAndPlus(s[1..])
  }

  predicate AllDigits(s: string) {
    forall i :: 0 <= i < |s| ==> IsDigit(s[i])
  }

  /** The match of `^\+(\d{1,4})(\d+)$` with its greedy first group: the
      country-code digits and the number digits. */
  function SplitInternational(t: string): (r: Option<(string, string)>)
    ensures r.Some? <==> |t| >= 3 && t[0] == '+' && AllDigits(t[1..])
    ensures r.Some? ==> var (cc, n) := r.value;
      1 <= |cc| <= 4 && |n| >= 1 && t == "+" + cc + n &&
      (|cc| < 4 ==> |n| == 1)
  {
    if |t| >= 3 && t[0] == '+' && AllDigits(t[1..]) then
      var rest := t[1..];
      var k := if |rest| - 1 < 4 then |rest| - 1 else 4;
      Some((rest[..k], rest[k..]))
    else None
  }

  /** `fromFullNumber`. Input starting with '+' (after trimming) keeps digits
      and '+' only and is split by the pattern, with no length check; other
      input goes to `fromParts` with an empty country code. */
  function FromFullNumber(full: string): (r: Result<Phone>)
    ensures !StartsWith(Trim(full), "+") ==> r == FromParts(Trim(full), "")
    ensures StartsWith(Trim(full), "+") ==>
      match SplitInternational(DigitsAndPlus(Trim(full)))
      case None => r == Err(InvalidPhone(full, BadFormat))
      case Some((cc, n)) => r == Ok(Phone(n, "+" + cc))
  {
    var clean := Trim(full);
    if StartsWith(clean, "+") then
      match SplitInternational(DigitsAndPlus(clean))
      case None => Err(InvalidPhone(full, BadFormat))
      case Some((cc, n)) => Ok(Phone(n, "+" + cc))
    else FromParts(clean, "")
  }

  /** In the '+' branch the full number is the cleaned input: '+' and then
      all of its digits, the code taking up to four of them. */
  lemma InternationalFullNumber(full: string)
    requires StartsWith(Trim(full), "+") && FromFullNumber(full).Ok?
    ensures var p := FromFullNumber(full).value;
      p.FullNumber() == DigitsAndPlus(Trim(full)) &&
      StartsWith(p.countryCode, "+") && 2 <= |p.countryCode| <= 5 && |p.number| >= 1
  {
  }

  /** The '+' branch has no 6-15 check: "+12" gives code "+1", number "2". */
  lemma ShortInternationalAccepted()
    ensures FromFullNumber("+12") == Ok(Phone("2", "+1"))
  {
    var s := "+12";
    assert StartsWith(s, "+");
    TrimLeftNoop(s);
    TrimRightNoop(s);
    assert Trim(s) == s;
    assert s[1..] == "12" && "12"[1..] == "2" && "2"[1..] == "";
    assert DigitsAndPlus(s) == s by {
      assert DigitsAndPlus("2") == "2";
      assert DigitsAndPlus("12") == "12";
    }
    assert AllDigits("12");
    assert "12"[..1] == "1";
    assert SplitInternational(s) == Some(("1", "2"));
    assert SplitInternational(DigitsAndPlus(Trim(s))) == Some(("1", "2"));
    assert "+" + "1" == "+1";
  }

  /** The country code is greedy: with enough digits it takes four. */
  lemma GreedyCountryCode()
    ensures SplitInternational("+905551234567") == Some(("9055", "51234567"))
  {
    var t := "+905551234567";
    assert t[1..] == "905551234567";
    assert AllDigits(t[1..]);
    assert t[1..][..4] == "9055" && t[1..][4..] == "51234567";
  }

  /** `toString`, `formatted` and `fullNumber` agree and are code + number. */
  lemma RenderingsAgree(p: Phone)
    ensures p.ToString() == p.Formatted() == p.FullNumber() == p.countryCode + p.number
  {
  }

  /** The hash depends only on the full number. */
  lemma HashByFullNumber(p: Phone, q: Phone, hash: string -> string)
    requires p.FullNumber() == q.FullNumber()
    ensures p.Hash(hash) == q.Hash(hash)
  {
  }
}
