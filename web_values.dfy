/** A normalised e-mail address. Validation (`filter_var` with
    FILTER_VALIDATE_EMAIL) is the parameter `isEmail`. */
module Emails {
  import opened Php

  datatype Email = Email(value: string)
  {
    function ToString(): string { value }

    /** `hash`, for a given hash function. */
    function Hash(hash: string -> string): string { hash(value) }

    /** `domain`: everything after the first '@' (after offset 0 when there
        is none, since `false + 1` is 1). */
    function Domain(): (r: string)
      ensures '@' in value ==> var k := IndexOf(value, '@').value; r == value[k + 1..]
    {
      match IndexOf(value, '@')
      case Some(k) => value[k + 1..]
      case None => if |value| >= 1 then value[1..] else ""
    }

    /** `localPart`: everything before the first '@'; without one, `substr`
        receives `false` as its length, a TypeError under strict types. */
    function LocalPart(): (r: Result<string>)
      ensures r.Ok? <==> '@' in value
      ensures r.Ok? ==> '@' !in r.value
    {
      match IndexOf(value, '@')
      case Some(k) => Ok(value[..k])
      case None => Err(TypeError("substr(): Argument #3 ($length) must be of type ?int, bool given"))
    }
  }

  /** The normalisation applied before validation. */
  function Normalize(s: string): string {
    Lower(Trim(s))
  }

  /** `fromString`: the trimmed, lower-cased input when the validator
      accepts it, otherwise an InvalidEmailException naming the input. */
  function FromString(s: string, isEmail: string -> bool): (r: Result<Email>)
    ensures r.Ok? <==> isEmail(Normalize(s))
    ensures r.Ok? ==> r.value.value == Normalize(s)
    ensures r.Err? ==> r.error == InvalidEmail(s)
  {
    var n := Normalize(s);
    if isEmail(n) then Ok(Email(n)) else Err(InvalidEmail(s))
  }

  /** Lower-casing does not put trim characters at either end. */
  lemma LowerKeepsEnds(s: string)
    requires s == [] || (!IsTrimChar(s[0]) && !IsTrimChar(s[|s| - 1]))
    ensures Trim(Lower(s)) == Lower(s)
  {
    if s != [] {
      assert Lower(s)[0] == LowerChar(s[0]) && Lower(s)[|s| - 1] == LowerChar(s[|s| - 1]);
      assert !IsTrimChar(LowerChar(s[0])) && !IsTrimChar(LowerChar(s[|s| - 1]));
    }
    TrimLeftNoop(Lower(s));
    TrimRightNoop(Lower(s));
  }

  /** Normalisation is idempotent. */
  lemma NormalizeIdempotent(s: string)
    ensures Normalize(Normalize(s)) == Normalize(s)
  {
    LowerKeepsEnds(Trim(s));
    LowerIdempotent(Trim(s));
  }

  /** Re-parsing a parsed address gives the same address. */
  lemma ReparseStable(s: string, isEmail: string -> bool)
    requires FromString(s, isEmail).Ok?
    ensures FromString(FromString(s, isEmail).value.value, isEmail) == FromString(s, isEmail)
  {
    NormalizeIdempotent(s);
  }

  /** Splitting at the first '@' and joining again gives the address back. */
  lemma PartsJoin(e: Email)
    requires '@' in e.value
    ensures e.LocalPart().Ok? && e.LocalPart().value + "@" + e.Domain() == e.value
  {
    var k := IndexOf(e.value, '@').value;
    assert e.value == e.value[..k] + [e.value[k]] + e.value[k + 1..];
  }

  /** Inputs that normalise equally hash equally. */
  lemma HashByNormalForm(s: string, t: string, isEmail: string -> bool, hash: string -> string)
    requires FromString(s, isEmail).Ok? && Normalize(s) == Normalize(t)
    ensures FromString(t, isEmail).Ok?
    ensures FromString(s, isEmail).value.Hash(hash) == FromString(t, isEmail).value.Hash(hash)
  {
  }
}

/** An absolute http(s) URL. Validation (`filter_var` with
    FILTER_VALIDATE_URL) is the parameter `isUrl`. */
module Urls {
  import opened Php

  datatype Url = Url(value: string)
  {
    function ToString(): string { value }

    /** `isSecure`: the scheme is https. Every stored URL starts with
        "http://" or "https://", so the scheme `parse_url` reports is the
        part before "://". */
    predicate IsSecure() {
      StartsWith(value, "https://")
    }
  }

  predicate HasHttpScheme(s: string) {
    StartsWith(s, "http://") || StartsWith(s, "https://")
  }

  /** `fromString`: the trimmed input, when the validator accepts it and it
      starts with "http://" or "https://"; otherwise an InvalidUrlException
      naming the original input. */
  function FromString(s: string, isUrl: string -> bool): (r: Result<Url>)
    ensures r.Ok? <==> isUrl(Trim(s)) && HasHttpScheme(Trim(s))
    ensures r.Ok? ==> r.value.value == Trim(s)
    ensures r.Err? ==> r.error == InvalidUrl(s)
  {
    var clean := Trim(s);
    if !isUrl(clean) then Err(InvalidUrl(s))
    else if !HasHttpScheme(clean) then Err(InvalidUrl(s))
    else Ok(Url(clean))
  }

  /** A parsed URL is secure exactly when it is not plain http. */
  lemma SecureIffNotHttp(s: string, isUrl: string -> bool)
    requires FromString(s, isUrl).Ok?
    ensures var u := FromString(s, isUrl).value;
      u.IsSecure() <==> !StartsWith(u.value, "http://")
  {
    var v := FromString(s, isUrl).value.value;
    if StartsWith(v, "https://") {
      assert v[..7][4] == 's';
      assert "http://"[4] == ':';
    }
  }

  /** Re-parsing a parsed URL gives it back. */
  lemma ReparseStable(s: string, isUrl: string -> bool)
    requires FromString(s, isUrl).Ok?
    ensures FromString(FromString(s, isUrl).value.value, isUrl) == FromString(s, isUrl)
  {
    TrimIdempotent(s);
  }
}

/** A browser user-agent string and its keyword classifications. */
module UserAgents {
  import opened Php

  const MobileKeywords: seq<string> :=
    ["mobile", "android", "iphone", "ipad", "ipod", "blackberry", "windows phone", "opera mini"]

  const BotPatterns: seq<string> :=
    ["bot", "crawl", "spider", "slurp", "mediapartners", "facebookexternalhit", "whatsapp", "telegram"]

  datatype UserAgent = UserAgent(value: string)
  {
    function ToString(): string { value }

    /** `isMobile`: the lower-cased value contains a mobile keyword. */
    predicate IsMobile() {
      AnyContains(Lower(value), MobileKeywords)
    }

    /** `isBot`: the lower-cased value contains a bot pattern. */
    predicate IsBot() {
      AnyContains(Lower(value), BotPatterns)
    }

    /** The keyword loop of `isMobile`. */
    method CheckMobile() returns (b: bool)
      ensures b == IsMobile()
    {
      b := SearchKeywords(Lower(value), MobileKeywords);
    }

    /** The pattern loop of `isBot`. */
    method CheckBot() returns (b: bool)
      ensures b == IsBot()
    {
      b := SearchKeywords(Lower(value), BotPatterns);
    }
  }

  /** `fromString` trims the input. */
  function FromString(s: string): (r: UserAgent)
    ensures r.value == Trim(s)
  {
    UserAgent(Trim(s))
  }

  lemma IsMobileIff(u: UserAgent)
    ensures u.IsMobile() <==> exists i :: 0 <= i < |MobileKeywords| && Contains(Lower(u.value), MobileKeywords[i])
  {
  }

  lemma IsBotIff(u: UserAgent)
    ensures u.IsBot() <==> exists i :: 0 <= i < |BotPatterns| && Contains(Lower(u.value), BotPatterns[i])
  {
  }

  /** Both classifications ignore ASCII case. */
  lemma CaseInsensitive(s: string)
    ensures UserAgent(Upper(s)).IsBot() == UserAgent(s).IsBot()
    ensures UserAgent(Upper(s)).IsMobile() == UserAgent(s).IsMobile()
  {
    LowerOfUpper(s);
  }

  lemma ToStringIsTrimmed(s: string)
    ensures FromString(s).ToString() == Trim(s)
  {
  }
}
