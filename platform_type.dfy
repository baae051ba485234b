/** The six marketing platforms an event can be sent to. */
module PlatformTypes {
  import opened Php

  datatype PlatformType = Meta | Google | TikTok | Pinterest | Snapchat | Brevo
  {
    /** The enum's backing value. */
    function Value(): string {
      match this
      case Meta => "meta"
      case Google => "google"
      case TikTok => "tiktok"
      case Pinterest => "pinterest"
      case Snapchat => "snapchat"
      case Brevo => "brevo"
    }

    /** Human-readable platform name. */
    function DisplayName(): string {
      match this
      case Meta => "Meta Pixel (Facebook)"
      case Google => "Google Analytics 4"
      case TikTok => "TikTok Pixel"
      case Pinterest => "Pinterest Tag"
      case Snapchat => "Snapchat Pixel"
      case Brevo => "Brevo (Sendinblue)"
    }
  }

  /** `PlatformType::cases()`, in declaration order. */
  const Cases: seq<PlatformType> := [Meta, Google, TikTok, Pinterest, Snapchat, Brevo]

  /** `values()`: the backing value of every case, in declaration order. */
  function Values(): (r: seq<string>)
    ensures |r| == |Cases| == 6
    ensures forall i :: 0 <= i < |Cases| ==> r[i] == Cases[i].Value()
  {
    seq(|Cases|, i requires 0 <= i < |Cases| => Cases[i].Value())
  }

  function FindIn(s: string, ps: seq<PlatformType>): (r: Option<PlatformType>)
    ensures r.Some? ==> r.value in ps && r.value.Value() == s
    ensures r.None? ==> forall p :: p in ps ==> p.Value() != s
  {
    if |ps| == 0 then None
    else if ps[0].Value() == s then Some(ps[0])
    else FindIn(s, ps[1..])
  }

  /** `tryFromString` (PHP's `tryFrom`): the case backed by `s`, or null. */
  function TryFromString(s: string): (r: Option<PlatformType>)
    ensures r.Some? ==> r.value.Value() == s
    ensures r.None? <==> s !in Values()
  {
    FindIn(s, Cases)
  }

  /** PHP's `PlatformType::from`: like `tryFrom` but an unknown value
      throws a ValueError. */
  function From(s: string): (r: Result<PlatformType>)
    ensures r.Ok? <==> s in Values()
    ensures r.Ok? ==> r.value.Value() == s
    ensures r.Err? ==> r.error.ValueError?
  {
    match TryFromString(s)
    case Some(p) => Ok(p)
    case None => Err(ValueError(s))
  }

  /** `isValid`: `s` is the backing value of some case. */
  predicate IsValid(s: string) {
    TryFromString(s).Some?
  }

  lemma CasesComplete(p: PlatformType)
    ensures p in Cases
  {
  }

  lemma ValueInjective(p: PlatformType, q: PlatformType)
    requires p.Value() == q.Value()
    ensures p == q
  {
  }

  lemma ValuesLiteral()
    ensures Values() == ["meta", "google", "tiktok", "pinterest", "snapchat", "brevo"]
  {
  }

  lemma TryFromValue(p: PlatformType)
    ensures TryFromString(p.Value()) == Some(p)
  {
    var r := TryFromString(p.Value());
    CasesComplete(p);
    assert p.Value() in Values();
    ValueInjective(r.value, p);
  }

  lemma IsValidIff(s: string)
    ensures IsValid(s) <==> s in Values()
  {
  }

  /** Different platforms have different display names. */
  lemma DisplayNameInjective(p: PlatformType, q: PlatformType)
    requires p.DisplayName() == q.DisplayName()
    ensures p == q
  {
  }

  /** No backing value contains an underscore, so the text before the first
      '_' of "{platform}_{field}" is the platform's value. */
  lemma ValueHasNoUnderscore(p: PlatformType)
    ensures '_' !in p.Value()
  {
  }
}
