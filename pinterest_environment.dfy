/** Pinterest's sandbox and production API environments. */
module PinterestEnvironments {
  import opened Php

  datatype PinterestEnvironment = Sandbox | Production
  {
    function Value(): string {
      match this
      case Sandbox => "sandbox"
      case Production => "production"
    }

    predicate IsProduction() { this == Production }

    predicate IsSandbox() { this == Sandbox }

    /** API base URL of the environment. */
    function BaseUrl(): (r: string)
      ensures StartsWith(r, "https://api")
    {
      match this
      case Sandbox => "https://api-sandbox.pinterest.com"
      case Production => "https://api.pinterest.com"
    }
  }

  /** `PinterestEnvironment::from` applied to a raw value, called from a
      file with strict types. A string that is no backing value is a
      ValueError. The enum is backed by strings, so under strict types any
      other value (an integer or an enum object) is a TypeError. */
  function From(v: Value): (r: Result<PinterestEnvironment>)
    ensures r.Ok? <==> v in {VStr("sandbox"), VStr("production")}
    ensures r.Ok? ==> VStr(r.value.Value()) == v
    ensures v.VStr? && r.Err? ==> r.error == ValueError(v.s)
    ensures !v.VStr? ==> r.Err? && r.error.TypeError?
  {
    if v == VStr("sandbox") then Ok(Sandbox)
    else if v == VStr("production") then Ok(Production)
    else if v.VStr? then Err(ValueError(v.s))
    else Err(TypeError("PinterestEnvironment::from(): Argument #1 ($value) must be of type string"))
  }

  /** Exactly one of `isProduction` and `isSandbox` holds. */
  lemma ExactlyOne(e: PinterestEnvironment)
    ensures e.IsProduction() != e.IsSandbox()
  {
  }

  lemma BaseUrls()
    ensures Sandbox.BaseUrl() == "https://api-sandbox.pinterest.com"
    ensures Production.BaseUrl() == "https://api.pinterest.com"
    ensures Sandbox.BaseUrl() != Production.BaseUrl()
  {
  }

  lemma FromValue(e: PinterestEnvironment)
    ensures From(VStr(e.Value())) == Ok(e)
  {
  }
}
