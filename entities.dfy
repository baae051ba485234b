/** The two mutable aggregates of the domain: an application's platform
    credentials, and a platform's enabled flag with its supported events. */
module Entities {
  import opened Php
  import opened PlatformTypes
  import opened EventTypes
  import opened PixelCredentials

  /** No key is listed twice. */
  predicate Distinct<T(==)>(s: seq<T>) {
    forall i, j :: 0 <= i < j < |s| ==> s[i] != s[j]
  }

  lemma DistinctPrepend<T>(x: T, s: seq<T>)
    requires Distinct(s) && x !in s
    ensures Distinct([x] + s)
  {
    var t := [x] + s;
    forall i, j | 0 <= i < j < |t|
      ensures t[i] != t[j]
    {
      assert t[j] == s[j - 1];
      if i > 0 {
        assert t[i] == s[i - 1];
      }
    }
  }

  lemma DistinctTail<T>(s: seq<T>)
    requires Distinct(s) && |s| > 0
    ensures Distinct(s[1..]) && s[0] !in s[1..]
  {
  }

  /** `s` without the element `x`. */
  function Without(s: seq<string>, x: string): (r: seq<string>)
    ensures forall y :: y in r <==> y in s && y != x
    ensures Distinct(s) ==> Distinct(r)
  {
    if |s| == 0 then []
    else if s[0] == x then Without(s[1..], x)
    else
      var rest := Without(s[1..], x);
      if Distinct(s) then
        DistinctTail(s);
        DistinctPrepend(s[0], rest);
        [s[0]] + rest
      else [s[0]] + rest
  }

  // ------------------------------------------------ getConfiguredPlatforms

  /** The platforms of the valid credentials, in key order. `PlatformType::from`
      on a key that names no platform is a ValueError. */
  function Configured(ks: seq<string>, m: map<string, Credentials>): Result<seq<PlatformType>>
    requires forall k :: k in ks ==> k in m
  {
    if |ks| == 0 then Ok([])
    else if m[ks[0]].IsValid() then
      var p :- PlatformTypes.From(ks[0]);
      var rest :- Configured(ks[1..], m);
      Ok([p] + rest)
    else Configured(ks[1..], m)
  }

  /** `acc` placed in front of a successful result. */
  function Prepend(acc: seq<PlatformType>, r: Result<seq<PlatformType>>): Result<seq<PlatformType>> {
    if r.Ok? then Ok(acc + r.value) else r
  }

  /** One step of the listing loop, seen from the accumulated prefix. */
  lemma PrependStep(acc: seq<PlatformType>, ks: seq<string>, m: map<string, Credentials>)
    requires |ks| > 0 && forall k :: k in ks ==> k in m
    ensures Prepend(acc, Configured(ks, m)) ==
      if !m[ks[0]].IsValid() then Prepend(acc, Configured(ks[1..], m))
      else if PlatformTypes.From(ks[0]).Err? then Err(PlatformTypes.From(ks[0]).error)
      else Prepend(acc + [PlatformTypes.From(ks[0]).value], Configured(ks[1..], m))
  {
    var k := ks[0];
    var rest := Configured(ks[1..], m);
    if m[k].IsValid() {
      var p := PlatformTypes.From(k);
      if p.Ok? {
        assert Configured(ks, m) == Prepend([p.value], rest);
        if rest.Ok? {
          assert acc + ([p.value] + rest.value) == (acc + [p.value]) + rest.value;
        }
      }
    }
  }

  /** Each credential stored under its own platform's value. */
  predicate OwnKeys(m: map<string, Credentials>) {
    forall k :: k in m ==> m[k].PlatformType().Value() == k
  }

  /** With every key naming its own credential's platform the listing cannot
      fail, and it lists exactly the platforms whose credentials are valid. */
  lemma {:induction false} ConfiguredMembers(ks: seq<string>, m: map<string, Credentials>)
    requires forall k :: k in ks ==> k in m
    requires OwnKeys(m)
    ensures Configured(ks, m).Ok?
    ensures forall p :: p in Configured(ks, m).value <==> p.Value() in ks && m[p.Value()].IsValid()
  {
    if |ks| > 0 {
      ConfiguredMembers(ks[1..], m);
      var k := ks[0];
      if m[k].IsValid() {
        var q := m[k].PlatformType();
        PlatformTypes.TryFromValue(q);
        assert PlatformTypes.From(k) == Ok(q);
      }
      forall p
        ensures p in Configured(ks, m).value <==> p.Value() in ks && m[p.Value()].IsValid()
      {
        if p.Value() == k && m[k].IsValid() {
          PlatformTypes.ValueInjective(p, m[k].PlatformType());
        }
        if p in Configured(ks, m).value && p !in Configured(ks[1..], m).value {
          PlatformTypes.ValueInjective(p, m[k].PlatformType());
        }
        assert ks == [k] + ks[1..];
      }
    }
  }

  /** Distinct keys give each platform at most once. */
  lemma {:induction false} ConfiguredDistinct(ks: seq<string>, m: map<string, Credentials>)
    requires forall k :: k in ks ==> k in m
    requires Distinct(ks)
    ensures Configured(ks, m).Ok? ==> Distinct(Configured(ks, m).value)
  {
    if |ks| > 0 {
      ConfiguredDistinct(ks[1..], m);
      var r := Configured(ks, m);
      if r.Ok? && m[ks[0]].IsValid() {
        var p := PlatformTypes.From(ks[0]).value;
        var rest := Configured(ks[1..], m).value;
        assert r.value == [p] + rest;
        DistinctTail(ks);
        forall q | q in rest
          ensures q != p
        {
          ConfiguredKeysFrom(ks[1..], m, q);
        }
        DistinctPrepend(p, rest);
      }
    }
  }

  /** Every listed platform comes from a key in the list. */
  lemma {:induction false} ConfiguredKeysFrom(ks: seq<string>, m: map<string, Credentials>, q: PlatformType)
    requires forall k :: k in ks ==> k in m
    requires Configured(ks, m).Ok? && q in Configured(ks, m).value
    ensures q.Value() in ks
  {
    if |ks| > 0 && !(m[ks[0]].IsValid() && q == PlatformTypes.From(ks[0]).value) {
      ConfiguredKeysFrom(ks[1..], m, q);
    }
  }

  /** A key that names no platform, holding valid credentials, makes the
      listing fail with a ValueError. */
  lemma UnknownKeyFails(m: map<string, Credentials>)
    requires "facebook" in m && m["facebook"].IsValid()
    ensures Configured(["facebook"], m) == Err(ValueError("facebook"))
  {
    assert "facebook" !in PlatformTypes.Values() by { PlatformTypes.ValuesLiteral(); }
  }

  /** An application's credentials: a PHP array from platform value to
      credentials, kept as its insertion-ordered keys and a map. */
  class ApplicationCredentials {
    const appId: int
    var keys: seq<string>
    var credentials: map<string, Credentials>

    /** The array's key order lists each stored key exactly once. */
    predicate Valid()
      reads this
    {
      Distinct(keys) && (forall k :: k in keys ==> k in credentials) &&
      (forall k :: k in credentials ==> k in keys)
    }

    /** `new ApplicationCredentials($appId)`: no credentials. */
    constructor (appId: int)
      ensures Valid() && this.appId == appId
      ensures keys == [] && credentials == map[]
    {
      this.appId := appId;
      keys := [];
      credentials := map[];
    }

    /** `new ApplicationCredentials($appId, $credentials)`: an array given as
        its key order and its entries. */
    constructor WithCredentials(appId: int, keys: seq<string>, credentials: map<string, Credentials>)
      requires Distinct(keys) && forall k :: k in keys <==> k in credentials
      ensures Valid() && this.appId == appId
      ensures this.keys == keys && this.credentials == credentials
    {
      this.appId := appId;
      this.keys := keys;
      this.credentials := credentials;
    }

    /** `getCredentialsFor`: the stored credentials, or null. */
    function GetCredentialsFor(p: PlatformType): (r: Option<Credentials>)
      reads this
      ensures r.Some? <==> p.Value() in credentials
      ensures r.Some? ==> r.value == credentials[p.Value()]
    {
      if p.Value() in credentials then Some(credentials[p.Value()]) else None
    }

    /** `hasCredentialsFor`: stored and valid. */
    predicate HasCredentialsFor(p: PlatformType)
      reads this
    {
      p.Value() in credentials && credentials[p.Value()].IsValid()
    }

    /** `setCredentials`: stored under its own platform; a new key goes last,
        an existing one keeps its place. */
    method SetCredentials(c: Credentials)
      requires Valid()
      modifies this
      ensures Valid()
      ensures credentials == old(credentials)[c.PlatformType().Value() := c]
      ensures keys == if c.PlatformType().Value() in old(keys) then old(keys)
                      else old(keys) + [c.PlatformType().Value()]
    {
      var k := c.PlatformType().Value();
      if k !in keys {
        keys := keys + [k];
      }
      credentials := credentials[k := c];
    }

    /** `removeCredentials`: the key and its credentials are gone. */
    method RemoveCredentials(p: PlatformType)
      requires Valid()
      modifies this
      ensures Valid()
      ensures credentials == old(credentials) - {p.Value()}
      ensures keys == Without(old(keys), p.Value())
    {
      keys := Without(keys, p.Value());
      credentials := credentials - {p.Value()};
    }

    /** `getConfiguredPlatforms`: one pass over the keys in order. */
    method GetConfiguredPlatforms() returns (r: Result<seq<PlatformType>>)
      requires Valid()
      ensures r == Configured(keys, credentials)
    {
      var acc: seq<PlatformType> := [];
      var i := 0;
      assert keys[0..] == keys;
      assert Configured(keys, credentials).Ok? ==>
        [] + Configured(keys, credentials).value == Configured(keys, credentials).value;
      while i < |keys|
        invariant 0 <= i <= |keys|
        invariant Configured(keys, credentials) == Prepend(acc, Configured(keys[i..], credentials))
      {
        var k := keys[i];
        assert keys[i..][0] == k && keys[i..][1..] == keys[i + 1..];
        PrependStep(acc, keys[i..], credentials);
        if credentials[k].IsValid() {
          var p := PlatformTypes.From(k);
          if p.Err? {
            return Err(p.error);
          }
          acc := acc + [p.value];
        }
        i := i + 1;
      }
      assert keys[i..] == [] && acc + [] == acc;
      r := Ok(acc);
    }
  }

  /** Credentials stored only through `setCredentials` sit under their own
      platform, so listing them cannot fail and lists exactly the platforms
      `hasCredentialsFor` accepts. */
  lemma ConfiguredMatchesHas(a: ApplicationCredentials)
    requires a.Valid() && OwnKeys(a.credentials)
    ensures Configured(a.keys, a.credentials).Ok?
    ensures forall p :: p in Configured(a.keys, a.credentials).value <==> a.HasCredentialsFor(p)
    ensures Distinct(Configured(a.keys, a.credentials).value)
  {
    ConfiguredMembers(a.keys, a.credentials);
    ConfiguredDistinct(a.keys, a.credentials);
  }

  /** `setCredentials` keeps every credential under its own platform. */
  lemma SetKeepsOwnKeys(m: map<string, Credentials>, c: Credentials)
    requires OwnKeys(m)
    ensures OwnKeys(m[c.PlatformType().Value() := c])
  {
  }

  /** Setting then reading a platform gives the credentials back; other
      platforms are untouched. */
  lemma SetThenGet(m: map<string, Credentials>, c: Credentials, p: PlatformType)
    ensures var m' := m[c.PlatformType().Value() := c];
      (p == c.PlatformType() ==> m'[p.Value()] == c) &&
      (p != c.PlatformType() ==> (p.Value() in m' <==> p.Value() in m) &&
                                 (p.Value() in m ==> m'[p.Value()] == m[p.Value()]))
  {
    if p != c.PlatformType() && p.Value() == c.PlatformType().Value() {
      PlatformTypes.ValueInjective(p, c.PlatformType());
    }
  }

  // ----------------------------------------------------------- Platform

  /** `addSupportedEvent` as written: the guard is `supportsEventType`, which
      is false for every event while the platform is disabled. */
  function AddedEvents(events: seq<EventType>, enabled: bool, e: EventType): (r: seq<EventType>)
    ensures r == events || r == events + [e]
    ensures e in r
  {
    if enabled && e in events then events else events + [e]
  }

  /** While disabled, adding an event already present appends it again. */
  lemma DisabledAddDuplicates(events: seq<EventType>, e: EventType)
    requires e in events
    ensures |AddedEvents(events, false, e)| == |events| + 1
    ensures !Distinct(AddedEvents(events, false, e))
  {
    var r := AddedEvents(events, false, e);
    var i :| 0 <= i < |events| && events[i] == e;
    assert r[i] == r[|events|];
  }

  /** What the guard means to say: add an event only when it is not listed. */
  function AddedEventsDeduplicated(events: seq<EventType>, e: EventType): (r: seq<EventType>)
    ensures e in r
    ensures forall x :: x in r <==> x in events || x == e
  {
    if e in events then events else events + [e]
  }

  /** The deduplicating add keeps the list free of repeats. */
  lemma DeduplicatedStaysDistinct(events: seq<EventType>, e: EventType)
    requires Distinct(events)
    ensures Distinct(AddedEventsDeduplicated(events, e))
  {
  }

  /** While enabled the written add and the deduplicating add agree. */
  lemma EnabledAddAgrees(events: seq<EventType>, e: EventType)
    ensures AddedEvents(events, true, e) == AddedEventsDeduplicated(events, e)
  {
  }

  /** A platform: its type, the events it supports and an enabled flag. */
  class Platform {
    const platformType: PlatformType
    var supportedEvents: seq<EventType>
    var enabled: bool

    constructor (t: PlatformType, supportedEvents: seq<EventType>, enabled: bool)
      ensures platformType == t && this.supportedEvents == supportedEvents && this.enabled == enabled
    {
      platformType := t;
      this.supportedEvents := supportedEvents;
      this.enabled := enabled;
    }

    /** `supportsEventType`: enabled, and the event is in the list. */
    method SupportsEventType(e: EventType) returns (b: bool)
      ensures b <==> enabled && e in supportedEvents
    {
      if !enabled {
        return false;
      }
      var i := 0;
      while i < |supportedEvents|
        invariant 0 <= i <= |supportedEvents|
        invariant e !in supportedEvents[..i]
      {
        if supportedEvents[i] == e {
          return true;
        }
        i := i + 1;
      }
      assert supportedEvents[..i] == supportedEvents;
      return false;
    }

    method Enable()
      modifies this
      ensures enabled && supportedEvents == old(supportedEvents)
    {
      enabled := true;
    }

    method Disable()
      modifies this
      ensures !enabled && supportedEvents == old(supportedEvents)
    {
      enabled := false;
    }

    /** `addSupportedEvent`, guarded by `supportsEventType`. */
    method AddSupportedEvent(e: EventType)
      modifies this
      ensures enabled == old(enabled)
      ensures supportedEvents == AddedEvents(old(supportedEvents), old(enabled), e)
    {
      var supported := SupportsEventType(e);
      if !supported {
        supportedEvents := supportedEvents + [e];
      }
    }
  }
}
