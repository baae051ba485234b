/** Which platforms receive an event: the platforms mapped for its type,
    kept when the application holds valid credentials for them. */
module Selection {
  import opened Php
  import opened EventTypes
  import opened PlatformTypes
  import opened PixelCredentials
  import opened Entities
  import opened Config
  import opened Events

  /** `hasCredentialsFor` on a credentials array. */
  predicate Usable(m: map<string, Credentials>, p: PlatformType) {
    p.Value() in m && m[p.Value()].IsValid()
  }

  /** The mapped platforms that have usable credentials, in mapping order,
      duplicates kept. */
  function Filter(mapping: seq<PlatformType>, m: map<string, Credentials>): (r: seq<PlatformType>)
    ensures |r| <= |mapping|
    ensures forall p :: p in r ==> p in mapping && Usable(m, p)
  {
    if |mapping| == 0 then []
    else
      var last := mapping[|mapping| - 1];
      Filter(mapping[..|mapping| - 1], m) + (if Usable(m, last) then [last] else [])
  }

  /** `selectPlatforms`: the mapping must be readable and, although its
      result is unused, `getConfiguredPlatforms` must not throw. */
  function Selected(config: ConfigService, t: EventType, keys: seq<string>, m: map<string, Credentials>)
    : Result<seq<PlatformType>>
    requires forall k :: k in keys ==> k in m
  {
    var allowed :- config.GetEventMappings(t);
    var configured :- Configured(keys, m);
    Ok(Filter(allowed, m))
  }

  /** Filtering distributes over concatenation, so relative order is kept. */
  lemma {:induction false} FilterAppend(s: seq<PlatformType>, u: seq<PlatformType>, m: map<string, Credentials>)
    ensures Filter(s + u, m) == Filter(s, m) + Filter(u, m)
    decreases |u|
  {
    if |u| == 0 {
      assert s + u == s;
    } else {
      var last := u[|u| - 1];
      var tail := if Usable(m, last) then [last] else [];
      assert (s + u)[..|s + u| - 1] == s + u[..|u| - 1];
      assert (s + u)[|s + u| - 1] == last;
      FilterAppend(s, u[..|u| - 1], m);
      assert Filter(s, m) + Filter(u[..|u| - 1], m) + tail == Filter(s, m) + (Filter(u[..|u| - 1], m) + tail);
    }
  }

  /** A platform appears exactly as often as in the mapping when its
      credentials are usable, and never otherwise: duplicates survive. */
  lemma {:induction false} FilterCounts(s: seq<PlatformType>, m: map<string, Credentials>, p: PlatformType)
    ensures multiset(Filter(s, m))[p] == if Usable(m, p) then multiset(s)[p] else 0
  {
    if |s| > 0 {
      var init := s[..|s| - 1];
      var last := s[|s| - 1];
      assert s == init + [last];
      FilterCounts(init, m, p);
      var tail := if Usable(m, last) then [last] else [];
      assert multiset(Filter(s, m)) == multiset(Filter(init, m)) + multiset(tail);
      assert multiset(s) == multiset(init) + multiset([last]);
    }
  }

  /** Every mapped platform with usable credentials is selected. */
  lemma FilterMembers(s: seq<PlatformType>, m: map<string, Credentials>, p: PlatformType)
    ensures p in Filter(s, m) <==> p in s && Usable(m, p)
  {
    FilterCounts(s, m, p);
    assert p in Filter(s, m) <==> multiset(Filter(s, m))[p] > 0;
    assert p in s <==> multiset(s)[p] > 0;
  }

  /** Nothing is selected for an unmapped type or without usable credentials. */
  lemma {:induction false} FilterNone(s: seq<PlatformType>, m: map<string, Credentials>)
    requires forall p :: p in s ==> !Usable(m, p)
    ensures Filter(s, m) == []
  {
    if |s| > 0 {
      assert s[|s| - 1] in s;
      assert forall p :: p in s[..|s| - 1] ==> p in s;
      FilterNone(s[..|s| - 1], m);
    }
  }

  /** When every mapped platform is usable, the whole mapping is selected. */
  lemma {:induction false} FilterAll(s: seq<PlatformType>, m: map<string, Credentials>)
    requires forall p :: p in s ==> Usable(m, p)
    ensures Filter(s, m) == s
  {
    if |s| > 0 {
      assert s[|s| - 1] in s;
      assert forall p :: p in s[..|s| - 1] ==> p in s;
      FilterAll(s[..|s| - 1], m);
      assert s[..|s| - 1] + [s[|s| - 1]] == s;
    }
  }

  /** `selectPlatforms` as the source writes it: the mapping, the unused
      configured list, then one pass appending each usable platform. */
  method SelectPlatforms(config: ConfigService, event: PixelEvent, credentials: ApplicationCredentials)
    returns (r: Result<seq<PlatformType>>)
    requires credentials.Valid()
    ensures r == Selected(config, event.eventType, credentials.keys, credentials.credentials)
  {
    var allowed := config.GetEventMappings(event.eventType);
    if allowed.Err? {
      return Err(allowed.error);
    }
    var configured := credentials.GetConfiguredPlatforms();
    if configured.Err? {
      return Err(configured.error);
    }
    var mapping := allowed.value;
    var selected: seq<PlatformType> := [];
    var i := 0;
    while i < |mapping|
      invariant 0 <= i <= |mapping|
      invariant selected == Filter(mapping[..i], credentials.credentials)
    {
      var platform := mapping[i];
      assert mapping[..i + 1][..i] == mapping[..i];
      if credentials.HasCredentialsFor(platform) {
        selected := selected + [platform];
      }
      i := i + 1;
    }
    assert mapping[..i] == mapping;
    return Ok(selected);
  }

  /** `shouldSendTo`: a search of the selection for the platform. */
  method ShouldSendTo(config: ConfigService, event: PixelEvent, platform: PlatformType,
                      credentials: ApplicationCredentials)
    returns (r: Result<bool>)
    requires credentials.Valid()
    ensures var s := Selected(config, event.eventType, credentials.keys, credentials.credentials);
      r.Err? <==> s.Err?
    ensures r.Ok? ==> (r.value <==> platform in Selected(config, event.eventType, credentials.keys, credentials.credentials).value)
  {
    var selected := SelectPlatforms(config, event, credentials);
    if selected.Err? {
      return Err(selected.error);
    }
    var found := Contains(selected.value, platform);
    return Ok(found);
  }

  /** The loop of `shouldSendTo`: a linear search with `===`. */
  method Contains(s: seq<PlatformType>, platform: PlatformType) returns (found: bool)
    ensures found <==> platform in s
  {
    for i := 0 to |s|
      invariant platform !in s[..i]
    {
      if s[i] == platform {
        return true;
      }
    }
    assert s[..|s|] == s;
    return false;
  }

  /** A platform is due an event exactly when the type maps to it and the
      application holds valid credentials for it. */
  lemma SelectedIff(config: ConfigService, t: EventType, keys: seq<string>,
                    m: map<string, Credentials>, p: PlatformType)
    requires forall k :: k in keys ==> k in m
    requires Selected(config, t, keys, m).Ok?
    ensures p in Selected(config, t, keys, m).value <==>
      p in config.GetEventMappings(t).value && Usable(m, p)
  {
    FilterMembers(config.GetEventMappings(t).value, m, p);
  }

  /** With the shipped mapping and credentials stored under their own
      platforms, `customize_product` goes to Meta exactly when Meta's
      credentials are valid. */
  lemma ShippedCustomizeProduct(keys: seq<string>, m: map<string, Credentials>)
    requires OwnKeys(m) && forall k :: k in keys ==> k in m
    ensures var config := ConfigService(map["event_mappings" := ShippedMappings()]);
      Selected(config, CustomizeProduct, keys, m) == Ok(if Usable(m, Meta) then [Meta] else [])
  {
    var config := ConfigService(map["event_mappings" := ShippedMappings()]);
    ShippedEventMappings(CustomizeProduct);
    ConfiguredMembers(keys, m);
    var tail := if Usable(m, Meta) then [Meta] else [];
    assert [Meta][..0] == [];
    assert Filter([Meta], m) == Filter([], m) + tail;
    assert Filter([], m) + tail == tail;
    assert config.GetEventMappings(CustomizeProduct) == Ok([Meta]);
  }
}
