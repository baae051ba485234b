/** The legacy manager: questions about the configured application's raw
    data (its `data` attribute, a flat array such as `meta_pixel_id =>
    ...`) and about the package configuration. The file has no
    strict-types declaration. */
module LegacyManager {
  import opened Php
  import opened LaravelConfig

  /** `getApplication`, given the `data` attribute of the application the
      query finds: null or no application gives []; the return type is
      `array`, so anything else is refused. */
  function Application(app: Option<Value>): (r: Result<Record>)
    ensures app.None? || app.value == VNull ==> r == Ok(map[])
    ensures app.Some? && app.value.VDict? ==> r == Ok(app.value.entries)
    ensures r.Err? <==> app.Some? && app.value != VNull && !app.value.IsArray()
    ensures r.Err? ==> r.error == TypeError("array")
  {
    var v := if app.Some? then Coalesce(app.value, VList([])) else VList([]);
    if v.IsArray() then Ok(Entries(v)) else Err(TypeError("array"))
  }

  /** The suffixes of the fields that mark a platform as set up. */
  const RequiredSuffixes := ["_pixel_id", "_api_key", "_measurement_id", "_pixel_code", "_account_id", "_access_token"]

  /** The six `isset` tests of `isPlatformEnabled`. */
  predicate HasRequiredField(application: Record, platform: string) {
    IsSet(application, platform + "_pixel_id")
    || IsSet(application, platform + "_api_key")
    || IsSet(application, platform + "_measurement_id")
    || IsSet(application, platform + "_pixel_code")
    || IsSet(application, platform + "_account_id")
    || IsSet(application, platform + "_access_token")
  }

  /** `isPlatformEnabled`: a TypeError of `getApplication` propagates. */
  function IsPlatformEnabled(app: Option<Value>, platform: string): (r: Result<bool>)
    ensures r.Err? <==> Application(app).Err?
    ensures r.Ok? ==> (r.value <==> exists i :: 0 <= i < |RequiredSuffixes| &&
                                     IsSet(Application(app).value, platform + RequiredSuffixes[i]))
  {
    var application :- Application(app);
    RequiredFieldIff(application, platform);
    Ok(HasRequiredField(application, platform))
  }

  /** The six tests are one test per required suffix. */
  lemma RequiredFieldIff(application: Record, platform: string)
    ensures HasRequiredField(application, platform) <==>
      exists i :: 0 <= i < |RequiredSuffixes| && IsSet(application, platform + RequiredSuffixes[i])
  {
    if HasRequiredField(application, platform) {
      if IsSet(application, platform + "_pixel_id") {
        assert IsSet(application, platform + RequiredSuffixes[0]);
      } else if IsSet(application, platform + "_api_key") {
        assert IsSet(application, platform + RequiredSuffixes[1]);
      } else if IsSet(application, platform + "_measurement_id") {
        assert IsSet(application, platform + RequiredSuffixes[2]);
      } else if IsSet(application, platform + "_pixel_code") {
        assert IsSet(application, platform + RequiredSuffixes[3]);
      } else if IsSet(application, platform + "_account_id") {
        assert IsSet(application, platform + RequiredSuffixes[4]);
      } else {
        assert IsSet(application, platform + RequiredSuffixes[5]);
      }
    }
  }

  /** The entries `getPlatformCredentials` keeps: those whose key starts
      with the platform's name and an underscore. */
  function PlatformEntries(application: Record, platform: string): (r: Record)
    ensures forall k :: k in r <==> k in application && StartsWith(k, platform + "_")
    ensures forall k :: k in r ==> r[k] == application[k]
  {
    map k | k in application && StartsWith(k, platform + "_") :: application[k]
  }

  /** The entries kept among the keys visited so far. */
  ghost function Collected(application: Record, platform: string, todo: set<string>): Record {
    map k | k in application && k !in todo && StartsWith(k, platform + "_") :: application[k]
  }

  /** `getPlatformCredentials`: the `foreach` over the application data. */
  method GetPlatformCredentials(app: Option<Value>, platform: string) returns (r: Result<Record>)
    ensures r.Err? <==> Application(app).Err?
    ensures r.Ok? ==> r.value == PlatformEntries(Application(app).value, platform)
  {
    var application := Application(app);
    if application.Err? {
      return Err(application.error);
    }
    var data := application.value;
    var credentials: Record := map[];
    var todo := data.Keys;
    while todo != {}
      invariant todo <= data.Keys
      invariant credentials == Collected(data, platform, todo)
      decreases |todo|
    {
      var k :| k in todo;
      if StartsWith(k, platform + "_") {
        credentials := credentials[k := data[k]];
      }
      todo := todo - {k};
    }
    assert Collected(data, platform, {}) == PlatformEntries(data, platform);
    r := Ok(credentials);
  }

  /** Every required field is one of the platform's entries, so an enabled
      platform has credentials to show. */
  lemma EnabledHasEntries(application: Record, platform: string)
    requires HasRequiredField(application, platform)
    ensures exists k :: k in PlatformEntries(application, platform) && PlatformEntries(application, platform)[k] != VNull
  {
    RequiredFieldIff(application, platform);
    var i :| 0 <= i < |RequiredSuffixes| && IsSet(application, platform + RequiredSuffixes[i]);
    var k := platform + RequiredSuffixes[i];
    assert k[..|platform + "_"|] == platform + "_";
    assert k in PlatformEntries(application, platform);
  }

  /** Whether a platform is enabled depends on its own entries only. */
  lemma EnabledByOwnEntries(a: Record, b: Record, platform: string)
    requires PlatformEntries(a, platform) == PlatformEntries(b, platform)
    ensures HasRequiredField(a, platform) == HasRequiredField(b, platform)
  {
    forall i | 0 <= i < |RequiredSuffixes|
      ensures IsSet(a, platform + RequiredSuffixes[i]) == IsSet(b, platform + RequiredSuffixes[i])
    {
      var k := platform + RequiredSuffixes[i];
      assert k[..|platform + "_"|] == platform + "_";
      assert k in a <==> k in PlatformEntries(a, platform);
      assert k in b <==> k in PlatformEntries(b, platform);
    }
    RequiredFieldIff(a, platform);
    RequiredFieldIff(b, platform);
  }

  /** `getEventMappings`: the type's entry of the `event_mappings` setting
      or [], or the whole setting without a type; the return type is
      `array`. */
  function EventMappings(items: Record, eventType: Option<string>): (r: Result<Value>)
    ensures r.Ok? ==> r.value.IsArray()
    ensures r.Err? ==> r.error == TypeError("return")
    ensures eventType.None? ==> r == AsArray(Setting(items, "event_mappings", VList([])), "return")
    ensures eventType.Some? && !ArrayKeyExists(Setting(items, "event_mappings", VList([])), eventType.value) ==>
      r == Ok(VList([]))
  {
    var mappings := Setting(items, "event_mappings", VList([]));
    match eventType
    case Some(t) => AsArray(Coalesce(ArrayGet(mappings, t), VList([])), "return")
    case None => AsArray(mappings, "return")
  }

  /** The listener reads the same list for a type as `getEventMappings`
      returns, when the type's entry is set, and no item is literally named
      with the dotted keys. */
  lemma ListenerReadsSameMapping(items: Record, t: string)
    requires '.' !in t
    requires Package + "." + "event_mappings" !in items
    requires Package + "." + ("event_mappings" + "." + t) !in items
    requires ArrayGet(Setting(items, "event_mappings", VList([])), t) != VNull
    requires EventMappings(items, Some(t)).Ok?
    ensures Setting(items, "event_mappings" + "." + t, VList([])) == EventMappings(items, Some(t)).value
  {
    SettingNested(items, "event_mappings", t);
  }

  /** `platforms()`: the keys of the `platforms` setting, which
      `array_keys` needs to be an array. */
  function Platforms(items: Record): (r: Result<set<string>>)
    ensures r.Ok? <==> Setting(items, "platforms", VList([])).IsArray()
    ensures Setting(items, "platforms", VList([])).VDict? ==> r == Ok(Setting(items, "platforms", VList([])).entries.Keys)
  {
    var v := Setting(items, "platforms", VList([]));
    if v.IsArray() then Ok(Entries(v).Keys) else Err(TypeError("array"))
  }

  /** With a `platforms` array in the package configuration, the names are
      its keys. */
  lemma PlatformsAreKeys(items: Record, package: Record, platforms: Record)
    requires Package + "." + "platforms" !in items
    requires Package in items && items[Package] == VDict(package)
    requires "platforms" in package && package["platforms"] == VDict(platforms)
    ensures Platforms(items) == Ok(platforms.Keys)
  {
    SettingOneLevel(items, "platforms", VList([]));
  }
}
