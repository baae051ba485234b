/** Read access to the package configuration array, each setting with its
    default, and the event-type to platform mapping. */
module Config {
  import opened Php
  import opened EventTypes
  import opened PlatformTypes

  /** The platforms of a configured name list, in list order, dropping the
      names that are no platform (`array_filter` with `tryFrom`, then
      `array_map` with `from`). Under strict types `tryFrom` refuses a
      non-string with a TypeError. */
  function MappedPlatforms(names: seq<Value>): (r: Result<seq<PlatformType>>)
    ensures r.Err? <==> exists i :: 0 <= i < |names| && !names[i].VStr?
    ensures r.Err? ==> r.error.TypeError?
    ensures r.Ok? ==> |r.value| <= |names|
  {
    if |names| == 0 then Ok([])
    else
      var rest := MappedPlatforms(names[1..]);
      assert forall i :: 1 <= i < |names| ==> names[i] == names[1..][i - 1];
      if !names[0].VStr? then Err(TypeError("value"))
      else if rest.Err? then rest
      else match PlatformTypes.TryFromString(names[0].s)
        case Some(p) => Ok([p] + rest.value)
        case None => rest
  }

  /** The platforms among the given cases whose names are among `values`,
      in the cases' order. */
  function CasesNamed(cs: seq<PlatformType>, values: set<Value>): (r: seq<PlatformType>)
    ensures forall p :: p in r <==> p in cs && VStr(p.Value()) in values
  {
    if |cs| == 0 then []
    else (if VStr(cs[0].Value()) in values then [cs[0]] else []) + CasesNamed(cs[1..], values)
  }

  /** The platforms of a keyed name array (`array_filter` and `array_map`
      visit every value whatever its key), each once, in declaration
      order. A value that is no string is refused by `tryFrom` with a
      TypeError. */
  function MappedValues(entries: map<string, Value>): (r: Result<seq<PlatformType>>)
    ensures r.Err? <==> exists k :: k in entries && !entries[k].VStr?
    ensures r.Err? ==> r.error.TypeError?
    ensures r.Ok? ==> forall p :: p in r.value <==> exists k :: k in entries && entries[k] == VStr(p.Value())
  {
    if exists k :: k in entries && !entries[k].VStr? then Err(TypeError("value"))
    else
      var r := CasesNamed(PlatformTypes.Cases, entries.Values);
      assert forall p :: p in r <==> exists k :: k in entries && entries[k] == VStr(p.Value()) by {
        forall p ensures p in r <==> exists k :: k in entries && entries[k] == VStr(p.Value()) {
          PlatformTypes.CasesComplete(p);
          if VStr(p.Value()) in entries.Values {
            var k :| k in entries && entries[k] == VStr(p.Value());
          }
        }
      }
      Ok(r)
  }

  lemma HeadIn<T>(s: seq<T>)
    ensures |s| > 0 ==> s[0] in s
  {
  }

  /** A keyed entry is read by its value: `['x' => 'meta']` maps to Meta. */
  lemma KeyedNameRead(k: string)
    ensures MappedValues(map[k := VStr("meta")]) == Ok([Meta])
  {
    var entries := map[k := VStr("meta")];
    var values := entries.Values;
    forall v | v in values ensures v == VStr("meta") {
      var j :| j in entries && entries[j] == v;
    }
    assert entries[k] in values;
    assert values == {VStr("meta")};
    assert !exists j :: j in entries && !entries[j].VStr?;
    var cs := PlatformTypes.Cases;
    assert cs[1..] == [Google, TikTok, Pinterest, Snapchat, Brevo];
    var rest := CasesNamed(cs[1..], values);
    assert forall p :: p !in rest;
    HeadIn(rest);
    assert rest == [];
    assert cs[0] == Meta && VStr(Meta.Value()) in values;
    assert CasesNamed(cs, values) == [Meta] + rest;
    assert MappedValues(entries) == Ok(CasesNamed(cs, values));
    assert CasesNamed(cs, values) == [Meta];
  }

  /** A type whose entry is keyed, `'purchase' => ['x' => 'meta']`, is
      mapped to Meta. */
  lemma KeyedMappingSelects(config: ConfigService, t: EventType, k: string)
    requires config.MappingFor(t) == VDict(map[k := VStr("meta")])
    ensures config.GetEventMappings(t) == Ok([Meta])
  {
    KeyedNameRead(k);
  }

  /** A platform is selected exactly when its name is configured. */
  lemma {:induction false} MappedMembers(names: seq<Value>, p: PlatformType)
    requires MappedPlatforms(names).Ok?
    ensures p in MappedPlatforms(names).value <==> VStr(p.Value()) in names
  {
    if |names| > 0 {
      assert forall i :: 1 <= i < |names| ==> names[i] == names[1..][i - 1];
      assert names == [names[0]] + names[1..];
      MappedMembers(names[1..], p);
      var q := PlatformTypes.TryFromString(names[0].s);
      if q.Some? && VStr(p.Value()) == names[0] {
        PlatformTypes.ValueInjective(p, q.value);
      }
      if VStr(p.Value()) == names[0] {
        PlatformTypes.TryFromValue(p);
      }
    }
  }

  /** A name appended to the configured list adds its platform at the end;
      a name that is no platform is dropped without error. */
  lemma {:induction false} MappedAppend(names: seq<Value>, s: string)
    requires MappedPlatforms(names).Ok?
    ensures MappedPlatforms(names + [VStr(s)]) ==
      Ok(MappedPlatforms(names).value +
         (if PlatformTypes.TryFromString(s).Some? then [PlatformTypes.TryFromString(s).value] else []))
  {
    if |names| == 0 {
      assert names + [VStr(s)] == [VStr(s)];
      assert [VStr(s)][1..] == [];
      assert MappedPlatforms(names) == Ok([]);
      assert MappedPlatforms([VStr(s)][1..]) == Ok([]);
      var tail := if PlatformTypes.TryFromString(s).Some? then [PlatformTypes.TryFromString(s).value] else [];
      var one := [VStr(s)];
      assert one[0].VStr? && one[0].s == s;
      match PlatformTypes.TryFromString(s)
      case Some(p) =>
        assert MappedPlatforms(one) == Ok([p] + []);
        assert [p] + [] == [p];
        assert [] + tail == tail;
      case None =>
        assert MappedPlatforms(one) == Ok([]);
        assert MappedPlatforms(names).value + tail == [];
    } else {
      var tail := if PlatformTypes.TryFromString(s).Some? then [PlatformTypes.TryFromString(s).value] else [];
      assert (names + [VStr(s)])[1..] == names[1..] + [VStr(s)];
      assert (names + [VStr(s)])[0] == names[0];
      MappedAppend(names[1..], s);
      var rest := MappedPlatforms(names[1..]).value;
      match PlatformTypes.TryFromString(names[0].s)
      case Some(p) =>
        assert MappedPlatforms(names).value == [p] + rest;
        assert ([p] + rest) + tail == [p] + (rest + tail);
      case None =>
    }
  }

  /** The configured names of a list of platforms. */
  function Names(ps: seq<PlatformType>): (r: seq<Value>)
    ensures |r| == |ps|
    ensures forall i :: 0 <= i < |ps| ==> r[i] == VStr(ps[i].Value())
  {
    if |ps| == 0 then [] else [VStr(ps[0].Value())] + Names(ps[1..])
  }

  /** Configuring the names of platforms selects those platforms, in order. */
  lemma {:induction false} MappedNames(ps: seq<PlatformType>)
    ensures MappedPlatforms(Names(ps)) == Ok(ps)
  {
    if |ps| > 0 {
      var n := Names(ps);
      var p := ps[0];
      assert n[1..] == Names(ps[1..]);
      assert n[0] == VStr(p.Value());
      MappedNames(ps[1..]);
      PlatformTypes.TryFromValue(p);
      assert MappedPlatforms(n) == Ok([p] + ps[1..]);
      assert ps == [p] + ps[1..];
    }
  }

  /** The configuration array. */
  datatype ConfigService = ConfigService(config: Record)
  {
    /** `getAppId`: `(int) $config['app_id']`. */
    function GetAppId(): int { ToInt(Lookup(config, "app_id")) }

    /** A `string` getter with a default; a value of another type breaks the
        return type. */
    function StringSetting(key: string, default: string): (r: Result<string>)
      ensures !IsSet(config, key) ==> r == Ok(default)
      ensures IsSet(config, key) ==> r == AsString(config[key], key)
    {
      AsString(Coalesce(Lookup(config, key), VStr(default)), key)
    }

    function GetDbConnection(): Result<string> { StringSetting("connection", "mongodb") }
    function GetEventCollection(): Result<string> { StringSetting("collection", "mp_customer_event") }
    function GetApplicationsCollection(): Result<string> { StringSetting("applications_collection", "applications") }
    function GetQueue(): Result<string> { StringSetting("queue", "default") }

    /** `(bool) ($config[$section][$key] ?? true)`. */
    predicate Flag(section: string, key: string) {
      Truthy(Coalesce(Field(Lookup(config, section), key), VBool(true)))
    }

    /** `(int) ($config[$section][$key] ?? $default)`. */
    function Number(section: string, key: string, default: int): int {
      ToInt(Coalesce(Field(Lookup(config, section), key), VInt(default)))
    }

    predicate IsLoggingEnabled() { Truthy(Coalesce(Lookup(config, "logging"), VBool(true))) }
    predicate IsCachingEnabled() { Flag("cache", "enabled") }
    function GetCacheTtl(): int { Number("cache", "ttl", 3600) }
    predicate IsRetryEnabled() { Flag("retry", "enabled") }
    function GetRetryMaxAttempts(): int { Number("retry", "max_attempts", 3) }
    predicate IsCircuitBreakerEnabled() { Flag("circuit_breaker", "enabled") }
    function GetCircuitBreakerThreshold(): int { Number("circuit_breaker", "failure_threshold", 5) }
    predicate IsRateLimitingEnabled() { Flag("rate_limiting", "enabled") }
    predicate IsBotDetectionEnabled() { Flag("security", "bot_detection_enabled") }
    predicate IsCredentialEncryptionEnabled() { Flag("security", "encrypt_credentials") }

    /** `$config['event_mappings'][$type] ?? []`. */
    function MappingFor(t: EventType): Value {
      Coalesce(Field(Lookup(config, "event_mappings"), t.Value()), VList([]))
    }

    /** `getEventMappings`: the configured names for the type that are
        platforms. The mapping must be an array; a list keeps its order, a
        keyed array is read by its values. */
    function GetEventMappings(t: EventType): (r: Result<seq<PlatformType>>)
      ensures !MappingFor(t).IsArray() ==> r.Err?
      ensures MappingFor(t).VList? ==> r == MappedPlatforms(MappingFor(t).elems)
      ensures MappingFor(t) == VList([]) ==> r == Ok([])
      ensures MappingFor(t).VDict? ==> r == MappedValues(MappingFor(t).entries)
      ensures r.Ok? ==> forall p :: p in r.value ==> VStr(p.Value()) in ArrayValues(MappingFor(t))
    {
      var m :- AsArray(MappingFor(t), "array");
      if m.VList? then
        var r := MappedPlatforms(m.elems);
        assert r.Ok? ==> forall p :: p in r.value ==> VStr(p.Value()) in m.elems by {
          if r.Ok? {
            forall p | p in r.value ensures VStr(p.Value()) in m.elems {
              MappedMembers(m.elems, p);
            }
          }
        }
        r
      else MappedValues(m.entries)
    }

    /** `getAllEventMappings`: the whole mapping array, or []. */
    function GetAllEventMappings(): (r: Result<Value>)
      ensures r.Ok? ==> r.value.IsArray()
      ensures !IsSet(config, "event_mappings") ==> r == Ok(VList([]))
    {
      AsArray(Coalesce(Lookup(config, "event_mappings"), VList([])), "return")
    }

    /** `getPlatformConfig`: the platform's settings array, or null. */
    function GetPlatformConfig(p: PlatformType): (r: Result<Option<Value>>)
      ensures Field(Lookup(config, "platforms"), p.Value()) == VNull ==> r == Ok(None)
      ensures r.Ok? && r.value.Some? ==> r.value.value.IsArray()
    {
      var v := Field(Lookup(config, "platforms"), p.Value());
      if v == VNull then Ok(None)
      else if v.IsArray() then Ok(Some(v))
      else Err(TypeError("return"))
    }

    /** `getAllPlatformConfigs`: the platforms array, or []. */
    function GetAllPlatformConfigs(): (r: Result<Value>)
      ensures r.Ok? ==> r.value.IsArray()
      ensures !IsSet(config, "platforms") ==> r == Ok(VList([]))
    {
      AsArray(Coalesce(Lookup(config, "platforms"), VList([])), "return")
    }
  }

  /** An empty configuration gives every documented default. */
  lemma EmptyConfigDefaults()
    ensures var c := ConfigService(map[]);
      c.GetQueue() == Ok("default") && c.GetDbConnection() == Ok("mongodb") &&
      c.GetEventCollection() == Ok("mp_customer_event") &&
      c.GetApplicationsCollection() == Ok("applications") &&
      c.IsLoggingEnabled() && c.IsCachingEnabled() && c.GetCacheTtl() == 3600 &&
      c.IsRetryEnabled() && c.GetRetryMaxAttempts() == 3 &&
      c.IsCircuitBreakerEnabled() && c.GetCircuitBreakerThreshold() == 5 &&
      c.IsRateLimitingEnabled() && c.IsBotDetectionEnabled() &&
      c.IsCredentialEncryptionEnabled() && c.GetAppId() == 0 &&
      (forall t :: c.GetEventMappings(t) == Ok([])) &&
      (forall p :: c.GetPlatformConfig(p) == Ok(None))
  {
  }

  /** A setting given as `false`, `0`, `''` or `'0'` switches a flag off. */
  lemma FalsyDisables(c: ConfigService, v: Value)
    requires c.config == map["logging" := v] && !Truthy(v) && v != VNull
    ensures !c.IsLoggingEnabled()
  {
  }

  // ----------------------------------------- the shipped event mapping

  /** The six platforms in the shipped configuration's order. */
  const AllPlatforms: seq<PlatformType> := [Meta, Google, TikTok, Brevo, Pinterest, Snapchat]

  /** `event_mappings` of the shipped configuration: every type goes to all
      six platforms, except `customize_product`, which goes to Meta only. */
  function ShippedMappings(): Value {
    VDict(map t: EventType | t in EventTypes.Cases ::
      t.Value() := if t == CustomizeProduct then VList(Names([Meta])) else VList(Names(AllPlatforms)))
  }

  /** With the shipped configuration, the selection candidates of each type. */
  lemma ShippedEventMappings(t: EventType)
    ensures ConfigService(map["event_mappings" := ShippedMappings()]).GetEventMappings(t) ==
      Ok(if t == CustomizeProduct then [Meta] else AllPlatforms)
  {
    var c := ConfigService(map["event_mappings" := ShippedMappings()]);
    EventTypes.CasesComplete(t);
    var m := ShippedMappings().entries;
    assert t.Value() in m;
    forall u | u in EventTypes.Cases && u.Value() == t.Value()
      ensures u == t
    {
      EventTypes.ValueInjective(u, t);
    }
    assert m[t.Value()] == if t == CustomizeProduct then VList(Names([Meta])) else VList(Names(AllPlatforms));
    assert c.MappingFor(t) == m[t.Value()];
    if t == CustomizeProduct {
      MappedNames([Meta]);
    } else {
      MappedNames(AllPlatforms);
    }
  }
}
