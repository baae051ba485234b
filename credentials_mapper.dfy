/** The mapping between an application's credentials and the flat settings
    array kept in the document store: each public property of each
    platform's record becomes `<platform>_<property in snake case>`. */
module CredentialsMapping {
  import opened Php
  import opened PlatformTypes
  import opened PinterestEnvironments
  import opened PixelCredentials
  import opened Entities

  // ------------------------------------------------------------ names

  predicate NoCapitals(s: string) {
    forall i :: 0 <= i < |s| ==> !IsUpperAscii(s[i])
  }

  /** Every ASCII capital of `s` lower-cased with `_` put before it. */
  function Marked(s: string): string {
    if |s| == 0 then ""
    else (if IsUpperAscii(s[0]) then "_" else "") + [LowerChar(s[0])] + Marked(s[1..])
  }

  /** `camelToSnake`: `strtolower` of the name with `_` put before every
      capital but a leading one. */
  function CamelToSnake(s: string): string {
    if |s| == 0 then "" else [LowerChar(s[0])] + Marked(s[1..])
  }

  lemma {:induction false} MarkedNoCapitals(s: string)
    requires NoCapitals(s)
    ensures Marked(s) == s
  {
    if |s| > 0 {
      MarkedNoCapitals(s[1..]);
      assert [s[0]] + s[1..] == s;
    }
  }

  lemma {:induction false} MarkedAppend(s: string, t: string)
    ensures Marked(s + t) == Marked(s) + Marked(t)
  {
    if |s| > 0 {
      MarkedAppend(s[1..], t);
      assert (s + t)[1..] == s[1..] + t;
    } else {
      assert s + t == t;
    }
  }

  /** A name with no capital is already snake case and is kept as it is. */
  lemma CamelToSnakeKeepsLower(s: string)
    requires NoCapitals(s)
    ensures CamelToSnake(s) == s
  {
    if |s| > 0 {
      MarkedNoCapitals(s[1..]);
      assert [s[0]] + s[1..] == s;
    }
  }

  /** Each word boundary of a camel-case name becomes an underscore:
      `head` + capital + `tail` turns into `head_` + small letter + `tail`. */
  lemma CamelToSnakeBoundary(head: string, cap: char, tail: string)
    requires |head| > 0 && NoCapitals(head) && NoCapitals(tail) && IsUpperAscii(cap)
    ensures CamelToSnake(head + [cap] + tail) == head + "_" + [LowerChar(cap)] + tail
  {
    var s := head + [cap] + tail;
    assert s[1..] == head[1..] + [cap] + tail;
    MarkedAppend(head[1..] + [cap], tail);
    MarkedAppend(head[1..], [cap]);
    MarkedNoCapitals(head[1..]);
    MarkedNoCapitals(tail);
    assert Marked([cap]) == "_" + [LowerChar(cap)] by {
      assert [cap][1..] == [];
    }
    assert [LowerChar(s[0])] + head[1..] == head;
  }

  /** The settings key of a platform's property. */
  function FieldName(p: PlatformType, property: string): string {
    p.Value() + "_" + CamelToSnake(property)
  }

  /** The keys a record's properties are stored under, in property order:
      the keys `fromArray` reads and, for Pinterest, the environment key. */
  function StoredKeys(p: PlatformType): seq<string> {
    Keys(p) + (if p == Pinterest then [PinterestEnvironmentKey] else [])
  }

  /** A platform's stored keys are distinct, start with the keys
      `fromArray` reads, and belong to no other platform. */
  lemma StoredKeysShape(p: PlatformType, q: PlatformType)
    ensures |StoredKeys(p)| == |PropertyNames(p)| && StoredKeys(p)[..|Keys(p)|] == Keys(p)
    ensures forall i, j :: 0 <= i < j < |StoredKeys(p)| ==> StoredKeys(p)[i] != StoredKeys(p)[j]
    ensures p != q ==> forall k :: k in StoredKeys(p) ==> k !in StoredKeys(q)
  {
  }

  /** The keys `fromArray` reads come first among the stored keys. */
  lemma KeysListed(p: PlatformType)
    ensures |Keys(p)| < |StoredKeys(p)| || (|Keys(p)| == |StoredKeys(p)| && p != Pinterest)
    ensures forall i :: 0 <= i < |Keys(p)| ==> StoredKeys(p)[i] == Keys(p)[i]
  {
  }

  /** A stored key names one property of one platform. */
  lemma StoredKeyOwner(p: PlatformType, i: nat, q: PlatformType, j: nat)
    requires i < |StoredKeys(p)| && j < |StoredKeys(q)| && StoredKeys(p)[i] == StoredKeys(q)[j]
    ensures p == q && i == j
  {
    StoredKeysShape(p, q);
  }

  /** Snake-casing the property names gives exactly the keys the records
      are read back from. */
  lemma FieldNamesAreStoredKeys(p: PlatformType, i: nat)
    requires i < |PropertyNames(p)|
    ensures FieldName(p, PropertyNames(p)[i]) == StoredKeys(p)[i]
  {
    match p
    case Meta => KeysMeta(i);
    case Google => KeysGoogle(i);
    case TikTok => KeysTikTok(i);
    case Pinterest => KeysPinterest(i);
    case Snapchat => KeysSnapchat(i);
    case Brevo => KeysBrevo(i);
  }

  lemma KeysMeta(i: nat)
    requires i < |PropertyNames(Meta)|
    ensures FieldName(Meta, PropertyNames(Meta)[i]) == StoredKeys(Meta)[i]
  {
    if i == 0 { KeyMeta0(); } else { KeyMeta1(); }
  }

  lemma KeysGoogle(i: nat)
    requires i < |PropertyNames(Google)|
    ensures FieldName(Google, PropertyNames(Google)[i]) == StoredKeys(Google)[i]
  {
    if i == 0 { KeyGoogle0(); } else { KeyGoogle1(); }
  }

  lemma KeysTikTok(i: nat)
    requires i < |PropertyNames(TikTok)|
    ensures FieldName(TikTok, PropertyNames(TikTok)[i]) == StoredKeys(TikTok)[i]
  {
    if i == 0 { KeyTikTok0(); } else { KeyTikTok1(); }
  }

  lemma KeysPinterest(i: nat)
    requires i < |PropertyNames(Pinterest)|
    ensures FieldName(Pinterest, PropertyNames(Pinterest)[i]) == StoredKeys(Pinterest)[i]
  {
    if i == 0 { KeyPinterest0(); } else if i == 1 { KeyPinterest1(); } else { KeyPinterest2(); }
  }

  lemma KeysSnapchat(i: nat)
    requires i < |PropertyNames(Snapchat)|
    ensures FieldName(Snapchat, PropertyNames(Snapchat)[i]) == StoredKeys(Snapchat)[i]
  {
    if i == 0 { KeySnapchat0(); } else { KeySnapchat1(); }
  }

  lemma KeysBrevo(i: nat)
    requires i < |PropertyNames(Brevo)|
    ensures FieldName(Brevo, PropertyNames(Brevo)[i]) == StoredKeys(Brevo)[i]
  {
    KeyBrevo0();
  }

  lemma KeyMeta0()
    ensures FieldName(Meta, PropertyNames(Meta)[0]) == StoredKeys(Meta)[0]
  {
    SnakePixelId();
    StoredMeta0();
  }

  lemma StoredMeta0()
    ensures Meta.Value() + "_" + "pixel_id" == StoredKeys(Meta)[0]
  {
  }

  lemma KeyMeta1()
    ensures FieldName(Meta, PropertyNames(Meta)[1]) == StoredKeys(Meta)[1]
  {
    SnakeAccessToken();
    StoredMeta1();
  }

  lemma StoredMeta1()
    ensures Meta.Value() + "_" + "access_token" == StoredKeys(Meta)[1]
  {
  }

  lemma KeyGoogle0()
    ensures FieldName(Google, PropertyNames(Google)[0]) == StoredKeys(Google)[0]
  {
    SnakeMeasurementId();
    StoredGoogle0();
  }

  lemma StoredGoogle0()
    ensures Google.Value() + "_" + "measurement_id" == StoredKeys(Google)[0]
  {
  }

  lemma KeyGoogle1()
    ensures FieldName(Google, PropertyNames(Google)[1]) == StoredKeys(Google)[1]
  {
    SnakeApiSecret();
    StoredGoogle1();
  }

  lemma StoredGoogle1()
    ensures Google.Value() + "_" + "api_secret" == StoredKeys(Google)[1]
  {
  }

  lemma KeyTikTok0()
    ensures FieldName(TikTok, PropertyNames(TikTok)[0]) == StoredKeys(TikTok)[0]
  {
    SnakePixelCode();
    StoredTikTok0();
  }

  lemma StoredTikTok0()
    ensures TikTok.Value() + "_" + "pixel_code" == StoredKeys(TikTok)[0]
  {
  }

  lemma KeyTikTok1()
    ensures FieldName(TikTok, PropertyNames(TikTok)[1]) == StoredKeys(TikTok)[1]
  {
    SnakeAccessToken();
    StoredTikTok1();
  }

  lemma StoredTikTok1()
    ensures TikTok.Value() + "_" + "access_token" == StoredKeys(TikTok)[1]
  {
  }

  lemma KeyPinterest0()
    ensures FieldName(Pinterest, PropertyNames(Pinterest)[0]) == StoredKeys(Pinterest)[0]
  {
    SnakeAccountId();
    StoredPinterest0();
  }

  lemma StoredPinterest0()
    ensures Pinterest.Value() + "_" + "account_id" == StoredKeys(Pinterest)[0]
  {
  }

  lemma KeyPinterest1()
    ensures FieldName(Pinterest, PropertyNames(Pinterest)[1]) == StoredKeys(Pinterest)[1]
  {
    SnakeAccessToken();
    StoredPinterest1();
  }

  lemma StoredPinterest1()
    ensures Pinterest.Value() + "_" + "access_token" == StoredKeys(Pinterest)[1]
  {
  }

  lemma KeyPinterest2()
    ensures FieldName(Pinterest, PropertyNames(Pinterest)[2]) == StoredKeys(Pinterest)[2]
  {
    SnakeEnvironment();
    StoredPinterest2();
  }

  lemma StoredPinterest2()
    ensures Pinterest.Value() + "_" + "environment" == StoredKeys(Pinterest)[2]
  {
  }

  lemma KeySnapchat0()
    ensures FieldName(Snapchat, PropertyNames(Snapchat)[0]) == StoredKeys(Snapchat)[0]
  {
    SnakePixelId();
    StoredSnapchat0();
  }

  lemma StoredSnapchat0()
    ensures Snapchat.Value() + "_" + "pixel_id" == StoredKeys(Snapchat)[0]
  {
  }

  lemma KeySnapchat1()
    ensures FieldName(Snapchat, PropertyNames(Snapchat)[1]) == StoredKeys(Snapchat)[1]
  {
    SnakeAccessToken();
    StoredSnapchat1();
  }

  lemma StoredSnapchat1()
    ensures Snapchat.Value() + "_" + "access_token" == StoredKeys(Snapchat)[1]
  {
  }

  lemma KeyBrevo0()
    ensures FieldName(Brevo, PropertyNames(Brevo)[0]) == StoredKeys(Brevo)[0]
  {
    SnakeApiKey();
    StoredBrevo0();
  }

  lemma StoredBrevo0()
    ensures Brevo.Value() + "_" + "api_key" == StoredKeys(Brevo)[0]
  {
  }

  /** The record properties in snake case, one word boundary each. */
  lemma SnakePixelId()
    ensures CamelToSnake("pixelId") == "pixel_id"
  {
    Boundary("pixel", 'I', "d", "pixelId", "pixel_id");
  }

  lemma SnakeAccessToken()
    ensures CamelToSnake("accessToken") == "access_token"
  {
    Boundary("access", 'T', "oken", "accessToken", "access_token");
  }

  lemma SnakeMeasurementId()
    ensures CamelToSnake("measurementId") == "measurement_id"
  {
    Boundary("measurement", 'I', "d", "measurementId", "measurement_id");
  }

  lemma SnakeApiSecret()
    ensures CamelToSnake("apiSecret") == "api_secret"
  {
    Boundary("api", 'S', "ecret", "apiSecret", "api_secret");
  }

  lemma SnakePixelCode()
    ensures CamelToSnake("pixelCode") == "pixel_code"
  {
    Boundary("pixel", 'C', "ode", "pixelCode", "pixel_code");
  }

  lemma SnakeAccountId()
    ensures CamelToSnake("accountId") == "account_id"
  {
    Boundary("account", 'I', "d", "accountId", "account_id");
  }

  lemma SnakeApiKey()
    ensures CamelToSnake("apiKey") == "api_key"
  {
    Boundary("api", 'K', "ey", "apiKey", "api_key");
  }

  lemma SnakeEnvironment()
    ensures CamelToSnake("environment") == "environment"
  {
    assert NoCapitals("environment");
    CamelToSnakeKeepsLower("environment");
  }

  lemma Boundary(head: string, cap: char, tail: string, name: string, snake: string)
    requires name == head + [cap] + tail && snake == head + "_" + [LowerChar(cap)] + tail
    requires |head| > 0 && NoCapitals(head) && NoCapitals(tail) && IsUpperAscii(cap)
    ensures CamelToSnake(name) == snake
  {
    CamelToSnakeBoundary(head, cap, tail);
  }

  // --------------------------------------------------------- to array

  /** How `toArray` lays out a property: the key it is stored under and
      the form its value is stored in. */
  datatype Layout = Layout(key: (PlatformType, string) -> string, store: Value -> Value,
                           stored: PlatformType -> seq<string>)

  /** As written: the snake-case key, and the value as it is, so the
      Pinterest environment stays an enum object. */
  function AsWritten(): Layout {
    Layout(FieldName, (v: Value) => v, StoredKeys)
  }

  /** What storing evidently intends: an enum stored by its backing
      value. */
  function Corrected(): Layout {
    Layout(FieldName, (v: Value) => if v.VEnum? then VStr(v.backing) else v, StoredKeys)
  }

  /** The layout puts each property of a platform, in order, under the
      keys it lists for that platform. */
  ghost predicate KeysAgree(l: Layout) {
    (forall p: PlatformType :: |l.stored(p)| == |PropertyNames(p)|) &&
    forall p: PlatformType, i :: 0 <= i < |PropertyNames(p)| ==> l.key(p, PropertyNames(p)[i]) == l.stored(p)[i]
  }

  /** Every listed key belongs to one property of one platform. */
  ghost predicate KeysOwned(l: Layout) {
    forall p: PlatformType, i, q: PlatformType, j ::
      0 <= i < |l.stored(p)| && 0 <= j < |l.stored(q)| && l.stored(p)[i] == l.stored(q)[j] ==> p == q && i == j
  }

  /** The keys listed are the ones `fromArray` reads, and then the
      Pinterest environment key. */
  ghost predicate ListsStoredKeys(l: Layout) {
    forall p: PlatformType :: l.stored(p) == StoredKeys(p)
  }

  lemma LayoutsAgree()
    ensures KeysAgree(AsWritten()) && KeysOwned(AsWritten()) && ListsStoredKeys(AsWritten())
    ensures KeysAgree(Corrected()) && KeysOwned(Corrected()) && ListsStoredKeys(Corrected())
  {
    forall p: PlatformType
      ensures |StoredKeys(p)| == |PropertyNames(p)|
    {
      StoredKeysShape(p, p);
    }
    forall p: PlatformType, i | 0 <= i < |PropertyNames(p)|
      ensures FieldName(p, PropertyNames(p)[i]) == StoredKeys(p)[i]
    {
      FieldNamesAreStoredKeys(p, i);
    }
    forall p: PlatformType, i, q: PlatformType, j |
      0 <= i < |StoredKeys(p)| && 0 <= j < |StoredKeys(q)| && StoredKeys(p)[i] == StoredKeys(q)[j]
      ensures p == q && i == j
    {
      StoredKeyOwner(p, i, q, j);
    }
  }

  /** The entries one record contributes. */
  function Fields(p: PlatformType, props: seq<(string, Value)>, l: Layout): Record
    decreases |props|
  {
    if |props| == 0 then map[]
    else Fields(p, props[..|props| - 1], l)[l.key(p, props[|props| - 1].0) := l.store(props[|props| - 1].1)]
  }

  /** The entries of the platforms `ps` that have credentials. */
  function Flattened(m: map<string, Credentials>, ps: seq<PlatformType>, l: Layout): Record
    decreases |ps|
  {
    if |ps| == 0 then map[]
    else
      var p := ps[|ps| - 1];
      Flattened(m, ps[..|ps| - 1], l) +
        (if p.Value() in m then Fields(p, m[p.Value()].Properties(), l) else map[])
  }

  /** `toArray` as written: the platforms in declaration order, and for
      each stored record its public properties in declaration order. */
  method ToArray(a: ApplicationCredentials) returns (data: Record)
    ensures data == Flattened(a.credentials, PlatformTypes.Cases, AsWritten())
  {
    data := Flatten(a, AsWritten());
  }

  /** `toArray` with enum values stored by their backing value. */
  method ToArrayCorrected(a: ApplicationCredentials) returns (data: Record)
    ensures data == Flattened(a.credentials, PlatformTypes.Cases, Corrected())
  {
    data := Flatten(a, Corrected());
  }

  method Flatten(a: ApplicationCredentials, l: Layout) returns (data: Record)
    ensures data == Flattened(a.credentials, PlatformTypes.Cases, l)
  {
    var ps := PlatformTypes.Cases;
    data := map[];
    var i := 0;
    while i < |ps|
      invariant 0 <= i <= |ps|
      invariant data == Flattened(a.credentials, ps[..i], l)
    {
      var p := ps[i];
      assert ps[..i + 1][..i] == ps[..i] && ps[..i + 1][i] == p;
      var found := a.GetCredentialsFor(p);
      if found.Some? {
        data := PutFields(data, p, found.value.Properties(), l);
      } else {
        assert data == Flattened(a.credentials, ps[..i], l) + map[];
      }
      i := i + 1;
    }
    assert ps[..|ps|] == ps;
  }

  /** The inner loop of `toArray`: one entry per property, in order. */
  method PutFields(data: Record, p: PlatformType, props: seq<(string, Value)>, l: Layout) returns (r: Record)
    ensures r == data + Fields(p, props, l)
  {
    r := data;
    var j := 0;
    while j < |props|
      invariant 0 <= j <= |props|
      invariant r == data + Fields(p, props[..j], l)
    {
      assert props[..j + 1][..j] == props[..j] && props[..j + 1][j] == props[j];
      r := r[l.key(p, props[j].0) := l.store(props[j].1)];
      j := j + 1;
    }
    assert props[..|props|] == props;
  }

  lemma {:induction false} FieldsLookup(p: PlatformType, props: seq<(string, Value)>, l: Layout)
    requires forall i, j :: 0 <= i < j < |props| ==> l.key(p, props[i].0) != l.key(p, props[j].0)
    ensures forall k :: k in Fields(p, props, l) <==> exists i :: 0 <= i < |props| && l.key(p, props[i].0) == k
    ensures forall i :: 0 <= i < |props| ==> Fields(p, props, l)[l.key(p, props[i].0)] == l.store(props[i].1)
    decreases |props|
  {
    if |props| > 0 {
      var init := props[..|props| - 1];
      assert forall i :: 0 <= i < |init| ==> init[i] == props[i];
      FieldsLookup(p, init, l);
    }
  }

  /** Under a layout whose keys agree, a record's entries are its stored
      keys, each holding the stored form of the matching property. */
  lemma FieldsOf(c: Credentials, l: Layout)
    requires KeysAgree(l) && KeysOwned(l)
    ensures var f := Fields(c.PlatformType(), c.Properties(), l);
      var ks := l.stored(c.PlatformType());
      (forall k :: k in f <==> k in ks) &&
      forall i :: 0 <= i < |ks| ==> f[ks[i]] == l.store(c.Properties()[i].1)
  {
    var p := c.PlatformType();
    var props := c.Properties();
    assert forall i :: 0 <= i < |props| ==> l.key(p, props[i].0) == l.stored(p)[i];
    FieldsLookup(p, props, l);
  }

  /** The flattened array holds a platform's stored keys exactly when the
      platform has credentials, each with the stored form of its property. */
  lemma {:induction false} FlattenedLookup(m: map<string, Credentials>, ps: seq<PlatformType>,
                                          l: Layout, p: PlatformType, i: nat)
    requires OwnKeys(m) && KeysAgree(l) && KeysOwned(l) && i < |l.stored(p)|
    ensures l.stored(p)[i] in Flattened(m, ps, l) <==> p in ps && p.Value() in m
    ensures l.stored(p)[i] in Flattened(m, ps, l) ==>
      Flattened(m, ps, l)[l.stored(p)[i]] == l.store(m[p.Value()].Properties()[i].1)
    decreases |ps|
  {
    if |ps| > 0 {
      var q := ps[|ps| - 1];
      FlattenedLookup(m, ps[..|ps| - 1], l, p, i);
      assert p in ps <==> p in ps[..|ps| - 1] || p == q;
      if q.Value() in m {
        LastFields(m, l, p, i, q);
      }
    }
  }

  /** What the last platform's record adds holds the key of `p`'s
      property exactly when it is `p`'s record. */
  lemma LastFields(m: map<string, Credentials>, l: Layout, p: PlatformType, i: nat, q: PlatformType)
    requires OwnKeys(m) && KeysAgree(l) && KeysOwned(l) && i < |l.stored(p)| && q.Value() in m
    ensures l.stored(p)[i] in Fields(q, m[q.Value()].Properties(), l) <==> p == q
    ensures p == q ==> Fields(q, m[q.Value()].Properties(), l)[l.stored(p)[i]] == l.store(m[p.Value()].Properties()[i].1)
  {
    var c := m[q.Value()];
    FieldsOf(c, l);
    assert c.PlatformType() == q;
  }

  // -------------------------------------------------------- to domain

  /** The `isset` guard of `toDomain` for a platform: all its read keys. */
  predicate Present(p: PlatformType, data: Record) {
    forall k :: k in Keys(p) ==> IsSet(data, k)
  }

  /** The key order and entries of an `ApplicationCredentials`. */
  type Snapshot = (seq<string>, map<string, Credentials>)

  /** `setCredentials` on a snapshot: the entry is replaced, and a new key
      goes last. */
  function Put(e: Snapshot, c: Credentials): Snapshot {
    var k := c.PlatformType().Value();
    (if k in e.0 then e.0 else e.0 + [k], e.1[k := c])
  }

  /** One guarded step of `toDomain`: nothing when the platform's keys are
      not all set, otherwise its record read with `fromArray` and set. */
  function Step(e: Snapshot, data: Record, p: PlatformType): Result<Snapshot> {
    if Present(p, data) then
      var c :- FromArray(p, data);
      Ok(Put(e, c))
    else Ok(e)
  }

  /** The steps for `ps` in order from `e`; the first failure ends it. */
  function Run(e: Snapshot, data: Record, ps: seq<PlatformType>): Result<Snapshot>
    decreases |ps|
  {
    if |ps| == 0 then Ok(e)
    else
      var next :- Step(e, data, ps[0]);
      Run(next, data, ps[1..])
  }

  /** What `toDomain` builds from `data`: the steps for every platform in
      declaration order, from no credentials. */
  function Decoded(data: Record): Result<Snapshot> {
    Run(([], map[]), data, PlatformTypes.Cases)
  }

  /** One `if (isset(...)) setCredentials(...::fromArray(...))` block. */
  method SetIfPresent(a: ApplicationCredentials, data: Record, p: PlatformType) returns (r: Result<()>)
    requires a.Valid()
    modifies a
    ensures a.Valid()
    ensures r.Err? ==> Step(old((a.keys, a.credentials)), data, p) == Err(r.error)
    ensures r.Ok? ==> Step(old((a.keys, a.credentials)), data, p) == Ok((a.keys, a.credentials))
  {
    if !Present(p, data) {
      return Ok(());
    }
    var c := FromArray(p, data);
    if c.Err? {
      return Err(c.error);
    }
    a.SetCredentials(c.value);
    return Ok(());
  }

  /** `toDomain`: a new entity for the application, then one guarded
      `setCredentials` per platform in declaration order; a failing
      `fromArray` propagates. */
  method ToDomain(appId: int, data: Record) returns (r: Result<ApplicationCredentials>)
    ensures Decoded(data).Err? ==> r == Err(Decoded(data).error)
    ensures Decoded(data).Ok? ==> r.Ok? && fresh(r.value)
    ensures r.Ok? ==> r.value.appId == appId && r.value.Valid()
    ensures r.Ok? ==> (r.value.keys, r.value.credentials) == Decoded(data).value
  {
    var a := new ApplicationCredentials(appId);
    var s := SetIfPresent(a, data, Meta);
    if s.Err? { return Err(s.error); }
    s := SetIfPresent(a, data, Google);
    if s.Err? { return Err(s.error); }
    s := SetIfPresent(a, data, TikTok);
    if s.Err? { return Err(s.error); }
    s := SetIfPresent(a, data, Pinterest);
    if s.Err? { return Err(s.error); }
    s := SetIfPresent(a, data, Snapchat);
    if s.Err? { return Err(s.error); }
    s := SetIfPresent(a, data, Brevo);
    if s.Err? { return Err(s.error); }
    return Ok(a);
  }

  /** Running two lists of platforms is running the first, then the
      second from where it left off. */
  lemma {:induction false} RunAppend(e: Snapshot, data: Record, xs: seq<PlatformType>, ys: seq<PlatformType>)
    ensures Run(e, data, xs + ys) == (var mid :- Run(e, data, xs); Run(mid, data, ys))
    decreases |xs|
  {
    if |xs| == 0 {
      assert xs + ys == ys;
    } else {
      assert (xs + ys)[0] == xs[0] && (xs + ys)[1..] == xs[1..] + ys;
      var next := Step(e, data, xs[0]);
      if next.Ok? {
        RunAppend(next.value, data, xs[1..], ys);
      }
    }
  }

  // ------------------------------------------------------- round trip

  /** A layout that stores strings as they are. */
  ghost predicate KeepsStrings(l: Layout) {
    forall s: string {:trigger VStr(s)} :: l.store(VStr(s)) == VStr(s)
  }

  /** A layout that stores an enum object by its backing value. */
  ghost predicate BacksEnums(l: Layout) {
    forall b: string {:trigger VEnum(b)} :: l.store(VEnum(b)) == VStr(b)
  }

  lemma LayoutsStore()
    ensures KeepsStrings(AsWritten()) && KeepsStrings(Corrected()) && BacksEnums(Corrected())
    ensures forall b: string {:trigger VEnum(b)} :: AsWritten().store(VEnum(b)) == VEnum(b)
  {
  }

  /** In the array `toArray` builds, a platform's read keys are there
      exactly when it has credentials, each holding the matching property's
      string. */
  lemma ReadKeys(m: map<string, Credentials>, ps: seq<PlatformType>, l: Layout, p: PlatformType)
    requires OwnKeys(m) && KeysAgree(l) && KeysOwned(l) && ListsStoredKeys(l) && KeepsStrings(l) && p in ps
    ensures forall i :: 0 <= i < |Keys(p)| ==>
      (Keys(p)[i] in Flattened(m, ps, l) <==> p.Value() in m)
    ensures p.Value() in m ==> |Keys(p)| <= |m[p.Value()].Properties()|
    ensures p.Value() in m ==> forall i :: 0 <= i < |Keys(p)| ==>
      Keys(p)[i] in Flattened(m, ps, l) &&
      Flattened(m, ps, l)[Keys(p)[i]] == m[p.Value()].Properties()[i].1 &&
      m[p.Value()].Properties()[i].1.VStr?
  {
    KeysListed(p);
    forall i | 0 <= i < |Keys(p)|
      ensures Keys(p)[i] == l.stored(p)[i]
      ensures Keys(p)[i] in Flattened(m, ps, l) <==> p.Value() in m
    {
      FlattenedLookup(m, ps, l, p, i);
    }
    if p.Value() in m {
      var c := m[p.Value()];
      assert c.PlatformType() == p;
      forall i | 0 <= i < |Keys(p)|
        ensures Keys(p)[i] in Flattened(m, ps, l) &&
          Flattened(m, ps, l)[Keys(p)[i]] == m[p.Value()].Properties()[i].1 &&
          m[p.Value()].Properties()[i].1.VStr?
      {
        FlattenedLookup(m, ps, l, p, i);
        ReadStrings(c, i);
        assert l.store(VStr(c.Properties()[i].1.s)) == VStr(c.Properties()[i].1.s);
      }
    }
  }

  /** Every property `fromArray` reads is a string. */
  lemma ReadStrings(c: Credentials, i: nat)
    requires i < |Keys(c.PlatformType())|
    ensures i < |c.Properties()| && c.Properties()[i].1.VStr?
  {
  }

  /** The `isset` guard over a platform's read keys holds exactly when
      all of them hold strings, or fails when none is there. */
  lemma PresentWhen(p: PlatformType, data: Record, b: bool)
    requires forall i :: 0 <= i < |Keys(p)| ==> (Keys(p)[i] in data <==> b)
    requires b ==> forall i :: 0 <= i < |Keys(p)| ==> data[Keys(p)[i]].VStr?
    ensures Present(p, data) <==> b
  {
    if !b {
      assert Keys(p)[0] in Keys(p);
    }
  }

  /** In the array `toArray` builds, a platform's `isset` guard holds
      exactly when it has credentials. */
  lemma PresentIffStored(m: map<string, Credentials>, ps: seq<PlatformType>, l: Layout, p: PlatformType)
    requires OwnKeys(m) && KeysAgree(l) && KeysOwned(l) && ListsStoredKeys(l) && p in ps && KeepsStrings(l)
    ensures Present(p, Flattened(m, ps, l)) <==> p.Value() in m
  {
    ReadKeys(m, ps, l, p);
    PresentWhen(p, Flattened(m, ps, l), p.Value() in m);
  }

  /** `fromArray` reads a stored record back whenever the layout keeps
      strings and, for Pinterest, stores the environment by its value. */
  lemma ReadBack(m: map<string, Credentials>, ps: seq<PlatformType>, l: Layout, p: PlatformType)
    requires OwnKeys(m) && KeysAgree(l) && KeysOwned(l) && ListsStoredKeys(l) && p in ps && KeepsStrings(l)
    requires p.Value() in m && (p == Pinterest ==> BacksEnums(l))
    ensures FromArray(p, Flattened(m, ps, l)) == Ok(m[p.Value()])
  {
    assert m[p.Value()].PlatformType() == p;
    ReadKeys(m, ps, l, p);
    if p == Pinterest {
      PinterestEnvironmentStored(m, ps, l);
    }
    FromArrayReadsBack(m[p.Value()], Flattened(m, ps, l));
  }

  /** The Pinterest environment is stored under the environment key in
      its stored form. */
  lemma PinterestEnvironmentStored(m: map<string, Credentials>, ps: seq<PlatformType>, l: Layout)
    requires OwnKeys(m) && KeysAgree(l) && KeysOwned(l) && ListsStoredKeys(l) && "pinterest" in m && Pinterest in ps
    ensures PinterestEnvironmentKey in Flattened(m, ps, l)
    ensures Flattened(m, ps, l)[PinterestEnvironmentKey] ==
      l.store(VEnum(m["pinterest"].environment.Value()))
  {
    var c := m["pinterest"];
    assert c.PlatformType() == Pinterest;
    assert l.stored(Pinterest)[2] == PinterestEnvironmentKey;
    FlattenedLookup(m, ps, l, Pinterest, 2);
  }

  /** The platform values of `ps` that have credentials in `m`, in the
      order of `ps`. */
  function InOrder(m: map<string, Credentials>, ps: seq<PlatformType>): seq<string>
    decreases |ps|
  {
    if |ps| == 0 then []
    else if ps[0].Value() in m then [ps[0].Value()] + InOrder(m, ps[1..])
    else InOrder(m, ps[1..])
  }

  /** The credentials of `m` for the platforms in `ps`. */
  function Restrict(m: map<string, Credentials>, ps: seq<PlatformType>): map<string, Credentials> {
    map k | k in m && m[k].PlatformType() in ps :: m[k]
  }

  /** Restricting to a list of platforms is restricting to its head, then
      to the rest. */
  lemma RestrictCons(m: map<string, Credentials>, ps: seq<PlatformType>)
    requires OwnKeys(m) && |ps| > 0
    ensures ps[0].Value() in m ==> Restrict(m, ps) == Restrict(m, ps[1..])[ps[0].Value() := m[ps[0].Value()]]
    ensures ps[0].Value() !in m ==> Restrict(m, ps) == Restrict(m, ps[1..])
  {
    var p := ps[0];
    assert forall q :: q in ps <==> q == p || q in ps[1..];
    forall k | k in m
      ensures m[k].PlatformType() == p <==> k == p.Value()
    {
      if k == p.Value() {
        PlatformTypes.ValueInjective(m[k].PlatformType(), p);
      }
    }
  }

  /** Each platform of `ps` steps to its credentials in `m`, or to
      nothing when it has none there. */
  ghost predicate ReadsBack(data: Record, m: map<string, Credentials>, ps: seq<PlatformType>) {
    forall p, e: Snapshot :: p in ps ==>
      Step(e, data, p) == if p.Value() in m then Ok(Put(e, m[p.Value()])) else Ok(e)
  }

  /** Reading back the platforms `ps` of an array from which each of them
      reads back, starting from a snapshot that has none of them, adds
      their credentials in the order of `ps`. */
  lemma {:induction false} RunRoundTrip(m: map<string, Credentials>, data: Record, e: Snapshot, ps: seq<PlatformType>)
    requires OwnKeys(m) && Distinct(ps) && ReadsBack(data, m, ps)
    requires forall p :: p in ps ==> p.Value() !in e.0 && p.Value() !in e.1
    ensures Run(e, data, ps) == Ok((e.0 + InOrder(m, ps), e.1 + Restrict(m, ps)))
    decreases |ps|
  {
    if |ps| == 0 {
      assert Restrict(m, ps) == map[];
      assert e.0 + [] == e.0 && e.1 + map[] == e.1;
    } else {
      var next := if ps[0].Value() in m then Put(e, m[ps[0].Value()]) else e;
      assert Step(e, data, ps[0]) == Ok(next);
      RunCons(m, e, ps);
      RunRoundTrip(m, data, next, ps[1..]);
    }
  }

  /** The induction step of `RunRoundTrip`: after the head's step the
      rest of the platforms are still missing, and the snapshot plus what
      the rest adds is the snapshot plus what all of them add. */
  lemma RunCons(m: map<string, Credentials>, e: Snapshot, ps: seq<PlatformType>)
    requires OwnKeys(m) && Distinct(ps) && |ps| > 0
    requires forall p :: p in ps ==> p.Value() !in e.0 && p.Value() !in e.1
    ensures var next := if ps[0].Value() in m then Put(e, m[ps[0].Value()]) else e;
      Distinct(ps[1..]) &&
      (forall q :: q in ps[1..] ==> q.Value() !in next.0 && q.Value() !in next.1) &&
      next.0 + InOrder(m, ps[1..]) == e.0 + InOrder(m, ps) &&
      next.1 + Restrict(m, ps[1..]) == e.1 + Restrict(m, ps)
  {
    var p := ps[0];
    var rest := ps[1..];
    assert forall q :: q in rest ==> q in ps && q != p;
    assert Distinct(rest);
    RestrictCons(m, ps);
    if p.Value() in m {
      var c := m[p.Value()];
      PutFresh(e, c, rest);
      RestrictMissing(m, rest, p);
      Shift(e, p.Value(), c, InOrder(m, rest), Restrict(m, rest));
    }
  }

  /** The array `toArray` builds from all of `qs` reads back on each
      platform of `ps` from `qs`, given the layout keeps strings and backs
      the Pinterest environment when there is one. */
  lemma StoredReadsBack(m: map<string, Credentials>, l: Layout, qs: seq<PlatformType>, ps: seq<PlatformType>)
    requires OwnKeys(m) && KeysAgree(l) && KeysOwned(l) && ListsStoredKeys(l) && KeepsStrings(l)
    requires forall p :: p in ps ==> p in qs
    requires "pinterest" in m && Pinterest in ps ==> BacksEnums(l)
    ensures ReadsBack(Flattened(m, qs, l), m, ps)
  {
    forall p, e: Snapshot | p in ps
      ensures Step(e, Flattened(m, qs, l), p) == if p.Value() in m then Ok(Put(e, m[p.Value()])) else Ok(e)
    {
      StepStored(m, l, qs, e, p);
    }
  }

  /** In the array `toArray` builds, a platform's step adds its stored
      credentials, or nothing when it has none. */
  lemma StepStored(m: map<string, Credentials>, l: Layout, qs: seq<PlatformType>, e: Snapshot, p: PlatformType)
    requires OwnKeys(m) && KeysAgree(l) && KeysOwned(l) && ListsStoredKeys(l) && KeepsStrings(l) && p in qs
    requires "pinterest" in m && p == Pinterest ==> BacksEnums(l)
    ensures p.Value() in m ==> Step(e, Flattened(m, qs, l), p) == Ok(Put(e, m[p.Value()]))
    ensures p.Value() !in m ==> Step(e, Flattened(m, qs, l), p) == Ok(e)
  {
    PresentIffStored(m, qs, l, p);
    if p.Value() in m {
      ReadBack(m, qs, l, p);
    }
  }

  /** Putting a platform's credentials into a snapshot without them adds
      its key last, and no other platform's key. */
  lemma PutFresh(e: Snapshot, c: Credentials, rest: seq<PlatformType>)
    requires c.PlatformType().Value() !in e.0 && c.PlatformType() !in rest
    requires forall q :: q in rest ==> q.Value() !in e.0 && q.Value() !in e.1
    ensures Put(e, c) == (e.0 + [c.PlatformType().Value()], e.1[c.PlatformType().Value() := c])
    ensures forall q :: q in rest ==> q.Value() !in Put(e, c).0 && q.Value() !in Put(e, c).1
  {
    forall q | q in rest
      ensures q.Value() != c.PlatformType().Value()
    {
      if q.Value() == c.PlatformType().Value() {
        PlatformTypes.ValueInjective(q, c.PlatformType());
      }
    }
  }

  lemma Shift(e: Snapshot, k: string, c: Credentials, ks: seq<string>, r: map<string, Credentials>)
    requires k !in r
    ensures e.0 + [k] + ks == e.0 + ([k] + ks)
    ensures e.1[k := c] + r == e.1 + r[k := c]
  {
  }

  /** A platform not in `ps` has nothing in the restriction to `ps`. */
  lemma RestrictMissing(m: map<string, Credentials>, ps: seq<PlatformType>, p: PlatformType)
    requires OwnKeys(m) && p !in ps
    ensures p.Value() !in Restrict(m, ps)
  {
    if p.Value() in m {
      PlatformTypes.ValueInjective(m[p.Value()].PlatformType(), p);
    }
  }

  /** The keys read back are those of `m` for the platforms of `ps`, each
      once when `ps` has no repeats. */
  lemma {:induction false} InOrderKeys(m: map<string, Credentials>, ps: seq<PlatformType>)
    requires OwnKeys(m) && Distinct(ps)
    ensures forall k :: k in InOrder(m, ps) <==> k in Restrict(m, ps)
    ensures Distinct(InOrder(m, ps))
    decreases |ps|
  {
    if |ps| > 0 {
      var p := ps[0];
      var rest := ps[1..];
      assert forall q :: q in rest ==> q in ps && q != p;
      assert Distinct(rest);
      InOrderKeys(m, rest);
      RestrictCons(m, ps);
      RestrictMissing(m, rest, p);
    }
  }

  /** Storing by backing value, every application reads back as stored:
      the same credentials, listed in platform declaration order. */
  lemma RoundTripCorrected(m: map<string, Credentials>)
    requires OwnKeys(m)
    ensures Decoded(Flattened(m, PlatformTypes.Cases, Corrected())) == Ok((InOrder(m, PlatformTypes.Cases), m))
    ensures forall k :: k in InOrder(m, PlatformTypes.Cases) <==> k in m
    ensures Distinct(InOrder(m, PlatformTypes.Cases))
  {
    LayoutsAgree();
    LayoutsStore();
    RoundTrip(m, Corrected());
    InOrderKeys(m, PlatformTypes.Cases);
    RestrictAll(m);
  }

  /** As written, an application without Pinterest credentials reads back
      as stored. */
  lemma RoundTripAsWritten(m: map<string, Credentials>)
    requires OwnKeys(m) && "pinterest" !in m
    ensures Decoded(Flattened(m, PlatformTypes.Cases, AsWritten())) == Ok((InOrder(m, PlatformTypes.Cases), m))
  {
    LayoutsAgree();
    LayoutsStore();
    RoundTrip(m, AsWritten());
  }

  /** Under a layout that keeps strings, and backs enums when there are
      Pinterest credentials, every application reads back as stored. */
  lemma RoundTrip(m: map<string, Credentials>, l: Layout)
    requires OwnKeys(m) && KeysAgree(l) && KeysOwned(l) && ListsStoredKeys(l) && KeepsStrings(l) && ("pinterest" in m ==> BacksEnums(l))
    ensures Decoded(Flattened(m, PlatformTypes.Cases, l)) == Ok((InOrder(m, PlatformTypes.Cases), m))
  {
    RestrictAll(m);
    RoundTripOver(m, l, PlatformTypes.Cases);
  }

  lemma RoundTripOver(m: map<string, Credentials>, l: Layout, ps: seq<PlatformType>)
    requires OwnKeys(m) && KeysAgree(l) && KeysOwned(l) && ListsStoredKeys(l) && KeepsStrings(l) && ("pinterest" in m ==> BacksEnums(l))
    requires Distinct(ps)
    ensures Run(([], map[]), Flattened(m, ps, l), ps) == Ok((InOrder(m, ps), Restrict(m, ps)))
  {
    StoredReadsBack(m, l, ps, ps);
    RunRoundTrip(m, Flattened(m, ps, l), ([], map[]), ps);
    assert [] + InOrder(m, ps) == InOrder(m, ps) && map[] + Restrict(m, ps) == Restrict(m, ps);
  }

  lemma RestrictAll(m: map<string, Credentials>)
    ensures Restrict(m, PlatformTypes.Cases) == m
  {
    forall k | k in m
      ensures m[k].PlatformType() in PlatformTypes.Cases
    {
      PlatformTypes.CasesComplete(m[k].PlatformType());
    }
  }

  /** As written, an application with Pinterest credentials does not read
      back: the environment is stored as an enum object, and
      `PinterestEnvironment::from` rejects it with a TypeError. */
  lemma PinterestBreaksRoundTrip(m: map<string, Credentials>)
    requires OwnKeys(m) && "pinterest" in m
    ensures Decoded(Flattened(m, PlatformTypes.Cases, AsWritten())).Err?
    ensures Decoded(Flattened(m, PlatformTypes.Cases, AsWritten())).error.TypeError?
  {
    var ps := PlatformTypes.Cases;
    var l := AsWritten();
    var data := Flattened(m, ps, l);
    var e0: Snapshot := ([], map[]);
    LayoutsAgree();
    LayoutsStore();
    var front, back := ps[..3], ps[3..];
    assert front == [Meta, Google, TikTok] && back[0] == Pinterest && front + back == ps;
    StoredReadsBack(m, l, ps, front);
    RunRoundTrip(m, data, e0, front);
    RunAppend(e0, data, front, back);
    PresentIffStored(m, ps, l, Pinterest);
    PinterestEnvironmentStored(m, ps, l);
    EnumEnvironmentRejected(data);
  }
}
