/** The framework lookups the legacy listener and manager make: Laravel's
    `config()` with a dotted key (`Arr::get` over the configuration items),
    PHP's `explode`, and an array's entries as a key-to-value record. */
module LaravelConfig {
  import opened Php

  /** PHP's `explode($sep, $s)` for a one-character separator. */
  function Explode(s: string, sep: char): (r: seq<string>)
    ensures |r| >= 1
    ensures forall i :: 0 <= i < |r| ==> sep !in r[i]
    decreases |s|
  {
    match IndexOf(s, sep)
    case None => [s]
    case Some(i) =>
      var rest := Explode(s[i + 1..], sep);
      assert forall j :: 1 <= j < |[s[..i]] + rest| ==> ([s[..i]] + rest)[j] == rest[j - 1];
      [s[..i]] + rest
  }

  /** PHP's `implode($sep, $parts)`. */
  function Implode(parts: seq<string>, sep: char): string
    decreases |parts|
  {
    if |parts| == 0 then "" else if |parts| == 1 then parts[0]
    else parts[0] + [sep] + Implode(parts[1..], sep)
  }

  /** Joining the pieces again gives the string back. */
  lemma {:induction false} ExplodeImplode(s: string, sep: char)
    ensures Implode(Explode(s, sep), sep) == s
    decreases |s|
  {
    match IndexOf(s, sep)
    case None =>
    case Some(i) =>
      var rest := Explode(s[i + 1..], sep);
      ExplodeImplode(s[i + 1..], sep);
      assert Explode(s, sep) == [s[..i]] + rest;
      assert s == s[..i] + [sep] + s[i + 1..];
  }

  /** A leading piece without the separator is split off whole. */
  lemma ExplodeFirst(a: string, sep: char, b: string)
    requires sep !in a
    ensures Explode(a + [sep] + b, sep) == [a] + Explode(b, sep)
  {
    var s := a + [sep] + b;
    assert s[|a|] == sep;
    assert s[..|a|] == a;
    assert s[|a| + 1..] == b;
  }

  /** The raw entry of an array under a key it has (null included). */
  function Entry(a: Value, k: string): Value
    requires ArrayKeyExists(a, k)
  {
    ArrayGet(a, k)
  }

  /** The walk of `Arr::get` down the pieces of a dotted key: the default
      as soon as a level is no array or lacks the piece. */
  function Walk(v: Value, segs: seq<string>, default: Value): Value
    decreases |segs|
  {
    if |segs| == 0 then v
    else if v.IsArray() && ArrayKeyExists(v, segs[0]) then Walk(Entry(v, segs[0]), segs[1..], default)
    else default
  }

  /** `Arr::get($items, $key, $default)`: a key present as it is wins;
      otherwise a dotted key is walked piece by piece. */
  function ArrGet(items: Value, key: string, default: Value): Value {
    if !items.IsArray() then default
    else if ArrayKeyExists(items, key) then Entry(items, key)
    else if '.' !in key then default
    else Walk(items, Explode(key, '.'), default)
  }

  /** The items of the configuration repository: the package's array
      under its name, next to the other packages' arrays. */
  const Package := "pixel-manager"

  /** `config('pixel-manager.' . $path, $default)`. */
  function Setting(items: Record, path: string, default: Value): Value {
    ArrGet(VDict(items), Package + "." + path, default)
  }

  /** Walking a dotted path below the package array is walking the
      path's pieces from that array, unless some item is literally named
      with the whole dotted key. */
  lemma SettingWalks(items: Record, path: string, default: Value)
    requires Package + "." + path !in items
    ensures Setting(items, path, default) ==
      if Package in items then Walk(items[Package], Explode(path, '.'), default) else default
  {
    assert '.' !in Package;
    ExplodeFirst(Package, '.', path);
    var key := Package + "." + path;
    assert key == Package + ['.'] + path;
    assert key[|Package|] == '.';
  }

  /** A one-piece path below the package array names one entry. */
  lemma SettingOneLevel(items: Record, name: string, default: Value)
    requires '.' !in name && Package + "." + name !in items
    requires Package in items && items[Package].VDict?
    ensures Setting(items, name, default) ==
      if name in items[Package].entries then items[Package].entries[name] else default
  {
    SettingWalks(items, name, default);
  }

  /** A path `outer.rest` below the package array walks `outer`, then
      the pieces of `rest`. */
  lemma SettingBelow(items: Record, outer: string, rest: string, default: Value)
    requires '.' !in outer && Package + "." + (outer + "." + rest) !in items
    ensures Setting(items, outer + "." + rest, default) ==
      if Package in items then Walk(items[Package], [outer] + Explode(rest, '.'), default) else default
  {
    SettingWalks(items, outer + "." + rest, default);
    ExplodeFirst(outer, '.', rest);
    assert outer + "." + rest == outer + ['.'] + rest;
  }

  /** A two-piece path below the package array reads the entry of the
      outer setting, null included, or the default when the outer setting
      lacks it; neither dotted key may be an item. */
  lemma SettingNested(items: Record, outer: string, inner: string)
    requires '.' !in outer && '.' !in inner
    requires Package + "." + outer !in items && Package + "." + (outer + "." + inner) !in items
    ensures var m := Setting(items, outer, VList([]));
      Setting(items, outer + "." + inner, VList([])) == if ArrayKeyExists(m, inner) then ArrayGet(m, inner) else VList([])
  {
    SettingWalks(items, outer, VList([]));
    SettingBelow(items, outer, inner, VList([]));
    assert Explode(outer, '.') == [outer];
    assert Explode(inner, '.') == [inner];
    assert ([outer] + [inner])[1..] == [inner];
    if Package in items {
      var v := items[Package];
      assert Walk(v, [outer], VList([])) == if v.IsArray() && ArrayKeyExists(v, outer) then Entry(v, outer) else VList([]);
      if v.IsArray() && ArrayKeyExists(v, outer) {
        var e := Entry(v, outer);
        assert Walk(v, [outer, inner], VList([])) == Walk(e, [inner], VList([]));
        assert Walk(e, [inner], VList([])) == if e.IsArray() && ArrayKeyExists(e, inner) then Entry(e, inner) else VList([]);
      }
    }
  }

  /** An array's entries as a record; the keys of a list are its indices
      written in decimal. */
  function Entries(v: Value): Record {
    match v
    case VDict(m) => m
    case VList(e) => ListEntries(e)
    case _ => map[]
  }

  function ListEntries(e: seq<Value>): (r: Record)
    ensures forall k :: k in r ==> ListIndex(k).Some?
    decreases |e|
  {
    if |e| == 0 then map[]
    else
      var n := |e| - 1;
      ListIndexOf(n);
      ListEntries(e[..n])[NatStr(n) := e[n]]
  }
}
