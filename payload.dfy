/** Building blocks shared by the platform payloads: arrays filled by a run
    of `if ($x) { $a['k'] = ...; }` statements, PHP truthiness of optional
    fields, and `array_map` over the event's items. */
module Payloads {
  import opened Php

  /** One guarded assignment `$a[key] = value`, skipped when `value` is None. */
  datatype Entry = Entry(key: string, value: Option<Value>)

  /** `Entry(key, v)` when `cond` holds, a skipped one otherwise. */
  function When(cond: bool, key: string, v: Value): (e: Entry)
    ensures e.key == key && (e.value.Some? <==> cond)
    ensures cond ==> e.value == Some(v)
  {
    Entry(key, if cond then Some(v) else None)
  }

  /** An unconditional assignment. */
  function Always(key: string, v: Value): (e: Entry)
    ensures e.key == key && e.value == Some(v)
  {
    Entry(key, Some(v))
  }

  /** The array that the assignments in `fs` build, in order, from `[]`. */
  function Entries(fs: seq<Entry>): map<string, Value>
    decreases |fs|
  {
    if |fs| == 0 then map[]
    else
      var last := fs[|fs| - 1];
      var m := Entries(fs[..|fs| - 1]);
      if last.value.Some? then m[last.key := last.value.value] else m
  }

  predicate DistinctKeys(fs: seq<Entry>) {
    forall i, j :: 0 <= i < j < |fs| ==> fs[i].key != fs[j].key
  }

  /** With distinct keys, each key is set exactly when its assignment ran,
      to the value it assigned, and no other key is set. */
  lemma {:induction false} EntriesLookup(fs: seq<Entry>)
    requires DistinctKeys(fs)
    ensures forall i :: 0 <= i < |fs| ==> (fs[i].key in Entries(fs) <==> fs[i].value.Some?)
    ensures forall i :: 0 <= i < |fs| && fs[i].value.Some? ==> Entries(fs)[fs[i].key] == fs[i].value.value
    ensures forall k :: k in Entries(fs) ==> exists i :: 0 <= i < |fs| && fs[i].key == k
    decreases |fs|
  {
    if |fs| > 0 {
      var init := fs[..|fs| - 1];
      assert DistinctKeys(init) by {
        forall i, j | 0 <= i < j < |init| ensures init[i].key != init[j].key {
          assert init[i] == fs[i] && init[j] == fs[j];
        }
      }
      EntriesLookup(init);
      forall i | 0 <= i < |fs| - 1
        ensures fs[i].key != fs[|fs| - 1].key && fs[i] == init[i]
      {
      }
      forall k | k in Entries(fs) ensures exists i :: 0 <= i < |fs| && fs[i].key == k {
        if k in Entries(init) {
          var i :| 0 <= i < |init| && init[i].key == k;
          assert fs[i].key == k;
        } else {
          assert fs[|fs| - 1].key == k;
        }
      }
    }
  }

  /** `EntriesLookup` at one assignment. */
  lemma EntryAt(fs: seq<Entry>, i: nat)
    requires DistinctKeys(fs) && i < |fs|
    ensures fs[i].key in Entries(fs) <==> fs[i].value.Some?
    ensures fs[i].value.Some? ==> Entries(fs)[fs[i].key] == fs[i].value.value
  {
    EntriesLookup(fs);
  }

  /** The array stays empty exactly when no assignment ran. */
  lemma {:induction false} EntriesEmpty(fs: seq<Entry>)
    ensures |Entries(fs)| == 0 <==> forall i :: 0 <= i < |fs| ==> fs[i].value.None?
    decreases |fs|
  {
    if |fs| > 0 {
      var init := fs[..|fs| - 1];
      EntriesEmpty(init);
      assert forall i :: 0 <= i < |init| ==> init[i] == fs[i];
      if fs[|fs| - 1].value.Some? {
        assert fs[|fs| - 1].key in Entries(fs);
      }
    }
  }

  /** `if ($s)` on a `?string`: set, and neither '' nor '0'. */
  predicate Filled(s: Option<string>) {
    s.Some? && !EmptyStr(s.value)
  }

  /** `if ($x)` on a `?float`: set and non-zero. */
  predicate FilledReal(x: Option<real>) {
    x.Some? && x.value != 0.0
  }

  /** `count($items)`. */
  function Count(items: Value): (n: nat)
    ensures n == 0 <==> EmptyArray(items)
  {
    match items
    case VList(e) => |e|
    case VDict(m) => |m|
    case _ => 0
  }

  /** `array_map($f, $items)`: `$f` on every element, keys kept. */
  function MapItems(items: Value, f: Value -> Value): (r: Value)
    ensures Count(r) == Count(items) && (r.IsArray() <==> items.IsArray())
    ensures items.VList? ==> r.VList? && forall i :: 0 <= i < |items.elems| ==> r.elems[i] == f(items.elems[i])
    ensures items.VDict? ==> r.VDict? && r.entries.Keys == items.entries.Keys
    ensures items.VDict? ==> forall k :: k in items.entries ==> r.entries[k] == f(items.entries[k])
  {
    match items
    case VList(e) => VList(seq(|e|, i requires 0 <= i < |e| => f(e[i])))
    case VDict(m) =>
      var r := map k | k in m :: f(m[k]);
      assert r.Keys == m.Keys;
      VDict(r)
    case _ => items
  }

  /** `$item[k] ?? default` on one item. */
  function ItemField(item: Value, k: string, default: Value): (v: Value)
    ensures !ArrayKeyExists(item, k) ==> v == default
    ensures ArrayGet(item, k) != VNull ==> v == ArrayGet(item, k)
  {
    Coalesce(ArrayGet(item, k), default)
  }
}
