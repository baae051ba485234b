/** The PHP runtime behaviour the pixel manager relies on: nullable values,
    thrown errors, loosely typed array values, and the string built-ins
    (trim, strtolower, strtoupper, str_contains, str_starts_with). */
module Php {

  datatype Option<+T> = None | Some(value: T) {
    function GetOr(default: T): T {
      match this
      case Some(v) => v
      case None => default
    }
  }

  /** What a PHP call can throw. `IsException` separates the `\Exception`
      family (caught by `catch (\Exception $e)`) from the `\Error` family
      (TypeError, ValueError, instantiating an abstract class), which such a
      catch does not intercept. */
  datatype Error =
    | InvalidEventType(eventType: string)
    | InvalidCurrency(code: string)
    | InvalidMoney(amount: real)
    | InvalidPhone(phone: string, reason: string)
    | InvalidEmail(email: string)
    | InvalidUrl(url: string)
    | InvalidIpAddress(ip: string)
    | RuntimeError(message: string)
    | TypeError(message: string)
    | ValueError(message: string)
    | AbstractInstantiation(className: string)
  {
    predicate IsException() {
      !(TypeError? || ValueError? || AbstractInstantiation?)
    }

    /** The package's own `DomainException` subclasses. */
    predicate IsDomainException() {
      InvalidEventType? || InvalidCurrency? || InvalidMoney? || InvalidPhone? ||
      InvalidEmail? || InvalidUrl? || InvalidIpAddress?
    }
  }

  datatype Result<+T> = Ok(value: T) | Err(error: Error) {
    predicate IsFailure() { Err? }
    function PropagateFailure<U>(): Result<U>
      requires Err?
    {
      Err(error)
    }
    function Extract(): T
      requires Ok?
    {
      value
    }
  }

  /** A PHP value as it appears in a raw request or configuration array.
      List-shaped arrays are `VList`, string-keyed arrays `VDict`; an enum
      case stored as an object is `VEnum` carrying its backing value. */
  datatype Value =
    | VNull
    | VBool(b: bool)
    | VInt(i: int)
    | VFloat(f: real)
    | VStr(s: string)
    | VList(elems: seq<Value>)
    | VDict(entries: map<string, Value>)
    | VEnum(backing: string)
  {
    predicate IsArray() { VList? || VDict? }
  }

  type Record = map<string, Value>

  /** `$m[$k] ?? null`. */
  function Lookup(m: Record, k: string): (v: Value)
    ensures v != VNull <==> IsSet(m, k)
    ensures IsSet(m, k) ==> v == m[k]
  {
    if k in m then m[k] else VNull
  }

  /** `isset($m[$k])`: present and not null. */
  predicate IsSet(m: Record, k: string) {
    k in m && m[k] != VNull
  }

  /** `$a ?? $b` on two looked-up values. */
  function Coalesce(a: Value, b: Value): (v: Value)
    ensures a != VNull ==> v == a
    ensures a == VNull ==> v == b
  {
    if a != VNull then a else b
  }

  /** `$v[$k] ?? null` where `$v` may or may not be an array. */
  function Field(v: Value, k: string): Value {
    if v.VDict? then Lookup(v.entries, k) else VNull
  }

  /** The elements a `foreach` over a list-shaped array visits. */
  function Elements(v: Value): seq<Value> {
    if v.VList? then v.elems else []
  }

  /** The values of an array, whatever their keys. */
  function ArrayValues(v: Value): set<Value> {
    match v
    case VList(e) => set x | x in e
    case VDict(m) => m.Values
    case _ => {}
  }

  /** The list index a string key names: PHP turns a canonical decimal key
      such as "3" into the integer 3, and leaves any other string a string. */
  function ListIndex(k: string): (r: Option<nat>)
    ensures r.Some? ==> NatStr(r.value) == k
  {
    if |k| > 0 && (forall i :: 0 <= i < |k| ==> IsDigit(k[i])) && NatStr(DigitsValue(k)) == k
    then Some(DigitsValue(k)) else None
  }

  lemma ListIndexOf(n: nat)
    ensures ListIndex(NatStr(n)) == Some(n)
  {
    NatStrRoundTrip(n);
  }

  /** `array_key_exists($k, $a)`; a list has the keys 0 .. n-1. */
  predicate ArrayKeyExists(a: Value, k: string) {
    match a
    case VDict(m) => k in m
    case VList(e) => ListIndex(k).Some? && ListIndex(k).value < |e|
    case _ => false
  }

  /** `$a[$k] ?? null` on an array. */
  function ArrayGet(a: Value, k: string): (v: Value)
    ensures v != VNull ==> ArrayKeyExists(a, k)
    ensures a.VDict? ==> v == Lookup(a.entries, k)
  {
    match a
    case VDict(m) => Lookup(m, k)
    case VList(e) => if ListIndex(k).Some? && ListIndex(k).value < |e| then e[ListIndex(k).value] else VNull
    case _ => VNull
  }

  /** PHP's `empty()` on an array. */
  predicate EmptyArray(a: Value) {
    match a
    case VList(e) => |e| == 0
    case VDict(m) => |m| == 0
    case _ => true
  }

  /** PHP's `empty()` on a string: only '' and '0' are empty. */
  predicate EmptyStr(s: string) {
    s == "" || s == "0"
  }

  /** The result of a `(bool)` cast. */
  predicate Truthy(v: Value) {
    match v
    case VNull => false
    case VBool(b) => b
    case VInt(i) => i != 0
    case VFloat(f) => f != 0.0
    case VStr(s) => !EmptyStr(s)
    case VList(e) => |e| != 0
    case VDict(m) => |m| != 0
    case VEnum(_) => true
  }

  lemma TruthyStr(s: string)
    ensures Truthy(VStr(s)) <==> s != "" && s != "0"
  {
  }

  // ---------------------------------------------------------------- trim

  /** The characters `trim()` strips by default. */
  predicate IsTrimChar(c: char) {
    c == ' ' || c == '\t' || c == '\n' || c == '\r' || c == '\0' || c == '\U{0B}'
  }

  function TrimLeft(s: string): (r: string)
    ensures |r| <= |s| && r == s[|s| - |r|..]
    ensures r == [] || !IsTrimChar(r[0])
    ensures forall i :: 0 <= i < |s| - |r| ==> IsTrimChar(s[i])
  {
    if |s| > 0 && IsTrimChar(s[0]) then TrimLeft(s[1..]) else s
  }

  function TrimRight(s: string): (r: string)
    ensures |r| <= |s| && r == s[..|r|]
    ensures r == [] || !IsTrimChar(r[|r| - 1])
    ensures forall i :: |r| <= i < |s| ==> IsTrimChar(s[i])
  {
    if |s| > 0 && IsTrimChar(s[|s| - 1]) then TrimRight(s[..|s| - 1]) else s
  }

  /** `trim($s)`: the longest middle part of `s` whose ends are not trim
      characters, everything outside it being trim characters. */
  function Trim(s: string): (r: string)
    ensures |r| <= |s|
    ensures r == [] || (!IsTrimChar(r[0]) && !IsTrimChar(r[|r| - 1]))
    ensures exists k :: OccursAt(s, r, k)
  {
    var l := TrimLeft(s);
    var r := TrimRight(l);
    assert r == s[|s| - |l|..][..|r|] == s[|s| - |l|..|s| - |l| + |r|];
    assert OccursAt(s, r, |s| - |l|);
    r
  }

  lemma {:induction false} TrimLeftNoop(s: string)
    requires s == [] || !IsTrimChar(s[0])
    ensures TrimLeft(s) == s
  {
  }

  lemma {:induction false} TrimRightNoop(s: string)
    requires s == [] || !IsTrimChar(s[|s| - 1])
    ensures TrimRight(s) == s
  {
  }

  /** One space on either side of a trimmed word is stripped. */
  lemma TrimPadded(c: string)
    requires |c| > 0 && !IsTrimChar(c[0]) && !IsTrimChar(c[|c| - 1])
    ensures Trim(" " + c + " ") == c
  {
    var s := " " + c + " ";
    var u := c + " ";
    assert s[0] == ' ' && s[1..] == u;
    assert TrimLeft(s) == TrimLeft(u);
    assert u[0] == c[0];
    TrimLeftNoop(u);
    assert u[|u| - 1] == ' ' && u[..|u| - 1] == c;
    assert TrimRight(u) == TrimRight(c);
    TrimRightNoop(c);
  }

  /** Trimming twice is trimming once. */
  lemma TrimIdempotent(s: string)
    ensures Trim(Trim(s)) == Trim(s)
  {
    var t := Trim(s);
    TrimLeftNoop(t);
    TrimRightNoop(t);
  }

  /** `ltrim($s, '+')`. */
  function LtrimPlus(s: string): (r: string)
    ensures |r| <= |s| && r == s[|s| - |r|..]
    ensures r == [] || r[0] != '+'
  {
    if |s| > 0 && s[0] == '+' then LtrimPlus(s[1..]) else s
  }

  // ---------------------------------------------------------------- case

  function LowerChar(c: char): char {
    if 'A' <= c <= 'Z' then (c as int + 32) as char else c
  }

  function UpperChar(c: char): char {
    if 'a' <= c <= 'z' then (c as int - 32) as char else c
  }

  predicate IsUpperAscii(c: char) { 'A' <= c <= 'Z' }

  /** `strtolower`: ASCII letters only; every other character is kept. */
  function Lower(s: string): (r: string)
    ensures |r| == |s|
    ensures forall i :: 0 <= i < |s| ==> r[i] == LowerChar(s[i])
  {
    seq(|s|, i requires 0 <= i < |s| => LowerChar(s[i]))
  }

  /** `strtoupper`: ASCII letters only. */
  function Upper(s: string): (r: string)
    ensures |r| == |s|
    ensures forall i :: 0 <= i < |s| ==> r[i] == UpperChar(s[i])
  {
    seq(|s|, i requires 0 <= i < |s| => UpperChar(s[i]))
  }

  lemma LowerIdempotent(s: string)
    ensures Lower(Lower(s)) == Lower(s)
  {
  }

  /** Lower-casing does not depend on the case of the input letters. */
  lemma LowerOfUpper(s: string)
    ensures Lower(Upper(s)) == Lower(s)
  {
  }

  lemma UpperOfLower(s: string)
    ensures Upper(Lower(s)) == Upper(s)
  {
  }

  // ------------------------------------------------------------ searching

  /** `sub` occurs in `s` starting at offset `k`. */
  predicate OccursAt(s: string, sub: string, k: int) {
    0 <= k <= |s| - |sub| && s[k..k + |sub|] == sub
  }

  /** `str_starts_with($s, $p)`. */
  predicate StartsWith(s: string, p: string) {
    |p| <= |s| && s[..|p|] == p
  }

  /** `str_ends_with($s, $p)`. */
  predicate EndsWith(s: string, p: string) {
    |p| <= |s| && s[|s| - |p|..] == p
  }

  /** `str_contains($s, $sub)`. */
  predicate Contains(s: string, sub: string)
    decreases |s|
  {
    StartsWith(s, sub) || (|s| > 0 && Contains(s[1..], sub))
  }

  /** `Contains` means `sub` occurs at some offset of `s`. */
  lemma {:induction false} ContainsAt(s: string, sub: string)
    ensures Contains(s, sub) <==> exists k :: OccursAt(s, sub, k)
    decreases |s|
  {
    if StartsWith(s, sub) {
      assert OccursAt(s, sub, 0);
    } else if |s| > 0 {
      ContainsAt(s[1..], sub);
      if Contains(s[1..], sub) {
        var k :| OccursAt(s[1..], sub, k);
        assert s[k + 1..k + 1 + |sub|] == s[1..][k..k + |sub|];
        assert OccursAt(s, sub, k + 1);
      }
      if exists k :: OccursAt(s, sub, k) {
        var k :| OccursAt(s, sub, k);
        assert k != 0;
        assert s[1..][k - 1..k - 1 + |sub|] == s[k..k + |sub|];
        assert OccursAt(s[1..], sub, k - 1);
      }
    } else {
      assert forall k :: !OccursAt(s, sub, k);
    }
  }

  /** Some keyword of `ks` occurs in `s` (a `foreach` with an early
      `return true`). */
  function AnyContains(s: string, ks: seq<string>): (r: bool)
    ensures r <==> exists i :: 0 <= i < |ks| && Contains(s, ks[i])
  {
    if |ks| == 0 then false
    else if Contains(s, ks[0]) then true
    else
      var r := AnyContains(s, ks[1..]);
      assert forall i :: 1 <= i < |ks| ==> ks[i] == ks[1..][i - 1];
      r
  }

  /** The `foreach` over keywords with an early `return true`: true
      exactly when some keyword occurs in `s`. */
  method SearchKeywords(s: string, ks: seq<string>) returns (found: bool)
    ensures found == AnyContains(s, ks)
  {
    var i := 0;
    while i < |ks|
      invariant 0 <= i <= |ks|
      invariant forall j :: 0 <= j < i ==> !Contains(s, ks[j])
    {
      if Contains(s, ks[i]) {
        return true;
      }
      i := i + 1;
    }
    return false;
  }

  /** Everything occurs in a string that has it at its start. */
  lemma ContainsPrefix(s: string, p: string)
    requires StartsWith(s, p)
    ensures Contains(s, p)
  {
  }

  /** A string containing `sub` inside a longer piece contains `sub`. */
  lemma {:induction false} ContainsTransitive(s: string, mid: string, sub: string)
    requires Contains(s, mid) && Contains(mid, sub)
    ensures Contains(s, sub)
  {
    ContainsAt(s, mid);
    ContainsAt(mid, sub);
    var i :| OccursAt(s, mid, i);
    var j :| OccursAt(mid, sub, j);
    assert mid == s[i..i + |mid|];
    assert j + |sub| <= |mid|;
    var x, y := s[i + j..i + j + |sub|], s[i..i + |mid|][j..j + |sub|];
    assert forall k :: 0 <= k < |x| ==> x[k] == y[k];
    assert x == y;
    assert OccursAt(s, sub, i + j);
    ContainsAt(s, sub);
  }

  /** Position of the first occurrence of `c` (`strpos` for one character). */
  function IndexOf(s: string, c: char): (r: Option<nat>)
    ensures r.Some? ==> r.value < |s| && s[r.value] == c && c !in s[..r.value]
    ensures r.None? <==> c !in s
  {
    if |s| == 0 then None
    else if s[0] == c then Some(0)
    else match IndexOf(s[1..], c)
      case None => None
      case Some(k) => assert s[..k + 1] == [s[0]] + s[1..][..k]; Some(k + 1)
  }

  // --------------------------------------------------------------- digits

  predicate IsDigit(c: char) { '0' <= c <= '9' }

  /** `preg_replace('/[^0-9]/', '', $s)`. */
  function DigitsOf(s: string): (r: string)
    ensures |r| <= |s|
    ensures forall i :: 0 <= i < |r| ==> IsDigit(r[i])
    ensures (forall i :: 0 <= i < |s| ==> IsDigit(s[i])) ==> r == s
  {
    if |s| == 0 then ""
    else if IsDigit(s[0]) then [s[0]] + DigitsOf(s[1..])
    else DigitsOf(s[1..])
  }

  /** The input has a digit exactly when the filtered string is non-empty. */
  lemma {:induction false} DigitsOfEmpty(s: string)
    ensures DigitsOf(s) == "" <==> forall i :: 0 <= i < |s| ==> !IsDigit(s[i])
  {
    if |s| > 0 {
      DigitsOfEmpty(s[1..]);
      if !IsDigit(s[0]) {
        assert forall i :: 1 <= i < |s| ==> s[i] == s[1..][i - 1];
      }
    }
  }

  function DigitValue(c: char): nat
    requires IsDigit(c)
  {
    c as int - '0' as int
  }

  function DigitChar(d: nat): (c: char)
    requires d < 10
    ensures IsDigit(c) && DigitValue(c) == d
  {
    ('0' as int + d) as char
  }

  /** Decimal rendering of an integer, as `"{$i}"` or `(string) $i`. */
  function IntStr(i: int): (r: string)
    ensures |r| > 0
    decreases if i < 0 then 1 - i else i
  {
    if i < 0 then "-" + NatStr(-i) else NatStr(i)
  }

  function NatStr(n: nat): (r: string)
    ensures |r| > 0 && forall k :: 0 <= k < |r| ==> IsDigit(r[k])
  {
    if n < 10 then [DigitChar(n)] else NatStr(n / 10) + [DigitChar(n % 10)]
  }

  /** Value of a string made only of digits. */
  function DigitsValue(s: string): nat
    requires forall k :: 0 <= k < |s| ==> IsDigit(s[k])
  {
    if |s| == 0 then 0 else DigitsValue(s[..|s| - 1]) * 10 + DigitValue(s[|s| - 1])
  }

  /** Rendering then reading a natural number gives it back. */
  lemma {:induction false} NatStrRoundTrip(n: nat)
    ensures DigitsValue(NatStr(n)) == n
  {
    if n >= 10 {
      var s := NatStr(n);
      NatStrRoundTrip(n / 10);
      assert s[..|s| - 1] == NatStr(n / 10);
    }
  }

  /** Distinct numbers render differently. */
  lemma NatStrInjective(m: nat, n: nat)
    requires NatStr(m) == NatStr(n)
    ensures m == n
  {
    NatStrRoundTrip(m);
    NatStrRoundTrip(n);
  }

  /** A rendered integer starts with a minus sign exactly when it is
      negative. */
  lemma IntStrSign(a: int)
    ensures IntStr(a)[0] == '-' <==> a < 0
  {
    if a >= 0 {
      assert IsDigit(NatStr(a)[0]);
    }
  }

  /** Distinct integers render differently. */
  lemma IntStrInjective(a: int, b: int)
    requires IntStr(a) == IntStr(b)
    ensures a == b
  {
    IntStrSign(a);
    IntStrSign(b);
    if a < 0 && b < 0 {
      assert IntStr(a)[1..] == NatStr(-a) && IntStr(b)[1..] == NatStr(-b);
      NatStrInjective(-a, -b);
    } else if a >= 0 && b >= 0 {
      NatStrInjective(a, b);
    }
  }

  // ---------------------------------------------------------------- casts

  /** Truncation toward zero, as PHP's `(int)` of a float. */
  function TruncReal(r: real): (i: int)
    ensures r >= 0.0 ==> 0 <= i && i as real <= r < i as real + 1.0
    ensures r < 0.0 ==> i <= 0 && i as real - 1.0 < r <= i as real
  {
    if r >= 0.0 then r.Floor else -((-r).Floor)
  }

  /** The longest leading run of digits. */
  function LeadingDigits(s: string): (r: string)
    ensures r <= s && forall k :: 0 <= k < |r| ==> IsDigit(r[k])
    ensures |r| == |s| || !IsDigit(s[|r|])
  {
    if |s| > 0 && IsDigit(s[0]) then [s[0]] + LeadingDigits(s[1..]) else ""
  }

  /** Fraction value of a digit string read after a decimal point. */
  function FractionValue(s: string): real
    requires forall k :: 0 <= k < |s| ==> IsDigit(s[k])
  {
    if |s| == 0 then 0.0 else (DigitValue(s[0]) as real + FractionValue(s[1..])) / 10.0
  }

  predicate AllDigits(s: string) {
    forall k :: 0 <= k < |s| ==> IsDigit(s[k])
  }

  function Pow10(k: nat): (r: nat)
    ensures r >= 1
  {
    if k == 0 then 1 else 10 * Pow10(k - 1)
  }

  /** PHP's integer range on a 64-bit platform. */
  const Int64Max: int := 0x7FFF_FFFF_FFFF_FFFF
  const Int64Min: int := -0x8000_0000_0000_0000

  /** A number brought into the 64-bit range, as PHP does when a numeric
      string's value does not fit an integer. */
  function Saturate(i: int): (r: int)
    ensures Int64Min <= r <= Int64Max
  {
    if i > Int64Max then Int64Max else if i < Int64Min then Int64Min else i
  }

  /** The parts of a numeric prefix: the sign, the integer digits, the
      fraction digits, and the exponent's sign and digits. */
  datatype Numeral = Numeral(neg: bool, intDigits: string, fracDigits: string, expNeg: bool, expDigits: string)

  /** An exponent `[eE][+-]?digits` at the head of a string; without a
      digit after the letter and the sign there is none. */
  function ExponentPart(s: string): (r: (bool, string))
    ensures AllDigits(r.1)
    ensures r.1 == "" ==> !r.0
  {
    if |s| >= 2 && (s[0] == 'e' || s[0] == 'E') then
      var signed := s[1] == '-' || s[1] == '+';
      var ds := LeadingDigits(if signed then s[2..] else s[1..]);
      (s[1] == '-' && |ds| > 0, ds)
    else (false, "")
  }

  /** The characters a numeric string may start with: unlike `trim()`'s
      set, form feed belongs to it and NUL does not. */
  predicate IsNumericSpace(c: char) {
    c == ' ' || c == '\t' || c == '\n' || c == '\r' || c == '\U{0B}' || c == '\U{0C}'
  }

  /** The string with its leading numeric-string whitespace removed. */
  function SkipNumericSpace(s: string): (r: string)
    ensures |r| <= |s| && r == s[|s| - |r|..]
    ensures r == [] || !IsNumericSpace(r[0])
    ensures forall i :: 0 <= i < |s| - |r| ==> IsNumericSpace(s[i])
  {
    if |s| > 0 && IsNumericSpace(s[0]) then SkipNumericSpace(s[1..]) else s
  }

  lemma {:induction false} SkipNumericSpaceNoop(s: string)
    requires s == [] || !IsNumericSpace(s[0])
    ensures SkipNumericSpace(s) == s
  {
  }

  /** The numeric prefix of a string: optional leading whitespace, an
      optional sign, digits, an optional fraction, and an exponent, which
      counts only after at least one digit of the mantissa. */
  function NumericPrefix(s: string): (r: Numeral)
    ensures AllDigits(r.intDigits) && AllDigits(r.fracDigits) && AllDigits(r.expDigits)
  {
    SignedNumeral(SkipNumericSpace(s))
  }

  /** The numeral at the head of a string whose whitespace is skipped. */
  function SignedNumeral(t: string): (r: Numeral)
    ensures AllDigits(r.intDigits) && AllDigits(r.fracDigits) && AllDigits(r.expDigits)
  {
    var neg := |t| > 0 && t[0] == '-';
    var u := if |t| > 0 && (t[0] == '-' || t[0] == '+') then t[1..] else t;
    var ip := LeadingDigits(u);
    var rest := u[|ip|..];
    var dot := |rest| > 0 && rest[0] == '.';
    var fp := if dot then LeadingDigits(rest[1..]) else "";
    var after := if dot then rest[1 + |fp|..] else rest;
    var (expNeg, ep) := ExponentPart(after);
    if |ip| + |fp| == 0 then Numeral(neg, ip, fp, false, "") else Numeral(neg, ip, fp, expNeg, ep)
  }

  /** The value a numeral denotes, computed exactly. */
  function NumeralValue(n: Numeral): real
    requires AllDigits(n.intDigits) && AllDigits(n.fracDigits) && AllDigits(n.expDigits)
  {
    var mantissa := DigitsValue(n.intDigits) as real + FractionValue(n.fracDigits);
    var scale := Pow10(DigitsValue(n.expDigits)) as real;
    var mag := if n.expNeg then mantissa / scale else mantissa * scale;
    if n.neg then -mag else mag
  }

  /** `(float) $s` for a string: the value of its numeric prefix, 0 when it
      has none. */
  function StrToFloat(s: string): real {
    NumeralValue(NumericPrefix(s))
  }

  /** `(int) $s` for a string: PHP reads the numeric prefix, and one with a
      fraction, an exponent or too many digits as a float, which it then
      truncates and brings into the 64-bit range. */
  function StrToInt(s: string): (r: int)
    ensures Int64Min <= r <= Int64Max
    ensures Int64Min <= TruncReal(StrToFloat(s)) <= Int64Max ==> r == TruncReal(StrToFloat(s))
    ensures TruncReal(StrToFloat(s)) > Int64Max ==> r == Int64Max
    ensures TruncReal(StrToFloat(s)) < Int64Min ==> r == Int64Min
  {
    Saturate(TruncReal(StrToFloat(s)))
  }

  /** `(float) $v`. */
  function ToFloat(v: Value): real {
    match v
    case VNull => 0.0
    case VBool(b) => if b then 1.0 else 0.0
    case VInt(i) => i as real
    case VFloat(f) => f
    case VStr(s) => StrToFloat(s)
    case VList(e) => if |e| == 0 then 0.0 else 1.0
    case VDict(m) => if |m| == 0 then 0.0 else 1.0
    case VEnum(_) => 1.0
  }

  /** `(int) $v`. */
  function ToInt(v: Value): int {
    match v
    case VNull => 0
    case VBool(b) => if b then 1 else 0
    case VInt(i) => i
    case VFloat(f) => TruncReal(f)
    case VStr(s) => StrToInt(s)
    case VList(e) => if |e| == 0 then 0 else 1
    case VDict(m) => if |m| == 0 then 0 else 1
    case VEnum(_) => 1
  }

  /** The leading digits of digits followed by a non-digit are those digits. */
  lemma {:induction false} LeadingDigitsOf(d: string, rest: string)
    requires AllDigits(d)
    requires rest == [] || !IsDigit(rest[0])
    ensures LeadingDigits(d + rest) == d
    decreases |d|
  {
    if |d| > 0 {
      assert (d + rest)[1..] == d[1..] + rest;
      LeadingDigitsOf(d[1..], rest);
    } else {
      assert d + rest == rest;
    }
  }

  /** Digits at the head of a string, followed by neither a digit nor a
      '.', form the mantissa; what follows is read as an exponent. */
  lemma {:induction false} NumericPrefixDigits(d: string, tail: string)
    requires |d| > 0 && AllDigits(d)
    requires tail == [] || (!IsDigit(tail[0]) && tail[0] != '.')
    ensures NumericPrefix(d + tail) == Numeral(false, d, "", ExponentPart(tail).0, ExponentPart(tail).1)
  {
    var s := d + tail;
    assert s[0] == d[0];
    SkipNumericSpaceNoop(s);
    assert SkipNumericSpace(s) == s;
    assert !(s[0] == '-' || s[0] == '+');
    LeadingDigitsOf(d, tail);
    assert s[|d|..] == tail;
  }

  /** A string of digits without a sign, fraction or exponent is read as
      those digits. */
  lemma {:induction false} PlainDigitsNumeral(d: string)
    requires |d| > 0 && AllDigits(d)
    ensures StrToFloat(d) == DigitsValue(d) as real
  {
    NumericPrefixDigits(d, "");
    assert d + "" == d;
    assert ExponentPart("") == (false, "");
    assert NumericPrefix(d) == Numeral(false, d, "", false, "");
    assert FractionValue("") == 0.0;
    assert DigitsValue("") == 0 && Pow10(0) == 1;
  }

  /** Leading numeric-string whitespace, form feed included, is skipped
      before the number is read. */
  lemma {:induction false} NumericSpaceSkipped(c: char, s: string)
    requires IsNumericSpace(c)
    ensures NumericPrefix([c] + s) == NumericPrefix(s)
    ensures StrToFloat([c] + s) == StrToFloat(s)
    ensures StrToInt([c] + s) == StrToInt(s)
  {
    SkipOneSpace(c, s);
  }

  lemma {:induction false} SkipOneSpace(c: char, s: string)
    requires IsNumericSpace(c)
    ensures SkipNumericSpace([c] + s) == SkipNumericSpace(s)
  {
    assert ([c] + s)[1..] == s;
  }

  /** A string that starts with NUL has no numeric prefix, although
      `trim()` would strip that NUL. */
  lemma {:induction false} LeadingNulNotNumeric(s: string)
    ensures StrToFloat("\0" + s) == 0.0
    ensures StrToInt("\0" + s) == 0
  {
    var t := "\0" + s;
    assert t[0] == '\0';
    SkipNumericSpaceNoop(t);
    assert LeadingDigits(t) == "";
    assert t[0] != '.';
  }

  /** A decimal string reads back as its value under `(int)` while that
      fits in 64 bits, and as PHP_INT_MAX beyond. */
  lemma {:induction false} NatStrToInt(n: nat)
    ensures n <= Int64Max ==> StrToInt(NatStr(n)) == n
    ensures n > Int64Max ==> StrToInt(NatStr(n)) == Int64Max
  {
    PlainDigitsNumeral(NatStr(n));
    NatStrRoundTrip(n);
  }

  /** `e` and digits are an exponent of those digits. */
  lemma {:induction false} ExponentOfDigits(ds: string)
    requires |ds| > 0 && AllDigits(ds)
    ensures ExponentPart("e" + ds) == (false, ds)
  {
    var rest := "e" + ds;
    assert rest[0] == 'e' && rest[1] == ds[0];
    assert rest[1..] == ds;
    LeadingDigitsOf(ds, "");
    assert ds + "" == ds;
  }

  /** The numeral of digits followed by `e<k>`. */
  lemma {:induction false} ExponentPrefix(d: string, k: nat)
    requires |d| > 0 && AllDigits(d)
    ensures NumericPrefix(d + "e" + NatStr(k)) == Numeral(false, d, "", false, NatStr(k))
  {
    var ks := NatStr(k);
    var rest := "e" + ks;
    assert d + "e" + ks == d + rest;
    assert rest[0] == 'e';
    NumericPrefixDigits(d, rest);
    ExponentOfDigits(ks);
  }

  /** Digits followed by an exponent `e<k>` read under `(float)` as the
      digits' value times ten to the k: "1e3" is 1000. */
  lemma {:induction false} ExponentNotation(d: string, k: nat)
    requires |d| > 0 && AllDigits(d)
    ensures StrToFloat(d + "e" + NatStr(k)) == (DigitsValue(d) * Pow10(k)) as real
  {
    var n := Numeral(false, d, "", false, NatStr(k));
    ExponentPrefix(d, k);
    NatStrRoundTrip(k);
    WholeNumeralValue(n);
  }

  /** The same under `(int)`, brought into the 64-bit range. */
  lemma {:induction false} ExponentToInt(d: string, k: nat)
    requires |d| > 0 && AllDigits(d)
    ensures StrToInt(d + "e" + NatStr(k)) == Saturate(DigitsValue(d) * Pow10(k))
  {
    var n := Numeral(false, d, "", false, NatStr(k));
    ExponentPrefix(d, k);
    NatStrRoundTrip(k);
    WholeNumeralValue(n);
  }

  /** A numeral without sign, fraction or negative exponent denotes an
      integer. */
  lemma WholeNumeralValue(n: Numeral)
    requires AllDigits(n.intDigits) && AllDigits(n.expDigits)
    requires !n.neg && n.fracDigits == "" && !n.expNeg
    ensures NumeralValue(n) == (DigitsValue(n.intDigits) * Pow10(DigitsValue(n.expDigits))) as real
    ensures TruncReal(NumeralValue(n)) == DigitsValue(n.intDigits) * Pow10(DigitsValue(n.expDigits))
    ensures Saturate(TruncReal(NumeralValue(n))) == Saturate(DigitsValue(n.intDigits) * Pow10(DigitsValue(n.expDigits)))
  {
    var m, p := DigitsValue(n.intDigits), Pow10(DigitsValue(n.expDigits));
    assert FractionValue("") == 0.0;
    MulAsReal(m, p);
  }

  lemma MulAsReal(a: nat, b: nat)
    ensures (a * b) as real == a as real * b as real
  {
  }

  // ----------------------------------------------------- strict-type checks
  // Under `declare(strict_types=1)` a typed parameter refuses a value of
  // another type with a TypeError; null is accepted only by `?T`.

  function AsString(v: Value, param: string): (r: Result<string>)
    ensures r.Ok? <==> v.VStr?
    ensures r.Ok? ==> r.value == v.s
  {
    if v.VStr? then Ok(v.s) else Err(TypeError(param))
  }

  function AsNullableString(v: Value, param: string): (r: Result<Option<string>>)
    ensures r.Ok? <==> (v.VStr? || v == VNull)
    ensures r == Ok(None) <==> v == VNull
    ensures v.VStr? ==> r == Ok(Some(v.s))
  {
    if v == VNull then Ok(None) else if v.VStr? then Ok(Some(v.s)) else Err(TypeError(param))
  }

  function AsArray(v: Value, param: string): (r: Result<Value>)
    ensures r.Ok? <==> v.IsArray()
    ensures r.Ok? ==> r.value == v
  {
    if v.IsArray() then Ok(v) else Err(TypeError(param))
  }

  function OptStr(o: Option<string>): Value {
    if o.Some? then VStr(o.value) else VNull
  }

  function OptReal(o: Option<real>): Value {
    if o.Some? then VFloat(o.value) else VNull
  }
}
