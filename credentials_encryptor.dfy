/** The Laravel credentials encryptor: it encrypts or decrypts the secret
    fields of a flattened settings record one at a time, keeps a field as it
    was when the encrypter throws an exception, and logs that. */
module CredentialsEncryption {
  import opened Php
  import opened Foreign

  /** The settings keys whose values are secrets, in the order visited. */
  const EncryptedFields: seq<string> := [
    "meta_access_token", "google_api_secret", "tiktok_access_token",
    "pinterest_access_token", "snapchat_access_token", "brevo_api_key"]

  predicate Distinct(fs: seq<string>) {
    forall i, j :: 0 <= i < j < |fs| ==> fs[i] != fs[j]
  }

  lemma FieldsDistinct()
    ensures Distinct(EncryptedFields)
  {
  }

  /** Laravel's `Encrypter` contract; an `Err` is what the call throws. */
  datatype Cipher = Cipher(encrypt: string -> Result<string>, decrypt: string -> Result<string>)

  /** One direction of the encryptor: the encrypter call it makes and the
      line it logs when that call throws an exception. */
  datatype Pass = Pass(op: string -> Result<string>, level: Level, message: string)

  function EncryptPass(c: Cipher): Pass {
    Pass(c.encrypt, ErrorLevel, "Failed to encrypt credential field")
  }

  function DecryptPass(c: Cipher): Pass {
    Pass(c.decrypt, Warning, "Failed to decrypt credential field, using as-is")
  }

  /** `isset($d[$f]) && !empty($d[$f])`. */
  predicate Selected(d: Record, f: string) {
    IsSet(d, f) && Truthy(d[f])
  }

  /** What the visit of a field leaves: the record or what escaped, and the
      lines logged so far. */
  datatype Outcome = Outcome(result: Result<Record>, log: seq<LogLine>)

  /** The body of the `foreach` for field `f`. The single-value `encrypt`
      and `decrypt` take a `string`, so a set, non-empty value of another
      type is a TypeError, which `catch (\Exception $e)` lets through. */
  function Visit(d: Record, f: string, pass: Pass): Outcome {
    if !Selected(d, f) then Outcome(Ok(d), [])
    else match AsString(d[f], "value")
      case Err(e) => Outcome(Err(e), [])
      case Ok(v) =>
        match pass.op(v)
        case Ok(w) => Outcome(Ok(d[f := VStr(w)]), [])
        case Err(e) =>
          if e.IsException() then Outcome(Ok(d), [LogLine(pass.level, pass.message)])
          else Outcome(Err(e), [])
  }

  /** The fields `fs` visited in order, stopping at the first escape. */
  function Walk(d: Record, fs: seq<string>, pass: Pass): Outcome
    decreases |fs|
  {
    if |fs| == 0 then Outcome(Ok(d), [])
    else
      var s := Visit(d, fs[0], pass);
      if s.result.Err? then s
      else
        var o := Walk(s.result.value, fs[1..], pass);
        Outcome(o.result, s.log + o.log)
  }

  /** One round of the `foreach`: how the walk from the first field on
      relates to the walk from the second, in each case of the body. */
  lemma WalkStep(d: Record, fs: seq<string>, pass: Pass)
    requires |fs| > 0
    ensures var f := fs[0];
      var rest := Walk(d, fs[1..], pass);
      (!Selected(d, f) ==> Walk(d, fs, pass) == rest) &&
      (Selected(d, f) && !d[f].VStr? ==> Walk(d, fs, pass) == Outcome(Err(TypeError("value")), [])) &&
      (Selected(d, f) && d[f].VStr? && pass.op(d[f].s).Ok? ==>
         Walk(d, fs, pass) == Walk(d[f := VStr(pass.op(d[f].s).value)], fs[1..], pass)) &&
      (Selected(d, f) && d[f].VStr? && pass.op(d[f].s).Err? && pass.op(d[f].s).error.IsException() ==>
         Walk(d, fs, pass) == Outcome(rest.result, [LogLine(pass.level, pass.message)] + rest.log)) &&
      (Selected(d, f) && d[f].VStr? && pass.op(d[f].s).Err? && !pass.op(d[f].s).error.IsException() ==>
         Walk(d, fs, pass) == Outcome(Err(pass.op(d[f].s).error), []))
  {
    var f := fs[0];
    if !Selected(d, f) {
      assert [] + Walk(d, fs[1..], pass).log == Walk(d, fs[1..], pass).log;
    } else if d[f].VStr? && pass.op(d[f].s).Ok? {
      var o := Walk(d[f := VStr(pass.op(d[f].s).value)], fs[1..], pass);
      assert [] + o.log == o.log;
    }
  }

  // ----------------------------------------------- field by field reading

  /** The encrypter call made for field `k`, when one is made. */
  predicate Called(d: Record, k: string) {
    Selected(d, k) && d[k].VStr?
  }

  /** Field `k` makes the pass throw out of the method. */
  predicate Throws(d: Record, k: string, pass: Pass) {
    Selected(d, k) && (!d[k].VStr? || (pass.op(d[k].s).Err? && !pass.op(d[k].s).error.IsException()))
  }

  /** Field `k` is kept as it was and logged. */
  predicate Caught(d: Record, k: string, pass: Pass) {
    Called(d, k) && pass.op(d[k].s).Err? && pass.op(d[k].s).error.IsException()
  }

  /** What field `k` of `d` becomes on its own: the encrypter's answer when
      it is called and answers, and the value as it was otherwise. */
  function Expected(d: Record, k: string, pass: Pass): Value
    requires k in d
  {
    if Called(d, k) && pass.op(d[k].s).Ok? then VStr(pass.op(d[k].s).value) else d[k]
  }

  /** The number of fields of `fs` that are kept and logged. */
  function CaughtCount(d: Record, fs: seq<string>, pass: Pass): nat
    decreases |fs|
  {
    if |fs| == 0 then 0 else (if Caught(d, fs[0], pass) then 1 else 0) + CaughtCount(d, fs[1..], pass)
  }

  /** Read field by field: the walk escapes exactly when some field throws;
      otherwise it keeps the key set, changes only the listed fields, each as
      if visited alone, and logs one line per caught failure. */
  lemma {:induction false} WalkPointwise(d: Record, fs: seq<string>, pass: Pass)
    requires Distinct(fs)
    ensures Walk(d, fs, pass).result.Ok? <==> forall f :: f in fs ==> !Throws(d, f, pass)
    ensures Walk(d, fs, pass).result.Ok? ==>
      var r := Walk(d, fs, pass).result.value;
      r.Keys == d.Keys &&
      (forall k :: k in d ==> r[k] == if k in fs then Expected(d, k, pass) else d[k])
    ensures Walk(d, fs, pass).result.Ok? ==>
      |Walk(d, fs, pass).log| == CaughtCount(d, fs, pass) &&
      forall i :: 0 <= i < |Walk(d, fs, pass).log| ==>
        Walk(d, fs, pass).log[i] == LogLine(pass.level, pass.message)
    decreases |fs|
  {
    if |fs| > 0 {
      var f := fs[0];
      var s := Visit(d, f, pass);
      if s.result.Ok? {
        var d1 := s.result.value;
        assert d1.Keys == d.Keys;
        assert forall k :: k in d && k != f ==> d1[k] == d[k];
        assert forall k :: k in fs[1..] ==> k != f;
        assert !Throws(d, f, pass);
        WalkPointwise(d1, fs[1..], pass);
        SameOutside(d, d1, f, fs[1..], pass);
        assert forall g :: g in fs <==> g == f || g in fs[1..];
      } else {
        assert f in fs && Throws(d, f, pass);
      }
    }
  }

  /** Before field `f` is reached again, the rest of the walk sees the
      original values of every other field. */
  lemma {:induction false} SameOutside(d: Record, d1: Record, f: string, fs: seq<string>, pass: Pass)
    requires d1.Keys == d.Keys && forall k :: k in d && k != f ==> d1[k] == d[k]
    requires f !in fs
    ensures forall g :: g in fs ==> (Throws(d1, g, pass) <==> Throws(d, g, pass))
    ensures forall g :: g in fs && g in d ==> Expected(d1, g, pass) == Expected(d, g, pass)
    ensures CaughtCount(d1, fs, pass) == CaughtCount(d, fs, pass)
    decreases |fs|
  {
    if |fs| > 0 {
      SameOutside(d, d1, f, fs[1..], pass);
    }
  }

  // ------------------------------------------------------------ the class

  class LaravelCredentialsEncryptor {
    const cipher: Cipher
    /** The lines written to the injected logger. */
    var log: seq<LogLine>

    constructor(cipher: Cipher)
      ensures this.cipher == cipher && log == []
    {
      this.cipher := cipher;
      log := [];
    }

    /** `encryptArray`. */
    method EncryptArray(data: Record) returns (r: Result<Record>)
      modifies this
      ensures r == Walk(data, EncryptedFields, EncryptPass(cipher)).result
      ensures log == old(log) + Walk(data, EncryptedFields, EncryptPass(cipher)).log
    {
      r := Process(data, EncryptedFields, EncryptPass(cipher));
    }

    /** `decryptArray`. */
    method DecryptArray(data: Record) returns (r: Result<Record>)
      modifies this
      ensures r == Walk(data, EncryptedFields, DecryptPass(cipher)).result
      ensures log == old(log) + Walk(data, EncryptedFields, DecryptPass(cipher)).log
    {
      r := Process(data, EncryptedFields, DecryptPass(cipher));
    }

    /** The `foreach` the two share, over a copy of `data`. */
    method Process(data: Record, fields: seq<string>, pass: Pass) returns (r: Result<Record>)
      modifies this
      ensures r == Walk(data, fields, pass).result
      ensures log == old(log) + Walk(data, fields, pass).log
    {
      var copy := data;
      ghost var written: seq<LogLine> := [];
      var i := 0;
      while i < |fields|
        invariant 0 <= i <= |fields|
        invariant log == old(log) + written
        invariant Walk(data, fields, pass) ==
          Outcome(Walk(copy, fields[i..], pass).result, written + Walk(copy, fields[i..], pass).log)
      {
        var f := fields[i];
        assert fields[i..][0] == f && fields[i..][1..] == fields[i + 1..];
        WalkStep(copy, fields[i..], pass);
        if IsSet(copy, f) && Truthy(copy[f]) {
          if !copy[f].VStr? {
            return Err(TypeError("value"));
          }
          var out := pass.op(copy[f].s);
          if out.Ok? {
            copy := copy[f := VStr(out.value)];
          } else if out.error.IsException() {
            log := log + [LogLine(pass.level, pass.message)];
            written := written + [LogLine(pass.level, pass.message)];
          } else {
            return Err(out.error);
          }
        }
        i := i + 1;
      }
      r := Ok(copy);
    }
  }

  // ----------------------------------------------------------- properties

  /** Only the six secret fields can change, the key set stays, and a field
      that is absent, null or empty is untouched. */
  lemma OnlySecretsChange(d: Record, pass: Pass)
    ensures Walk(d, EncryptedFields, pass).result.Ok? ==>
      var r := Walk(d, EncryptedFields, pass).result.value;
      r.Keys == d.Keys &&
      (forall k :: k in d && k !in EncryptedFields ==> r[k] == d[k]) &&
      (forall k :: k in d && !Selected(d, k) ==> r[k] == d[k])
  {
    FieldsDistinct();
    WalkPointwise(d, EncryptedFields, pass);
  }

  /** A secret field whose encrypter call throws an exception keeps its
      value, and a line is logged at the pass's level. */
  lemma FailureKeepsValue(d: Record, pass: Pass, f: string)
    requires f in EncryptedFields && Caught(d, f, pass)
    ensures Walk(d, EncryptedFields, pass).result.Ok? ==>
      f in Walk(d, EncryptedFields, pass).result.value &&
      Walk(d, EncryptedFields, pass).result.value[f] == d[f] &&
      LogLine(pass.level, pass.message) in Walk(d, EncryptedFields, pass).log
  {
    FieldsDistinct();
    CaughtLogged(d, EncryptedFields, pass, f);
  }

  lemma CaughtLogged(d: Record, fs: seq<string>, pass: Pass, f: string)
    requires Distinct(fs) && f in fs && Caught(d, f, pass)
    ensures Walk(d, fs, pass).result.Ok? ==>
      f in Walk(d, fs, pass).result.value &&
      Walk(d, fs, pass).result.value[f] == d[f] &&
      LogLine(pass.level, pass.message) in Walk(d, fs, pass).log
  {
    WalkPointwise(d, fs, pass);
    CaughtCounted(d, fs, pass, f);
    if Walk(d, fs, pass).result.Ok? {
      var log := Walk(d, fs, pass).log;
      assert log[0] == LogLine(pass.level, pass.message);
    }
  }

  lemma {:induction false} CaughtCounted(d: Record, fs: seq<string>, pass: Pass, f: string)
    requires f in fs && Caught(d, f, pass)
    ensures CaughtCount(d, fs, pass) > 0
    decreases |fs|
  {
    if fs[0] != f {
      CaughtCounted(d, fs[1..], pass, f);
    }
  }

  /** The method escapes exactly when a secret field holds a non-empty
      value that is not a string, or the encrypter throws something that is
      not an `\Exception`. */
  lemma EscapesIff(d: Record, pass: Pass)
    ensures Walk(d, EncryptedFields, pass).result.Err? <==>
      exists f :: f in EncryptedFields && Throws(d, f, pass)
  {
    FieldsDistinct();
    WalkPointwise(d, EncryptedFields, pass);
  }

  /** The encrypter undoes its own encryption, never produces an empty
      ciphertext, throws only exceptions, and cannot decrypt a value it
      failed to encrypt. */
  ghost predicate Inverse(c: Cipher) {
    forall v :: (c.encrypt(v).Ok? ==> !EmptyStr(c.encrypt(v).value) && c.decrypt(c.encrypt(v).value) == Ok(v)) &&
                (c.encrypt(v).Err? ==> c.encrypt(v).error.IsException() &&
                                       c.decrypt(v).Err? && c.decrypt(v).error.IsException())
  }

  /** `decryptArray(encryptArray($d)) == $d` for an encrypter that undoes
      itself, whenever `encryptArray` returns. */
  lemma RoundTrip(c: Cipher, d: Record)
    requires Inverse(c)
    requires Walk(d, EncryptedFields, EncryptPass(c)).result.Ok?
    ensures Walk(Walk(d, EncryptedFields, EncryptPass(c)).result.value, EncryptedFields, DecryptPass(c)).result == Ok(d)
  {
    FieldsDistinct();
    RoundTripOver(c, d, EncryptedFields);
  }

  lemma RoundTripOver(c: Cipher, d: Record, fs: seq<string>)
    requires Inverse(c) && Distinct(fs)
    requires Walk(d, fs, EncryptPass(c)).result.Ok?
    ensures Walk(Walk(d, fs, EncryptPass(c)).result.value, fs, DecryptPass(c)).result == Ok(d)
  {
    var e := Walk(d, fs, EncryptPass(c)).result.value;
    WalkPointwise(d, fs, EncryptPass(c));
    WalkPointwise(e, fs, DecryptPass(c));
    forall f | f in fs
      ensures !Throws(e, f, DecryptPass(c))
      ensures f in d ==> Expected(e, f, DecryptPass(c)) == d[f]
    {
      assert !Throws(d, f, EncryptPass(c));
      if f in d && Called(d, f) {
        var v := d[f].s;
        if c.encrypt(v).Ok? {
          assert e[f] == VStr(c.encrypt(v).value);
        } else {
          assert e[f] == d[f];
        }
      }
    }
    var r := Walk(e, fs, DecryptPass(c)).result.value;
    assert r == d;
  }
}
