// The length-prefixed encodings that are signed or hashed: the rotation proof input of manager/artifact_keys.py
// and the process identity of manager/wire/endpoint.py. Fields are the UTF-8 bytes of the text.
module Encoding {
  import opened Aggregates

  const COLON: Byte := 58
  const NEWLINE: Byte := 10

  predicate Plain(s: string) { forall i :: 0 <= i < |s| ==> s[i] < 128 as char }

  function Ascii(s: string): (b: Bytes)
    requires Plain(s)
    ensures |b| == |s| && forall i :: 0 <= i < |s| ==> b[i] as int == s[i] as int
  {
    seq(|s|, i requires 0 <= i < |s| => s[i] as int as Byte)
  }

  // ---- lengths in decimal ----

  // str(n)
  function Decimal(n: nat): Bytes {
    if n < 10 then [(48 + n) as Byte] else Decimal(n / 10) + [(48 + n % 10) as Byte]
  }

  function Value(s: Bytes): nat
    decreases |s|
  {
    if s == [] then 0
    else Value(s[..|s| - 1]) * 10 + (if 48 <= s[|s| - 1] <= 57 then s[|s| - 1] as int - 48 else 0)
  }

  lemma {:induction false} ValueOfDecimal(n: nat)
    ensures Value(Decimal(n)) == n
    ensures |Decimal(n)| > 0 && forall i :: 0 <= i < |Decimal(n)| ==> 48 <= Decimal(n)[i] <= 57
  {
    var d := Decimal(n);
    if n < 10 {
      assert d[..0] == [];
    } else {
      ValueOfDecimal(n / 10);
      assert d[..|d| - 1] == Decimal(n / 10);
    }
  }

  // ---- one frame: the length, a colon, the bytes ----

  function Frame(f: Bytes): Bytes { Decimal(|f|) + [COLON] + f }

  function ColonAt(s: Bytes): (i: nat)
    ensures i <= |s| && (i < |s| ==> s[i] == COLON)
  {
    if s == [] || s[0] == COLON then 0 else 1 + ColonAt(s[1..])
  }

  lemma {:induction false} ColonAfter(d: Bytes, rest: Bytes)
    requires forall i :: 0 <= i < |d| ==> d[i] != COLON
    ensures ColonAt(d + [COLON] + rest) == |d|
    decreases |d|
  {
    var s := d + [COLON] + rest;
    if d != [] { assert s[1..] == d[1..] + [COLON] + rest; ColonAfter(d[1..], rest); }
  }

  // Reads one frame and what follows it; a length must be written as str(n) writes it.
  function ReadFrame(s: Bytes): (r: Option<(Bytes, Bytes)>)
    ensures r.Some? ==> |r.value.1| < |s|
  {
    var i := ColonAt(s);
    var n := Value(s[..i]);
    if i == |s| || Decimal(n) != s[..i] || i + 1 + n > |s| then None
    else Some((s[i + 1..i + 1 + n], s[i + 1 + n..]))
  }

  // Reading inverts writing, whatever follows and whatever bytes the field holds, and accepts nothing else.
  lemma FrameExactly(s: Bytes, f: Bytes, rest: Bytes)
    ensures ReadFrame(s) == Some((f, rest)) <==> s == Frame(f) + rest
  {
    if s == Frame(f) + rest {
      var d := Decimal(|f|);
      ValueOfDecimal(|f|);
      assert s == d + [COLON] + (f + rest);
      ColonAfter(d, f + rest);
      assert s[..|d|] == d;
      assert s[|d| + 1..|d| + 1 + |f|] == f;
      assert s[|d| + 1 + |f|..] == rest;
    }
    if ReadFrame(s) == Some((f, rest)) {
      var i := ColonAt(s);
      assert s == s[..i] + [COLON] + s[i + 1..i + 1 + |f|] + s[i + 1 + |f|..];
    }
  }

  // ---- a list of frames ----

  function Encode(fields: seq<Bytes>): Bytes {
    if fields == [] then [] else Frame(fields[0]) + Encode(fields[1..])
  }

  function Decode(s: Bytes): Option<seq<Bytes>>
    decreases |s|
  {
    if s == [] then Some([])
    else match ReadFrame(s)
      case None => None
      case Some((f, rest)) =>
        match Decode(rest)
        case None => None
        case Some(fs) => Some([f] + fs)
  }

  // Uniquely decodable: the decoder returns exactly the fields that were encoded, for every list of byte strings.
  lemma {:induction false} DecodeExactly(s: Bytes, fields: seq<Bytes>)
    ensures Decode(s) == Some(fields) <==> s == Encode(fields)
    decreases |s|
  {
    hide Frame, ReadFrame;
    if fields == [] {
    } else if s == [] {
      FrameNonempty(fields[0]);
    } else {
      assert fields == [fields[0]] + fields[1..];
      match ReadFrame(s)
      case None => FrameExactly(s, fields[0], Encode(fields[1..]));
      case Some((f, rest)) =>
        FrameExactly(s, f, rest);
        FrameExactly(s, fields[0], Encode(fields[1..]));
        DecodeExactly(rest, fields[1..]);
    }
  }

  lemma FrameNonempty(f: Bytes)
    ensures |Frame(f)| > 0
  {
  }

  lemma EncodeInjective(a: seq<Bytes>, b: seq<Bytes>)
    requires Encode(a) == Encode(b)
    ensures a == b
  {
    DecodeExactly(Encode(a), a);
    DecodeExactly(Encode(a), b);
  }

  // ---- process identity ----

  datatype Reference =
    | NativeExact(host: Bytes, boot: Bytes, pid: nat, ticks: Bytes)
    | SourceScoped(host: Bytes, bootId: Option<Bytes>, namespace: Bytes, pid: nat, guid: Bytes)

  const UNKNOWN := Ascii("unknown")
  const NATIVE := Ascii("native-process-instance-v1")
  const SOURCE := Ascii("source-process-instance-v1")

  function BootField(boot: Option<Bytes>): Bytes {
    if boot.None? || boot.value == [] then UNKNOWN else boot.value
  }

  function IdentityFields(r: Reference): seq<Bytes> {
    match r
    case NativeExact(host, boot, pid, ticks) => [NATIVE, host, boot, Decimal(pid), ticks]
    case SourceScoped(host, boot, namespace, pid, guid) =>
      [SOURCE, host, BootField(boot), namespace, Decimal(pid), guid]
  }

  // The two boots are written alike without being the same.
  predicate BootsConfused(a: Reference, b: Reference) {
    && a.SourceScoped? && b.SourceScoped? && a.bootId != b.bootId && BootField(a.bootId) == BootField(b.bootId)
    && a.(bootId := None) == b.(bootId := None)
  }

  // What a reader of the hashed input finds, field by field.
  predicate ReadsAs(got: seq<Bytes>, r: Reference) {
    match r
    case NativeExact(host, boot, pid, ticks) =>
      |got| == 5 && got[0] == NATIVE && got[1] == host && got[2] == boot && Value(got[3]) == pid && got[4] == ticks
    case SourceScoped(host, boot, namespace, pid, guid) =>
      && |got| == 6 && got[0] == SOURCE && got[1] == host
      && (boot.Some? && boot.value != [] ==> got[2] == boot.value) && (boot.None? ==> got[2] == UNKNOWN)
      && got[3] == namespace && Value(got[4]) == pid && got[5] == guid
  }

  lemma IdentityRead(r: Reference)
    ensures Decode(Encode(IdentityFields(r))).Some? && ReadsAs(Decode(Encode(IdentityFields(r))).value, r)
  {
    hide Encode, Decode;
    DecodeExactly(Encode(IdentityFields(r)), IdentityFields(r));
    ValueOfDecimal(r.pid);
  }

  // Two references share a hashed identity exactly when they are the same, or differ only in an absent boot
  // against one spelled "unknown" or empty.
  lemma IdentityExactly(a: Reference, b: Reference)
    ensures Encode(IdentityFields(a)) == Encode(IdentityFields(b)) <==> a == b || BootsConfused(a, b)
  {
    hide Encode;
    ValueOfDecimal(a.pid);
    ValueOfDecimal(b.pid);
    if Encode(IdentityFields(a)) == Encode(IdentityFields(b)) {
      EncodeInjective(IdentityFields(a), IdentityFields(b));
      var x, y := IdentityFields(a), IdentityFields(b);
      assert x[1] == y[1] && x[2] == y[2] && x[3] == y[3] && x[4] == y[4];
      assert a.SourceScoped? ==> x[5] == y[5];
    }
  }

  // A boot id of the schema's form is never confused.
  lemma SchemaBootsDistinct(a: Reference, b: Reference)
    requires a.SourceScoped? && a.bootId.Some? ==> |a.bootId.value| == 69
    requires b.SourceScoped? && b.bootId.Some? ==> |b.bootId.value| == 69
    ensures Encode(IdentityFields(a)) == Encode(IdentityFields(b)) <==> a == b
  {
    IdentityExactly(a, b);
    assert |UNKNOWN| == 7;
  }

  // ---- the rotation proof input ----

  function Entry(name: Bytes, value: Bytes): Bytes { name + [COLON] + Frame(value) + [NEWLINE] }

  function EncodeNamed(names: seq<Bytes>, values: seq<Bytes>): Bytes
    requires |names| == |values|
  {
    if names == [] then [] else Entry(names[0], values[0]) + EncodeNamed(names[1..], values[1..])
  }

  function DecodeNamed(names: seq<Bytes>, s: Bytes): Option<seq<Bytes>>
  {
    if names == [] then (if s == [] then Some([]) else None)
    else
      var lead := names[0] + [COLON];
      if !(lead <= s) then None
      else match ReadFrame(s[|lead|..])
        case None => None
        case Some((v, rest)) =>
          if rest == [] || rest[0] != NEWLINE then None
          else match DecodeNamed(names[1..], rest[1..])
            case None => None
            case Some(vs) => Some([v] + vs)
  }

  lemma {:induction false} NamedExactly(names: seq<Bytes>, s: Bytes, values: seq<Bytes>)
    ensures DecodeNamed(names, s) == Some(values) <==> |values| == |names| && s == EncodeNamed(names, values)
    decreases |names|
  {
    hide Frame, ReadFrame;
    if names != [] {
      if values != [] && |values| == |names| && s == EncodeNamed(names, values) { NamedDecodes(names, s, values); }
      if DecodeNamed(names, s) == Some(values) { NamedEncodes(names, s, values); }
    }
  }

  lemma {:induction false} NamedDecodes(names: seq<Bytes>, s: Bytes, values: seq<Bytes>)
    requires names != [] && |values| == |names| && s == EncodeNamed(names, values)
    ensures DecodeNamed(names, s) == Some(values)
    decreases |names|, 0
  {
    hide Frame, ReadFrame;
    var lead := names[0] + [COLON];
    var tail := EncodeNamed(names[1..], values[1..]);
    assert s == lead + (Frame(values[0]) + ([NEWLINE] + tail));
    assert s[|lead|..] == Frame(values[0]) + ([NEWLINE] + tail);
    FrameExactly(s[|lead|..], values[0], [NEWLINE] + tail);
    assert ([NEWLINE] + tail)[1..] == tail;
    NamedExactly(names[1..], tail, values[1..]);
    assert values == [values[0]] + values[1..];
  }

  lemma {:induction false} NamedEncodes(names: seq<Bytes>, s: Bytes, values: seq<Bytes>)
    requires names != [] && DecodeNamed(names, s) == Some(values)
    ensures |values| == |names| && s == EncodeNamed(names, values)
    decreases |names|, 0
  {
    hide Frame, ReadFrame;
    var lead := names[0] + [COLON];
    var body := s[|lead|..];
    var v, rest := ReadFrame(body).value.0, ReadFrame(body).value.1;
    FrameExactly(body, v, rest);
    NamedExactly(names[1..], rest[1..], values[1..]);
    assert rest == [NEWLINE] + rest[1..];
    assert s == lead + body;
  }

  const PREFIX := Ascii("panopticon-artifact-key-rotation/1") + [NEWLINE]

  const NAMES := [
    Ascii("agent_id"), Ascii("host_id"), Ascii("request_id"), Ascii("nonce"),
    Ascii("expires_at"), Ascii("old_key_id"), Ascii("new_key_id"), Ascii("new_public_key")]

  datatype Request = Request(agent: Bytes, host: Bytes, request: Bytes, nonce: Bytes, expiresAt: Bytes, oldKey: Bytes, newPublicKey: Bytes)

  function Fields(r: Request, keyId: Bytes -> Bytes): seq<Bytes> {
    [r.agent, r.host, r.request, r.nonce, r.expiresAt, r.oldKey, keyId(r.newPublicKey), r.newPublicKey]
  }

  // Each value stands under its own name.
  predicate Labelled(got: seq<Bytes>, r: Request, keyId: Bytes -> Bytes) {
    |got| == 8 && |NAMES| == 8
    && NAMES[0] == Ascii("agent_id") && got[0] == r.agent && NAMES[1] == Ascii("host_id") && got[1] == r.host
    && NAMES[2] == Ascii("request_id") && got[2] == r.request && NAMES[3] == Ascii("nonce") && got[3] == r.nonce
    && NAMES[4] == Ascii("expires_at") && got[4] == r.expiresAt && NAMES[5] == Ascii("old_key_id") && got[5] == r.oldKey
    && NAMES[6] == Ascii("new_key_id") && got[6] == keyId(r.newPublicKey)
    && NAMES[7] == Ascii("new_public_key") && got[7] == r.newPublicKey
  }

  // rotation_input
  method RotationInput(r: Request, keyId: Bytes -> Bytes) returns (result: Bytes)
    ensures PREFIX <= result
    ensures DecodeNamed(NAMES, result[|PREFIX|..]) == Some(Fields(r, keyId))
    ensures result == PREFIX + EncodeNamed(NAMES, Fields(r, keyId))
    ensures Labelled(DecodeNamed(NAMES, result[|PREFIX|..]).value, r, keyId)
  {
    hide EncodeNamed, DecodeNamed;
    result := AppendNamed(PREFIX, NAMES, Fields(r, keyId));
    NamedExactly(NAMES, EncodeNamed(NAMES, Fields(r, keyId)), Fields(r, keyId));
    assert result[|PREFIX|..] == EncodeNamed(NAMES, Fields(r, keyId));
  }

  // Its loop over the named fields.
  method AppendNamed(prefix: Bytes, names: seq<Bytes>, values: seq<Bytes>) returns (result: Bytes)
    requires |names| == |values|
    ensures result == prefix + EncodeNamed(names, values)
  {
    hide Entry;
    result := prefix;
    var i := 0;
    while i < |names|
      invariant 0 <= i <= |names|
      invariant result + EncodeNamed(names[i..], values[i..]) == prefix + EncodeNamed(names, values)
    {
      assert names[i..][1..] == names[i + 1..] && values[i..][1..] == values[i + 1..];
      result := result + Entry(names[i], values[i]);
      i := i + 1;
    }
  }

  // Distinct rotation requests are never signed over the same bytes.
  lemma RotationInjective(a: Request, b: Request, keyId: Bytes -> Bytes)
    requires EncodeNamed(NAMES, Fields(a, keyId)) == EncodeNamed(NAMES, Fields(b, keyId))
    ensures a == b
  {
    hide EncodeNamed, DecodeNamed;
    var s := EncodeNamed(NAMES, Fields(a, keyId));
    NamedExactly(NAMES, s, Fields(a, keyId));
    NamedExactly(NAMES, s, Fields(b, keyId));
    var x, y := Fields(a, keyId), Fields(b, keyId);
    assert x[0] == y[0] && x[1] == y[1] && x[2] == y[2] && x[3] == y[3] && x[4] == y[4] && x[5] == y[5] && x[7] == y[7];
  }

  // The signed input of a rotation is never the hashed input of a process identity.
  lemma DomainsDisjoint(r: Request, keyId: Bytes -> Bytes, fields: seq<Bytes>)
    ensures PREFIX + EncodeNamed(NAMES, Fields(r, keyId)) != Encode(fields)
  {
    var s := PREFIX + EncodeNamed(NAMES, Fields(r, keyId));
    assert s[0] == 'p' as int as Byte;
    if fields != [] {
      ValueOfDecimal(|fields[0]|);
      assert Encode(fields)[0] == Decimal(|fields[0]|)[0];
    }
  }
}
