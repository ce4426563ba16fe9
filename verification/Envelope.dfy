/**
  The update envelope: the writer of the packer (packer.cpp) and the reader of the client
  (core/update_verify.cpp). Both sides of the format, and what they promise each other.
 */
module Envelope {
  import opened Wrappers
  import opened Words

  type Uint64 = n: int | 0 <= n < 0x1_0000_0000_0000_0000
  type Int64 = n: int | -0x8000_0000_0000_0000 <= n < 0x8000_0000_0000_0000

  datatype Signature = Signature(keyId: Bytes, bytes: Bytes)

  datatype Fields = Fields(
    channel: Byte, os: Byte, arch: Byte, version: Uint64, created: Int64,
    manifest: Bytes, manifestSignature: Bytes, signatures: seq<Signature>, payload: Bytes)

  /** What the reader hands out: the fields, and the bytes a signature covers. */
  datatype Envelope = Envelope(fields: Fields, signedRegion: Bytes)

  const MAGIC: Bytes := [84, 68, 85, 80]  // "TDUP"
  const FORMAT: Uint32 := 2

  // ---------- wider integers ----------

  function LeU64(value: Uint64): (s: Bytes)
    ensures |s| == 8
  {
    LeU32(value % 0x1_0000_0000) + LeU32(value / 0x1_0000_0000)
  }

  /** The conversion quint64(created) and its inverse qint64(value). */
  function ToUnsigned(created: Int64): Uint64 { if created < 0 then created + 0x1_0000_0000_0000_0000 else created }

  function ToSigned(value: Uint64): Int64
        { if value < 0x8000_0000_0000_0000 then value else value - 0x1_0000_0000_0000_0000 }

  function U8At(d: Bytes, o: nat): Option<Byte> {
    if o + 1 <= |d| then Some(d[o]) else None
  }

  function U64At(d: Bytes, o: nat): Option<Uint64> {
    var low :- U32At(d, o);
    var high :- U32At(d, o + 4);
    Some(low + 0x1_0000_0000 * high)
  }

  // ---------- the layout, written ----------

  /** A length and the bytes; the length is converted to 32 bits. */
  function Blob(b: Bytes): (r: Bytes)
    ensures |r| == 4 + |b|
  {
    LeU32(|b| % 0x1_0000_0000) + b
  }

  function SignatureBytes(s: Signature): (r: Bytes)
    ensures |r| == 8 + |s.keyId| + |s.bytes|
  {
    Blob(s.keyId) + Blob(s.bytes)
  }

  function SignaturesBytes(s: seq<Signature>): Bytes {
    if |s| == 0 then [] else SignatureBytes(s[0]) + SignaturesBytes(s[1..])
  }

  function Header(f: Fields): (s: Bytes)
    ensures |s| == 27
  {
    MAGIC + LeU32(FORMAT) + [f.channel, f.os, f.arch] + LeU64(f.version) + LeU64(ToUnsigned(f.created))
  }

  /** From the magic through the end of the manifest. */
  function SignedRegion(f: Fields): Bytes { Header(f) + Blob(f.manifest) }

  function Encode(f: Fields): Bytes {
    SignedRegion(f) + Blob(f.manifestSignature)
    + LeU32(|f.signatures| % 0x1_0000_0000) + SignaturesBytes(f.signatures) + Blob(f.payload)
  }

  /** The packer's buffer. */
  class ByteArray {
    var bytes: Bytes

    constructor ()
      ensures bytes == []
    {
      bytes := [];
    }

    method Append(more: Bytes)
      modifies this
      ensures bytes == old(bytes) + more
    {
      bytes := bytes + more;
    }

    method AppendLeU32(value: Uint32)
      modifies this
      ensures bytes == old(bytes) + LeU32(value)
    {
      bytes := bytes + [Digit(value, 0), Digit(value, 1), Digit(value, 2), Digit(value, 3)];
    }

    method AppendLeU64(value: Uint64)
      modifies this
      ensures bytes == old(bytes) + LeU64(value)
    {
      AppendLeU32(value % 0x1_0000_0000);
      AppendLeU32(value / 0x1_0000_0000);
      assert bytes == old(bytes) + (LeU32(value % 0x1_0000_0000) + LeU32(value / 0x1_0000_0000));
    }

    method AppendBlob(b: Bytes)
      modifies this
      ensures bytes == old(bytes) + Blob(b)
    {
      AppendLeU32(|b| % 0x1_0000_0000);
      Append(b);
      assert bytes == old(bytes) + (LeU32(|b| % 0x1_0000_0000) + b);
    }
  }

  lemma {:induction false} AddSignature(init: seq<Signature>, last: Signature)
    ensures SignaturesBytes(init + [last]) == SignaturesBytes(init) + SignatureBytes(last)
  {
    hide SignatureBytes;
    if |init| == 0 {
      assert [] + [last] == [last] && SignaturesBytes([last][1..]) == [];
    } else {
      AddSignature(init[1..], last);
      assert (init + [last])[1..] == init[1..] + [last];
    }
  }

  method AppendHeader(r: ByteArray, f: Fields)
    modifies r
    ensures r.bytes == old(r.bytes) + Header(f)
  {
    r.Append(MAGIC);
    r.AppendLeU32(FORMAT);
    r.Append([f.channel]);
    r.Append([f.os]);
    r.Append([f.arch]);
    r.AppendLeU64(f.version);
    r.AppendLeU64(ToUnsigned(f.created));
  }

  method AppendSignatures(r: ByteArray, s: seq<Signature>)
    modifies r
    ensures r.bytes == old(r.bytes) + SignaturesBytes(s)
  {
    var i := 0;
    while i < |s|
      invariant i <= |s|
      invariant r.bytes == old(r.bytes) + SignaturesBytes(s[..i])
    {
      r.AppendBlob(s[i].keyId);
      r.AppendBlob(s[i].bytes);
      AddSignature(s[..i], s[i]);
      assert s[..i + 1] == s[..i] + [s[i]];
      assert r.bytes == old(r.bytes) + (SignaturesBytes(s[..i]) + SignatureBytes(s[i]));
      i := i + 1;
    }
    assert s[..i] == s;
  }

  method BuildV2Envelope(f: Fields) returns (result: Bytes)
    ensures result == Encode(f)
  {
    var r := new ByteArray();
    AppendHeader(r, f);
    r.AppendBlob(f.manifest);
    assert r.bytes == SignedRegion(f);
    r.AppendBlob(f.manifestSignature);
    r.AppendLeU32(|f.signatures| % 0x1_0000_0000);
    AppendSignatures(r, f.signatures);
    r.AppendBlob(f.payload);
    result := r.bytes;
  }

  // ---------- the layout, read ----------

  /** The caps a reader puts on the fields. */
  datatype Limits = Limits(
    channel: nat, os: nat, arch: nat, least: nat, manifest: Uint32, manifestSignature: Uint32,
    signatures: Uint32, keyId: Uint32, signature: Uint32, payload: Uint32)

  /** The client's caps: kMax..., and no empty fields. */
  const CLIENT := Limits(3, 2, 2, 1, 256 * 1024, 256, 16, 64, 512, 256 * 1024 * 1024)

  /** No caps beyond the width of the length fields. */
  const LAYOUT := Limits(255, 255, 255, 0, 0xFFFF_FFFF, 0xFFFF_FFFF, 0xFFFF_FFFF, 0xFFFF_FFFF, 0xFFFF_FFFF, 0xFFFF_FFFF)

  predicate Within(b: Bytes, least: nat, cap: nat) { least <= |b| <= cap }

  ghost predicate Allowed(f: Fields, l: Limits) {
    && f.channel <= l.channel && f.os <= l.os && f.arch <= l.arch
    && Within(f.manifest, l.least, l.manifest)
    && Within(f.manifestSignature, l.least, l.manifestSignature)
    && |f.signatures| <= l.signatures
    && AllAllowed(f.signatures, l)
    && Within(f.payload, l.least, l.payload)
  }

  predicate SignatureAllowed(s: Signature, l: Limits) {
    Within(s.keyId, l.least, l.keyId) && Within(s.bytes, l.least, l.signature)
  }

  function BlobAt(d: Bytes, o: nat, least: nat, cap: Uint32): Option<Bytes> {
    var length :- U32At(d, o);
    if length < least || length > cap || length > |d| - (o + 4) then None else Some(d[o + 4..o + 4 + length])
  }

  function SignatureAt(d: Bytes, o: nat, l: Limits): Option<Signature> {
    var keyId :- BlobAt(d, o, l.least, l.keyId);
    var bytes :- BlobAt(d, o + 4 + |keyId|, l.least, l.signature);
    Some(Signature(keyId, bytes))
  }

  /** `count` signatures from offset o on, and the offset after them. */
  function SignaturesAt(d: Bytes, o: nat, count: nat, l: Limits): (r: Option<(seq<Signature>, nat)>)
    ensures r.Some? ==> o <= r.value.1 && |r.value.0| == count
    decreases count
  {
    if count == 0 then Some(([], o))
    else
      var s :- SignatureAt(d, o, l);
      var (more, end) :- SignaturesAt(d, o + 8 + |s.keyId| + |s.bytes|, count - 1, l);
      Some(([s] + more, end))
  }

  function HeaderAt(d: Bytes, l: Limits): Option<(Byte, Byte, Byte, Uint64, Int64)> {
    if |d| < 4 || d[..4] != MAGIC || U32At(d, 4) != Some(FORMAT) then None
    else
      var channel :- U8At(d, 8);
      var os :- U8At(d, 9);
      var arch :- U8At(d, 10);
      if channel > l.channel || os > l.os || arch > l.arch then None
      else
        var version :- U64At(d, 11);
        var created :- U64At(d, 19);
        Some((channel, os, arch, version, ToSigned(created)))
  }

  /** The reader, one field after the other; f collects what was read so far and o is where it stands. */
  function Decode(d: Bytes, l: Limits): Option<Envelope> {
    match HeaderAt(d, l)
    case None => None
    case Some((channel, os, arch, version, created)) =>
      DecodeManifest(d, l, Fields(channel, os, arch, version, created, [], [], [], []))
  }

  function DecodeManifest(d: Bytes, l: Limits, f: Fields): Option<Envelope> {
    match BlobAt(d, 27, l.least, l.manifest)
    case None => None
    case Some(b) => DecodeManifestSignature(d, l, f.(manifest := b), 31 + |b|)
  }

  function DecodeManifestSignature(d: Bytes, l: Limits, f: Fields, o: nat): Option<Envelope>
    requires 31 + |f.manifest| <= o
  {
    match BlobAt(d, o, l.least, l.manifestSignature)
    case None => None
    case Some(b) => DecodeSignatures(d, l, f.(manifestSignature := b), o + 4 + |b|)
  }

  function DecodeSignatures(d: Bytes, l: Limits, f: Fields, o: nat): Option<Envelope>
    requires 31 + |f.manifest| <= o
  {
    match U32At(d, o)
    case None => None
    case Some(count) =>
      if count > l.signatures then None
      else
        match SignaturesAt(d, o + 4, count, l)
        case None => None
        case Some((s, end)) => DecodePayload(d, l, f.(signatures := s), end)
  }

  function DecodePayload(d: Bytes, l: Limits, f: Fields, o: nat): Option<Envelope>
    requires 31 + |f.manifest| <= o
  {
    match BlobAt(d, o, l.least, l.payload)
    case None => None
    case Some(b) =>
      if o + 4 + |b| != |d| then None
      else Some(Envelope(f.(payload := b), d[..31 + |f.manifest|]))
  }

  // ---------- what each reader finds is what its writer put there ----------

  lemma SplitU64(low: Uint32, high: Uint32)
    ensures var n := low + 0x1_0000_0000 * high;
            0 <= n < 0x1_0000_0000_0000_0000 && n / 0x1_0000_0000 == high && n % 0x1_0000_0000 == low
  {
  }

  lemma U64Read(d: Bytes, o: nat, n: Uint64)
    ensures U64At(d, o) == Some(n) <==> At(d, o, LeU64(n))
  {
    var low, high := n % 0x1_0000_0000, n / 0x1_0000_0000;
    AtConcat(d, o, LeU32(low), LeU32(high));
    U32Read(d, o, low);
    U32Read(d, o + 4, high);
    if U64At(d, o).Some? {
      SplitU64(U32At(d, o).value, U32At(d, o + 4).value);
    }
  }

  lemma BlobRead(d: Bytes, o: nat, b: Bytes, least: nat, cap: Uint32)
    ensures BlobAt(d, o, least, cap) == Some(b) <==> Within(b, least, cap) && At(d, o, Blob(b))
  {
    AtConcat(d, o, LeU32(|b| % 0x1_0000_0000), b);
    if Within(b, least, cap) && At(d, o, Blob(b)) {
      U32Read(d, o, |b|);
    } else if BlobAt(d, o, least, cap) == Some(b) {
      U32Read(d, o, |b|);
    }
  }

  lemma SignatureRead(d: Bytes, o: nat, s: Signature, l: Limits)
    ensures SignatureAt(d, o, l) == Some(s) <==> SignatureAllowed(s, l) && At(d, o, SignatureBytes(s))
  {
    AtConcat(d, o, Blob(s.keyId), Blob(s.bytes));
    BlobRead(d, o, s.keyId, l.least, l.keyId);
    BlobRead(d, o + 4 + |s.keyId|, s.bytes, l.least, l.signature);
  }

  ghost predicate AllAllowed(s: seq<Signature>, l: Limits) {
    forall i :: 0 <= i < |s| ==> SignatureAllowed(s[i], l)
  }

  lemma ReadFirst(d: Bytes, o: nat, first: Signature, rest: seq<Signature>, end: nat, l: Limits)
    ensures SignaturesAt(d, o, |rest| + 1, l) == Some(([first] + rest, end))
       <==> SignatureAt(d, o, l) == Some(first)
            && SignaturesAt(d, o + |SignatureBytes(first)|, |rest|, l) == Some((rest, end))
  {
    hide SignatureAt, SignatureBytes;
    var r := SignaturesAt(d, o, |rest| + 1, l);
    if r == Some(([first] + rest, end)) {
      var s := SignatureAt(d, o, l).value;
      assert r.value.0[0] == s == first && r.value.0[1..] == rest;
    }
  }

  lemma AllowFirst(first: Signature, rest: seq<Signature>, l: Limits)
    ensures AllAllowed([first] + rest, l) <==> SignatureAllowed(first, l) && AllAllowed(rest, l)
  {
    var s := [first] + rest;
    if AllAllowed(s, l) {
      assert s[0] == first && forall i :: 0 <= i < |rest| ==> s[i + 1] == rest[i];
    }
  }

  lemma WriteFirst(first: Signature, rest: seq<Signature>)
    ensures SignaturesBytes([first] + rest) == SignatureBytes(first) + SignaturesBytes(rest)
  {
    assert ([first] + rest)[1..] == rest;
  }

  /** The signatures are read one by one, as they were written. */
  lemma SignaturesStep(d: Bytes, o: nat, first: Signature, rest: seq<Signature>, end: nat, l: Limits)
    requires var next := o + |SignatureBytes(first)|;
             next <= |d| ==> (SignaturesAt(d, next, |rest|, l) == Some((rest, end))
                              <==> AllAllowed(rest, l) && At(d, next, SignaturesBytes(rest))
                                   && end == next + |SignaturesBytes(rest)|)
    ensures SignaturesAt(d, o, |rest| + 1, l) == Some(([first] + rest, end))
       <==> AllAllowed([first] + rest, l) && At(d, o, SignaturesBytes([first] + rest))
            && end == o + |SignaturesBytes([first] + rest)|
  {
    hide SignaturesAt, SignatureAt, AllAllowed, SignatureAllowed, SignaturesBytes, SignatureBytes;
    ReadFirst(d, o, first, rest, end, l);
    AllowFirst(first, rest, l);
    WriteFirst(first, rest);
    AtConcat(d, o, SignatureBytes(first), SignaturesBytes(rest));
    SignatureRead(d, o, first, l);
  }

  lemma {:induction false} SignaturesRead(d: Bytes, o: nat, s: seq<Signature>, end: nat, l: Limits)
    requires o <= |d|
    ensures SignaturesAt(d, o, |s|, l) == Some((s, end))
       <==> AllAllowed(s, l) && At(d, o, SignaturesBytes(s)) && end == o + |SignaturesBytes(s)|
    decreases |s|
  {
    hide SignatureAt, SignatureAllowed, SignatureBytes;
    if |s| > 0 {
      var first, rest := s[0], s[1..];
      assert s == [first] + rest;
      if o + |SignatureBytes(first)| <= |d| {
        SignaturesRead(d, o + |SignatureBytes(first)|, rest, end, l);
      }
      SignaturesStep(d, o, first, rest, end, l);
    }
  }

  lemma SignConversion(value: Uint64, created: Int64)
    ensures ToSigned(value) == created <==> value == ToUnsigned(created)
  {
  }

  lemma HeaderLayout(d: Bytes, f: Fields)
    ensures At(d, 0, Header(f))
       <==> && At(d, 0, MAGIC)
            && At(d, 4, LeU32(FORMAT))
            && At(d, 8, [f.channel, f.os, f.arch])
            && At(d, 11, LeU64(f.version))
            && At(d, 19, LeU64(ToUnsigned(f.created)))
  {
    var format, middle: Bytes := LeU32(FORMAT), [f.channel, f.os, f.arch];
    var version, created := LeU64(f.version), LeU64(ToUnsigned(f.created));
    AtConcat(d, 0, MAGIC, format);
    AtConcat(d, 0, MAGIC + format, middle);
    AtConcat(d, 0, MAGIC + format + middle, version);
    AtConcat(d, 0, MAGIC + format + middle + version, created);
  }

  lemma HeaderRead(d: Bytes, f: Fields, l: Limits)
    ensures HeaderAt(d, l) == Some((f.channel, f.os, f.arch, f.version, f.created))
       <==> f.channel <= l.channel && f.os <= l.os && f.arch <= l.arch && At(d, 0, Header(f))
  {
    HeaderLayout(d, f);
    U32Read(d, 4, FORMAT);
    ThreeRead(d, 8, f.channel, f.os, f.arch);
    U64Read(d, 11, f.version);
    U64Read(d, 19, ToUnsigned(f.created));
    if U64At(d, 19).Some? {
      SignConversion(U64At(d, 19).value, f.created);
    }
  }

  lemma ThreeRead(d: Bytes, o: nat, a: Byte, b: Byte, c: Byte)
    ensures At(d, o, [a, b, c]) <==> U8At(d, o) == Some(a) && U8At(d, o + 1) == Some(b) && U8At(d, o + 2) == Some(c)
  {
    if o + 3 <= |d| {
      assert d[o..o + 3] == [d[o], d[o + 1], d[o + 2]];
    }
  }

  // ---------- the whole envelope ----------

  /** Where the field after the manifest, the manifest signature and the signatures starts. */
  function End1(f: Fields): nat { 31 + |f.manifest| }

  function End2(f: Fields): nat { 35 + |f.manifest| + |f.manifestSignature| }

  function End3(f: Fields): nat { End2(f) + 4 + |SignaturesBytes(f.signatures)| }

  /** The parts of the layout stand at their offsets. */
  predicate Pieces(d: Bytes, f: Fields) {
    && At(d, 0, Header(f))
    && At(d, 27, Blob(f.manifest))
    && At(d, End1(f), Blob(f.manifestSignature))
    && At(d, End2(f), LeU32(|f.signatures| % 0x1_0000_0000))
    && At(d, End2(f) + 4, SignaturesBytes(f.signatures))
    && At(d, End3(f), Blob(f.payload))
  }

  lemma LayoutAt(d: Bytes, f: Fields)
    ensures At(d, 0, Encode(f)) <==> Pieces(d, f)
    ensures |Encode(f)| == End3(f) + 4 + |f.payload|
  {
    hide At, SignaturesBytes, Blob, LeU32;
    var p1 := SignedRegion(f);
    var p2 := p1 + Blob(f.manifestSignature);
    var p3 := p2 + LeU32(|f.signatures| % 0x1_0000_0000);
    var p4 := p3 + SignaturesBytes(f.signatures);
    AtConcat(d, 0, p4, Blob(f.payload));
    AtConcat(d, 0, p3, SignaturesBytes(f.signatures));
    AtConcat(d, 0, p2, LeU32(|f.signatures| % 0x1_0000_0000));
    AtConcat(d, 0, p1, Blob(f.manifestSignature));
    AtConcat(d, 0, Header(f), Blob(f.manifest));
  }

  /** What Decode reads at its offsets, field by field. */
  predicate Parts(d: Bytes, f: Fields, l: Limits) {
    && HeaderAt(d, l) == Some((f.channel, f.os, f.arch, f.version, f.created))
    && BlobAt(d, 27, l.least, l.manifest) == Some(f.manifest)
    && BlobAt(d, End1(f), l.least, l.manifestSignature) == Some(f.manifestSignature)
    && U32At(d, End2(f)) == Some(|f.signatures|)
    && |f.signatures| <= l.signatures
    && SignaturesAt(d, End2(f) + 4, |f.signatures|, l) == Some((f.signatures, End3(f)))
    && BlobAt(d, End3(f), l.least, l.payload) == Some(f.payload)
    && |d| == End3(f) + 4 + |f.payload|
  }

  lemma ManifestStage(d: Bytes, l: Limits, f: Fields, b: Bytes)
    requires BlobAt(d, 27, l.least, l.manifest) == Some(b)
    ensures DecodeManifest(d, l, f) == DecodeManifestSignature(d, l, f.(manifest := b), 31 + |b|)
  {
    hide BlobAt, DecodeManifestSignature;
  }

  lemma ManifestSignatureStage(d: Bytes, l: Limits, f: Fields, o: nat, b: Bytes)
    requires 31 + |f.manifest| <= o && BlobAt(d, o, l.least, l.manifestSignature) == Some(b)
    ensures DecodeManifestSignature(d, l, f, o) == DecodeSignatures(d, l, f.(manifestSignature := b), o + 4 + |b|)
  {
    hide BlobAt, DecodeSignatures;
  }

  lemma SignaturesStage(d: Bytes, l: Limits, f: Fields, o: nat, s: seq<Signature>, end: nat)
    requires 31 + |f.manifest| <= o <= end && |s| <= l.signatures
    requires U32At(d, o) == Some(|s|) && SignaturesAt(d, o + 4, |s|, l) == Some((s, end))
    ensures DecodeSignatures(d, l, f, o) == DecodePayload(d, l, f.(signatures := s), end)
  {
    hide SignaturesAt, U32At, DecodePayload;
  }

  lemma PartsDecode(d: Bytes, f: Fields, l: Limits)
    requires Parts(d, f, l)
    ensures Decode(d, l) == Some(Envelope(f, d[..End1(f)]))
  {
    hide SignaturesAt, SignaturesBytes, U32At, BlobAt, DecodeManifest, DecodeManifestSignature, DecodeSignatures,
        HeaderAt;
    var f0 := Fields(f.channel, f.os, f.arch, f.version, f.created, [], [], [], []);
    var f1 := f0.(manifest := f.manifest);
    var f2 := f1.(manifestSignature := f.manifestSignature);
    ManifestStage(d, l, f0, f.manifest);
    ManifestSignatureStage(d, l, f1, End1(f), f.manifestSignature);
    SignaturesStage(d, l, f2, End2(f), f.signatures, End3(f));
    assert f == f2.(signatures := f.signatures).(payload := f.payload);
  }

  lemma SignaturePieces(d: Bytes, o: nat, s: seq<Signature>, end: nat, l: Limits)
    ensures |s| <= l.signatures && U32At(d, o) == Some(|s|) && SignaturesAt(d, o + 4, |s|, l) == Some((s, end))
       <==> |s| <= l.signatures && AllAllowed(s, l) && At(d, o, LeU32(|s| % 0x1_0000_0000))
            && At(d, o + 4, SignaturesBytes(s)) && end == o + 4 + |SignaturesBytes(s)|
  {
    hide SignaturesAt, SignaturesBytes, U32At, AllAllowed;
    if |s| <= l.signatures {
      U32Read(d, o, |s|);
      if o + 4 <= |d| {
        SignaturesRead(d, o + 4, s, end, l);
      }
    }
  }

  lemma DecodeParts(d: Bytes, l: Limits)
    requires Decode(d, l).Some?
    ensures Parts(d, Decode(d, l).value.fields, l)
  {
    hide SignaturesAt, SignaturesBytes, U32At, BlobAt, HeaderAt, AllAllowed;
    var f := Decode(d, l).value.fields;
    var end := SignaturesAt(d, End2(f) + 4, |f.signatures|, l).value.1;
    SignaturePieces(d, End2(f), f.signatures, end, l);
  }

  lemma PartsArePieces(d: Bytes, f: Fields, l: Limits)
    ensures Parts(d, f, l) <==> Allowed(f, l) && Pieces(d, f) && |d| == End3(f) + 4 + |f.payload|
  {
    hide SignaturesAt, SignaturesBytes, U32At, AllAllowed, BlobAt, Blob, HeaderAt, Header, At;
    HeaderRead(d, f, l);
    BlobRead(d, 27, f.manifest, l.least, l.manifest);
    BlobRead(d, End1(f), f.manifestSignature, l.least, l.manifestSignature);
    SignaturePieces(d, End2(f), f.signatures, End3(f), l);
    BlobRead(d, End3(f), f.payload, l.least, l.payload);
  }

  lemma PartsAreLayout(d: Bytes, f: Fields, l: Limits)
    ensures Parts(d, f, l) <==> Allowed(f, l) && d == Encode(f)
  {
    hide Parts, Allowed, Pieces, Encode, At, End3;
    PartsArePieces(d, f, l);
    LayoutAt(d, f);
    WholeAt(d, Encode(f));
  }

  /** Reading succeeds exactly on the encodings of allowed fields, and then recovers them all. */
  lemma DecodeExactly(d: Bytes, f: Fields, l: Limits)
    ensures Decode(d, l) == Some(Envelope(f, SignedRegion(f))) <==> Allowed(f, l) && d == Encode(f)
  {
    hide Decode, Parts, Allowed;
    if Decode(d, l) == Some(Envelope(f, SignedRegion(f))) {
      DecodeParts(d, l);
      PartsAreLayout(d, f, l);
    }
    if Allowed(f, l) && d == Encode(f) {
      PartsAreLayout(d, f, l);
      PartsDecode(d, f, l);
      assert d[..End1(f)] == SignedRegion(f);
    }
  }

  /** Whatever the reader accepts is the one encoding of what it returns. */
  lemma DecodedIsCanonical(d: Bytes, l: Limits)
    requires Decode(d, l).Some?
    ensures var e := Decode(d, l).value;
            Allowed(e.fields, l) && d == Encode(e.fields) && e.signedRegion == SignedRegion(e.fields)
  {
    hide Decode, Parts, Allowed;
    var f := Decode(d, l).value.fields;
    DecodeParts(d, l);
    PartsAreLayout(d, f, l);
    DecodeExactly(d, f, l);
  }

  /** Different fields never share bytes, as long as every length fits its 32 bits. */
  lemma EncodeInjective(f: Fields, g: Fields)
    requires Allowed(f, LAYOUT) && Allowed(g, LAYOUT) && Encode(f) == Encode(g)
    ensures f == g
  {
    hide Decode, Allowed, Encode;
    DecodeExactly(Encode(f), f, LAYOUT);
    DecodeExactly(Encode(g), g, LAYOUT);
  }

  // ---------- the reader as the client runs it ----------

  class Reader {
    const data: Bytes
    var offset: nat

    ghost predicate Valid()
      reads this
    {
      offset <= |data|
    }

    constructor (data: Bytes, offset: nat)
      requires offset <= |data|
      ensures this.data == data && this.offset == offset && Valid()
    {
      this.data := data;
      this.offset := offset;
    }

    method ReadU8() returns (r: Option<Byte>)
      requires Valid()
      modifies this
      ensures Valid() && r == U8At(data, old(offset))
      ensures offset == old(offset) + if r.Some? then 1 else 0
    {
      if 1 > |data| - offset {
        return None;
      }
      r := Some(data[offset]);
      offset := offset + 1;
    }

    method ReadU32() returns (r: Option<Uint32>)
      requires Valid()
      modifies this
      ensures Valid() && r == U32At(data, old(offset))
      ensures offset == old(offset) + if r.Some? then 4 else 0
    {
      if 4 > |data| - offset {
        return None;
      }
      var bytes := data[offset..offset + 4];
      offset := offset + 4;
      ValueOfFour(bytes);
      r := Some(Number(bytes[0], bytes[1], bytes[2], bytes[3]));
    }

    method ReadU64() returns (r: Option<Uint64>)
      requires Valid()
      modifies this
      ensures Valid() && r == U64At(data, old(offset))
      ensures r.Some? ==> offset == old(offset) + 8
    {
      var low := ReadU32();
      var high := ReadU32();
      if low.None? || high.None? {
        return None;
      }
      SplitU64(low.value, high.value);
      var n: int := (low.value as int) + 0x1_0000_0000 * (high.value as int);
      r := Some(n);
    }

    method ReadBytes(count: Uint32) returns (r: Option<Bytes>)
      requires Valid()
      modifies this
      ensures Valid()
      ensures r == if count > |data| - old(offset) then None else Some(data[old(offset)..old(offset) + count])
      ensures r.Some? ==> offset == old(offset) + count
    {
      if count > |data| - offset {
        return None;
      }
      r := Some(data[offset..offset + count]);
      offset := offset + count;
    }

    /** A length within its bounds and the bytes after it. */
    method ReadBlob(least: nat, cap: Uint32) returns (r: Option<Bytes>)
      requires Valid()
      modifies this
      ensures Valid() && r == BlobAt(data, old(offset), least, cap)
      ensures r.Some? ==> offset == old(offset) + 4 + |r.value|
    {
      var length := ReadU32();
      if length.None? || length.value < least || length.value > cap {
        return None;
      }
      r := ReadBytes(length.value);
    }

    method ReadHeader(l: Limits) returns (r: Option<(Byte, Byte, Byte, Uint64, Int64)>)
      requires offset == 0
      modifies this
      ensures Valid() && r == HeaderAt(data, l)
      ensures r.Some? ==> offset == 27
    {
      if |data| < 4 || data[..4] != MAGIC {
        return None;
      }
      offset := 4;
      var format := ReadU32();
      if format != Some(FORMAT) {
        return None;
      }
      var channel := ReadU8();
      if channel.None? || channel.value > l.channel {
        return None;
      }
      var os := ReadU8();
      if os.None? || os.value > l.os {
        return None;
      }
      var arch := ReadU8();
      if arch.None? || arch.value > l.arch {
        return None;
      }
      var version := ReadU64();
      if version.None? {
        return None;
      }
      var created := ReadU64();
      if created.None? {
        return None;
      }
      r := Some((channel.value, os.value, arch.value, version.value, ToSigned(created.value)));
    }

    method ReadSignatures(count: nat, l: Limits) returns (r: Option<seq<Signature>>)
      requires Valid()
      modifies this
      ensures Valid()
      ensures r.None? ==> SignaturesAt(data, old(offset), count, l).None?
      ensures r.Some? ==> SignaturesAt(data, old(offset), count, l) == Some((r.value, offset))
    {
      hide BlobAt;
      var list: seq<Signature> := [];
      var i := 0;
      PrependedNothing(SignaturesAt(data, offset, count, l));
      while i != count
        invariant i <= count && Valid() && old(offset) <= offset
        invariant SignaturesAt(data, old(offset), count, l) == Prepended(list, SignaturesAt(data, offset, count - i, l))
      {
        ghost var start := offset;
        var keyId := ReadBlob(l.least, l.keyId);
        if keyId.None? {
          return None;
        }
        var bytes := ReadBlob(l.least, l.signature);
        if bytes.None? {
          return None;
        }
        i := i + 1;
        ghost var rest := SignaturesAt(data, offset, count - i, l);
        var next := Signature(keyId.value, bytes.value);
        assert SignaturesAt(data, start, count - i + 1, l) == Prepended([next], rest);
        PrependedTwice(list, next, rest);
        list := list + [next];
      }
      assert list + [] == list;
      r := Some(list);
    }
  }

  ghost function Prepended(s: seq<Signature>, r: Option<(seq<Signature>, nat)>): Option<(seq<Signature>, nat)> {
    if r.None? then None else Some((s + r.value.0, r.value.1))
  }

  lemma PrependedNothing(r: Option<(seq<Signature>, nat)>)
    ensures Prepended([], r) == r
  {
    if r.Some? {
      assert [] + r.value.0 == r.value.0;
    }
  }

  lemma PrependedTwice(s: seq<Signature>, next: Signature, r: Option<(seq<Signature>, nat)>)
    ensures Prepended(s, Prepended([next], r)) == Prepended(s + [next], r)
  {
    if r.Some? {
      assert s + ([next] + r.value.0) == s + [next] + r.value.0;
    }
  }

  /** The fields after the manifest. */
  method ParseRest(reader: Reader, l: Limits, f: Fields) returns (r: Option<Fields>)
    requires reader.Valid() && reader.offset == 31 + |f.manifest|
    modifies reader
    ensures r == match DecodeManifestSignature(reader.data, l, f, old(reader.offset))
                 case None => None
                 case Some(e) => Some(e.fields)
  {
    hide BlobAt, SignaturesAt, U32At;
    var manifestSignature := reader.ReadBlob(l.least, l.manifestSignature);
    if manifestSignature.None? {
      return None;
    }
    var count := reader.ReadU32();
    if count.None? || count.value > l.signatures {
      return None;
    }
    var signatures := reader.ReadSignatures(count.value, l);
    if signatures.None? {
      return None;
    }
    var payload := reader.ReadBlob(l.least, l.payload);
    if payload.None? || reader.offset != |reader.data| {
      return None;
    }
    r := Some(f.(manifestSignature := manifestSignature.value, signatures := signatures.value,
                 payload := payload.value));
  }

  method ParseEnvelope(data: Bytes) returns (r: Option<Envelope>)
    ensures r == Decode(data, CLIENT)
    ensures r.Some? ==> data == Encode(r.value.fields) && r.value.signedRegion == SignedRegion(r.value.fields)
  {
    hide BlobAt, HeaderAt, Encode;
    if Decode(data, CLIENT).Some? {
      DecodedIsCanonical(data, CLIENT);
    }
    var reader := new Reader(data, 0);
    var header := reader.ReadHeader(CLIENT);
    if header.None? {
      return None;
    }
    var (channel, os, arch, version, created) := header.value;
    var manifest := reader.ReadBlob(CLIENT.least, CLIENT.manifest);
    if manifest.None? {
      return None;
    }
    var signedRegion := data[..reader.offset];
    var fields := ParseRest(reader, CLIENT, Fields(channel, os, arch, version, created, manifest.value, [], [], []));
    if fields.None? {
      return None;
    }
    r := Some(Envelope(fields.value, signedRegion));
  }

  // ---------- embedding signatures ----------

  /** What EmbedV2Signatures asks of a file: it parses, has no signatures, and is of the channel named, if one is. */
  predicate Embeddable(data: Bytes, channel: Option<Byte>) {
    match Decode(data, CLIENT)
    case None => false
    case Some(e) => e.fields.signatures == [] && (channel.Some? ==> channel.value == e.fields.channel)
  }

  /**
    EmbedV2Signatures, once keys and files are read: parse an unsigned envelope, build it again with signatures, and
    give it out if the client's own verification, a choice of the environment here, takes it.
   */
  method EmbedSignatures(data: Bytes, channel: Option<Byte>, signatures: seq<Signature>, verifies: Bytes -> bool)
    returns (r: Option<Bytes>)
    ensures Embeddable(data, channel) && signatures != [] ==>
              var result := Encode(Decode(data, CLIENT).value.fields.(signatures := signatures));
              r == if verifies(result) then Some(result) else None
    ensures !Embeddable(data, channel) || signatures == [] ==> r == None
  {
    var parsed := ParseEnvelope(data);
    if parsed.None? { return None; }
    var envelope := parsed.value.fields;
    if envelope.signatures != [] { return None; }
    if channel.Some? && channel.value != envelope.channel { return None; }
    if signatures == [] { return None; }
    var result := BuildV2Envelope(envelope.(signatures := signatures));
    if !verifies(result) { return None; }
    r := Some(result);
  }

  /**
    Embedding changes only the decoded signature list: the signed region stays, and with it what the
    signatures were made over. The client accepts the result exactly when the signatures respect its caps.
   */
  lemma EmbeddingKeepsTheRest(data: Bytes, signatures: seq<Signature>)
    requires Decode(data, CLIENT).Some?
    ensures var e := Decode(data, CLIENT).value;
            (Decode(Encode(e.fields.(signatures := signatures)), CLIENT)
               == Some(Envelope(e.fields.(signatures := signatures), e.signedRegion)))
            <==> |signatures| <= CLIENT.signatures && AllAllowed(signatures, CLIENT)
  {
    hide Decode, Encode;
    var e := Decode(data, CLIENT).value;
    var f := e.fields.(signatures := signatures);
    DecodedIsCanonical(data, CLIENT);
    assert SignedRegion(f) == SignedRegion(e.fields);
    DecodeExactly(Encode(f), f, CLIENT);
  }
}
