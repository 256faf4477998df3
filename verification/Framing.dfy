/** The byte streams that digests and signatures absorb, and decoders that read them back. */
module Framing {
  import opened Wrappers

  type Byte = b: int | 0 <= b < 256

  // ---- Numbers -----------------------------------------------------------------------------------

  function Pow256(k: nat): (r: nat)
    ensures r >= 1
  {
    if k == 0 then 1 else 256 * Pow256(k - 1)
  }

  /** The k lowest bytes of a number, highest first. */
  function BigEndian(n: nat, k: nat): (r: seq<Byte>)
    ensures |r| == k
  {
    if k == 0 then [] else BigEndian(n / 256, k - 1) + [n % 256]
  }

  function Value(bytes: seq<Byte>): nat {
    if bytes == [] then 0 else 256 * Value(bytes[..|bytes| - 1]) + bytes[|bytes| - 1]
  }

  lemma {:induction false} ValueOfBigEndian(n: nat, k: nat)
    requires n < Pow256(k)
    ensures Value(BigEndian(n, k)) == n
  {
    if k > 0 {
      ValueOfBigEndian(n / 256, k - 1);
      assert BigEndian(n, k)[..k - 1] == BigEndian(n / 256, k - 1);
    }
  }

  const WORD: nat := 0x1_0000_0000_0000_0000

  function U64(n: nat): (r: seq<Byte>) { BigEndian(n, 8) }

  lemma U64IsReadBack(n: nat)
    requires n < WORD
    ensures |U64(n)| == 8 && Value(U64(n)) == n
  {
    assert Pow256(1) == 256 && Pow256(2) == 0x1_0000 && Pow256(3) == 0x100_0000 && Pow256(4) == 0x1_0000_0000;
    assert Pow256(5) == 0x100_0000_0000 && Pow256(6) == 0x1_0000_0000_0000 && Pow256(7) == 0x100_0000_0000_0000 &&
        Pow256(8) == WORD;
    ValueOfBigEndian(n, 8);
  }

  // ---- Length-prefixed fields ----------------------------------------------------------------------

  predicate Short(bytes: seq<Byte>) { |bytes| < WORD }

  function Field(bytes: seq<Byte>): seq<Byte> { U64(|bytes|) + bytes }

  /** One length-prefixed field and the rest of the stream. */
  function TakeField(stream: seq<Byte>): Option<(seq<Byte>, seq<Byte>)> {
    if |stream| < 8 then None
    else
      var n := Value(stream[..8]);
      if |stream| < 8 + n then None else Some((stream[8..8 + n], stream[8 + n..]))
  }

  lemma FieldIsReadBack(bytes: seq<Byte>, rest: seq<Byte>)
    requires Short(bytes)
    ensures TakeField(Field(bytes) + rest) == Some((bytes, rest))
  {
    U64IsReadBack(|bytes|);
    var prefix := U64(|bytes|);
    hide U64, Value;
    var stream := prefix + bytes + rest;
    var n := |bytes|;
    assert stream[..8] == prefix && stream[8..8 + n] == bytes && stream[8 + n..] == rest;
  }

  // ---- Contract records ------------------------------------------------------------------------------

  /** A labelled authority file: missing is not the same as empty. */
  datatype Entry = Entry(name: seq<Byte>, bytes: Option<seq<Byte>>)

  function Frame(r: Entry): seq<Byte> {
    Field(r.name) + (match r.bytes case None => [0] case Some(bytes) => [1] + Field(bytes))
  }

  function Stream(records: seq<Entry>): seq<Byte> {
    if records == [] then [] else Stream(records[..|records| - 1]) + Frame(records[|records| - 1])
  }

  predicate ShortEntry(r: Entry) { Short(r.name) && (r.bytes.Some? ==> Short(r.bytes.value)) }

  /** What a hash object absorbed so far. */
  class ContractDigest {
    var absorbed: seq<Byte>

    constructor ()
      ensures absorbed == []
    {
      absorbed := [];
    }

    method Update(bytes: seq<Byte>)
      modifies this
      ensures absorbed == old(absorbed) + bytes
    {
      absorbed := absorbed + bytes;
    }

    method Record(name: seq<Byte>, bytes: Option<seq<Byte>>)
      modifies this
      ensures absorbed == old(absorbed) + Frame(Entry(name, bytes))
    {
      hide U64;
      Update(U64(|name|));
      Update(name);
      match bytes {
        case Some(content) =>
          Update([1]);
          Update(U64(|content|));
          Update(content);
        case None =>
          Update([0]);
      }
    }

    /** All authority files in turn: the absorbed stream is the framing of the records. */
    method RecordAll(records: seq<Entry>)
      modifies this
      ensures absorbed == old(absorbed) + Stream(records)
    {
      hide Frame;
      for i := 0 to |records|
        invariant absorbed == old(absorbed) + Stream(records[..i])
      {
        assert records[..i + 1][..i] == records[..i];
        Record(records[i].name, records[i].bytes);
        assert records[i] == Entry(records[i].name, records[i].bytes);
      }
      assert records[..|records|] == records;
    }
  }

  /** The decoder: one record and the rest of the stream. */
  function TakeRecord(stream: seq<Byte>): Option<(Entry, seq<Byte>)> {
    match TakeField(stream)
    case None => None
    case Some((name, rest)) =>
      if rest == [] then None
      else if rest[0] == 0 then Some((Entry(name, None), rest[1..]))
      else if rest[0] != 1 then None
      else
        match TakeField(rest[1..])
        case None => None
        case Some((bytes, more)) => Some((Entry(name, Some(bytes)), more))
  }

  function Decode(stream: seq<Byte>): Option<seq<Entry>>
    decreases |stream|
  {
    if stream == [] then Some([])
    else
      match TakeRecord(stream)
      case None => None
      case Some((r, rest)) =>
        if |rest| >= |stream| then None
        else
          match Decode(rest)
          case None => None
          case Some(more) => Some([r] + more)
  }

  lemma FrameIsReadBack(r: Entry, rest: seq<Byte>)
    requires ShortEntry(r)
    ensures TakeRecord(Frame(r) + rest) == Some((r, rest)) && |Frame(r)| > 0
  {
    hide TakeField, Field;
    var tail := (match r.bytes case None => [0] case Some(bytes) => [1] + Field(bytes));
    assert Frame(r) + rest == Field(r.name) + (tail + rest);
    FieldIsReadBack(r.name, tail + rest);
    match r.bytes {
      case None =>
        assert (tail + rest)[0] == 0 && (tail + rest)[1..] == rest;
      case Some(bytes) =>
        assert (tail + rest)[0] == 1 && (tail + rest)[1..] == Field(bytes) + rest;
        FieldIsReadBack(bytes, rest);
    }
  }

  lemma Associate(a: seq<Byte>, b: seq<Byte>, c: seq<Byte>)
    ensures a + (b + c) == (a + b) + c
  {}

  lemma Middle<T>(s: seq<T>)
    requires |s| >= 2
    ensures s[..|s| - 1][1..] == s[1..][..|s| - 2] && s[1..][|s| - 2] == s[|s| - 1] && s[..|s| - 1][0] == s[0]
  {}

  lemma {:induction false} StreamCons(records: seq<Entry>)
    requires records != []
    ensures Stream(records) == Frame(records[0]) + Stream(records[1..])
  {
    hide Frame;
    var n := |records| - 1;
    if n == 0 {
      assert records[..0] == [] && records[1..] == [];
    } else {
      StreamCons(records[..n]);
      Middle(records);
      Associate(Frame(records[0]), Stream(records[1..][..n - 1]), Frame(records[n]));
    }
  }

  lemma DecodeStep(first: seq<Byte>, r: Entry, rest: seq<Byte>)
    requires first != [] && TakeRecord(first + rest) == Some((r, rest))
    ensures Decode(first + rest) == (match Decode(rest) case None => None case Some(more) => Some([r] + more))
  {
    hide TakeRecord;
  }

  /** The decoder is a left inverse of the framing. */
  lemma {:induction false} RecordsAreReadBack(records: seq<Entry>)
    requires forall r :: r in records ==> ShortEntry(r)
    ensures Decode(Stream(records)) == Some(records)
  {
    hide Frame, TakeRecord, ShortEntry;
    if records != [] {
      StreamCons(records);
      hide Stream, Decode;
      assert records[0] in records && forall r :: r in records[1..] ==> r in records;
      FrameIsReadBack(records[0], Stream(records[1..]));
      RecordsAreReadBack(records[1..]);
      DecodeStep(Frame(records[0]), records[0], Stream(records[1..]));
      assert records == [records[0]] + records[1..];
    }
  }

  /** Different contracts never frame to the same bytes. */
  lemma FramingIsInjective(a: seq<Entry>, b: seq<Entry>)
    requires (forall r :: r in a ==> ShortEntry(r)) && (forall r :: r in b ==> ShortEntry(r))
    requires Stream(a) == Stream(b)
    ensures a == b
  {
    RecordsAreReadBack(a);
    RecordsAreReadBack(b);
  }

  // ---- Receipt signatures ------------------------------------------------------------------------------

  datatype Subject = Subject(fields: seq<seq<Byte>>, exitCode: int)

  const FIELDS: nat := 6
  const HALF: int := 0x8000_0000

  /** Six fields, each shorter than a word, and a 32-bit exit code. */
  predicate SubjectFits(s: Subject) {
    |s.fields| == FIELDS && (forall f :: f in s.fields ==> Short(f)) && -HALF <= s.exitCode < HALF
  }

  function I32(n: int): seq<Byte>
    requires -HALF <= n < HALF
  {
    BigEndian(if n < 0 then n + 2 * HALF else n, 4)
  }

  function SignedValue(bytes: seq<Byte>): int { var n := Value(bytes); if n >= HALF then n - 2 * HALF else n }

  function Fields(fields: seq<seq<Byte>>): seq<Byte> {
    if fields == [] then [] else Field(fields[0]) + Fields(fields[1..])
  }

  function Absorbed(s: Subject): seq<Byte>
    requires SubjectFits(s)
  {
    Fields(s.fields) + I32(s.exitCode)
  }

  function TakeFields(stream: seq<Byte>, n: nat): Option<(seq<seq<Byte>>, seq<Byte>)> {
    if n == 0 then Some(([], stream))
    else
      match TakeField(stream)
      case None => None
      case Some((f, rest)) =>
        match TakeFields(rest, n - 1)
        case None => None
        case Some((more, last)) => Some(([f] + more, last))
  }

  function DecodeSubject(stream: seq<Byte>): Option<Subject> {
    match TakeFields(stream, FIELDS)
    case None => None
    case Some((fields, rest)) => if |rest| == 4 then Some(Subject(fields, SignedValue(rest))) else None
  }

  lemma {:induction false} FieldsAreReadBack(fields: seq<seq<Byte>>, rest: seq<Byte>)
    requires forall f :: f in fields ==> Short(f)
    ensures TakeFields(Fields(fields) + rest, |fields|) == Some((fields, rest))
  {
    if fields == [] {
      assert Fields(fields) + rest == rest;
    } else {
      hide TakeField, Field;
      assert fields[0] in fields && forall f :: f in fields[1..] ==> f in fields;
      Associate(Field(fields[0]), Fields(fields[1..]), rest);
      FieldIsReadBack(fields[0], Fields(fields[1..]) + rest);
      FieldsAreReadBack(fields[1..], rest);
      assert fields == [fields[0]] + fields[1..];
    }
  }

  lemma ExitCodeIsReadBack(n: int)
    requires -HALF <= n < HALF
    ensures |I32(n)| == 4 && SignedValue(I32(n)) == n
  {
    assert Pow256(1) == 256 && Pow256(2) == 0x1_0000 && Pow256(3) == 0x100_0000 && Pow256(4) == 2 * HALF;
    ValueOfBigEndian(if n < 0 then n + 2 * HALF else n, 4);
  }

  /** The decoder reads back every signed subject, so no two subjects are signed over the same bytes. */
  lemma SubjectIsReadBack(s: Subject)
    requires SubjectFits(s)
    ensures DecodeSubject(Absorbed(s)) == Some(s)
  {
    FieldsAreReadBack(s.fields, I32(s.exitCode));
    ExitCodeIsReadBack(s.exitCode);
  }

  lemma SigningIsInjective(a: Subject, b: Subject)
    requires SubjectFits(a) && SubjectFits(b) && Absorbed(a) == Absorbed(b)
    ensures a == b
  {
    SubjectIsReadBack(a);
    SubjectIsReadBack(b);
  }

  // ---- Receipt names -------------------------------------------------------------------------------------

  /** What a receipt's file name is the digest of. */
  function ReceiptIdentity(gateId: string, binding: string): string { gateId + "\0" + binding }

  lemma SeparatorIsLastZero(a: string, b: string)
    requires '\0' !in b
    ensures var s := ReceiptIdentity(a, b);
      |a| < |s| && s[|a|] == '\0' && s[..|a|] == a && s[|a| + 1..] == b && forall k :: |a| < k < |s| ==> s[k] != '\0'
  {
    var s := ReceiptIdentity(a, b);
    forall k | |a| < k < |s| ensures s[k] != '\0' { assert s[k] == b[k - |a| - 1]; }
  }

  /** A binding is a digest in hexadecimal, so it holds no zero character: the name fixes gate and binding. */
  lemma ReceiptIdentityIsInjective(a: string, b: string, a': string, b': string)
    requires '\0' !in b && '\0' !in b' && ReceiptIdentity(a, b) == ReceiptIdentity(a', b')
    ensures a == a' && b == b'
  {
    SeparatorIsLastZero(a, b);
    SeparatorIsLastZero(a', b');
    hide ReceiptIdentity;
    assert |a| == |a'|;
  }

  // ---- Keys ------------------------------------------------------------------------------------------------

  const BLOCK: nat := 64

  /** Keys longer than a block are replaced by their digest; all are filled up with zeros (section 2 of RFC 2104). */
  function NormalizedKey(key: seq<bv8>, digest: seq<bv8>): (r: seq<bv8>)
    requires |digest| == 32
    ensures |r| == BLOCK
  {
    var k := if |key| > BLOCK then digest else key;
    k + seq(BLOCK - |k|, _ => 0)
  }

  /** A key combined with one of the two constants. */
  function Pad(normalized: seq<bv8>, constant: bv8): (r: seq<bv8>)
    ensures |r| == |normalized|
    ensures forall i :: 0 <= i < |r| ==> r[i] == normalized[i] ^ constant
  {
    seq(|normalized|, i requires 0 <= i < |normalized| => normalized[i] ^ constant)
  }

  method Pads(key: seq<bv8>, digest: seq<bv8>) returns (inner: array<bv8>, outer: array<bv8>)
    requires |digest| == 32
    ensures inner[..] == Pad(NormalizedKey(key, digest), 0x36)
    ensures outer[..] == Pad(NormalizedKey(key, digest), 0x5c)
  {
    var normalized := NormalizedKey(key, digest);
    inner := new bv8[BLOCK](_ => 0x36);
    outer := new bv8[BLOCK](_ => 0x5c);
    for index := 0 to BLOCK
      invariant forall i :: 0 <= i < index ==> inner[i] == normalized[i] ^ 0x36 && outer[i] == normalized[i] ^ 0x5c
      invariant forall i :: index <= i < BLOCK ==> inner[i] == 0x36 && outer[i] == 0x5c
    {
      inner[index] := inner[index] ^ normalized[index];
      outer[index] := outer[index] ^ normalized[index];
    }
  }

  lemma XorCancels(a: bv8, b: bv8, constant: bv8)
    ensures a ^ constant == b ^ constant <==> a == b
  {
    assert (a ^ constant) ^ constant == a && (b ^ constant) ^ constant == b;
  }

  lemma PadIsInjective(x: seq<bv8>, y: seq<bv8>, constant: bv8)
    requires |x| == |y|
    ensures Pad(x, constant) == Pad(y, constant) <==> x == y
  {
    if Pad(x, constant) == Pad(y, constant) {
      forall i | 0 <= i < |x| ensures x[i] == y[i] {
        assert Pad(x, constant)[i] == Pad(y, constant)[i];
        XorCancels(x[i], y[i], constant);
      }
    }
  }

  /** Keys of at most one block share their inner pad, and likewise their outer pad, exactly when they differ in
      trailing zeros only. */
  lemma KeysAreConfusedIff(a: seq<bv8>, b: seq<bv8>, digest: seq<bv8>, other: seq<bv8>, constant: bv8)
    requires |digest| == 32 && |other| == 32 && |a| <= |b| <= BLOCK
    ensures Pad(NormalizedKey(a, digest), constant) == Pad(NormalizedKey(b, other), constant) <==>
      a == b[..|a|] && forall i :: |a| <= i < |b| ==> b[i] == 0
  {
    PadIsInjective(NormalizedKey(a, digest), NormalizedKey(b, other), constant);
    hide Pad;
    NormalizedAlikeIff(a, b, digest, other);
  }

  lemma NormalizedAlikeIff(a: seq<bv8>, b: seq<bv8>, digest: seq<bv8>, other: seq<bv8>)
    requires |digest| == 32 && |other| == 32 && |a| <= |b| <= BLOCK
    ensures NormalizedKey(a, digest) == NormalizedKey(b, other) <==>
      a == b[..|a|] && forall i :: |a| <= i < |b| ==> b[i] == 0
  {
    var x, y := NormalizedKey(a, digest), NormalizedKey(b, other);
    assert x[..|a|] == a && y[..|b|] == b;
    assert forall i :: |a| <= i < BLOCK ==> x[i] == 0;
    assert forall i :: |b| <= i < BLOCK ==> y[i] == 0;
    if x == y {
      assert b[..|a|] == y[..|a|];
      forall i | |a| <= i < |b| ensures b[i] == 0 { assert y[i] == b[i]; }
    }
    if a == b[..|a|] && forall i :: |a| <= i < |b| ==> b[i] == 0 {
      forall i | 0 <= i < BLOCK ensures x[i] == y[i] { if i < |a| { assert a[i] == b[..|a|][i]; } }
    }
  }
}
