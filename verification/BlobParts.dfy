/**
 * A downloaded file's bytes: read from the page in base64 parts, decoded and joined at the other
 * end. Base64 is that of section 4 of RFC 4648.
 */
module BlobParts {
  import opened Numbers
  import opened Options

  type byte = x: int | 0 <= x < 256

  type sextet = x: int | 0 <= x < 64

  const PART := 65536
  const PIECE := 8192

  // -------------------------------------------------------------------------------- base64

  function Digit(v: sextet): char {
    if v < 26 then 'A' + v as char
    else if v < 52 then 'a' + (v - 26) as char
    else if v < 62 then '0' + (v - 52) as char
    else if v == 62 then '+' else '/'
  }

  function Value(c: char): Option<sextet> {
    if 'A' <= c <= 'Z' then Some(c as int - 'A' as int)
    else if 'a' <= c <= 'z' then Some(c as int - 'a' as int + 26)
    else if '0' <= c <= '9' then Some(c as int - '0' as int + 52)
    else if c == '+' then Some(62)
    else if c == '/' then Some(63)
    else None
  }

  lemma ValueOfDigit(v: sextet)
    ensures Value(Digit(v)) == Some(v) && Digit(v) != '='
  {
  }

  /** One to three bytes as four characters. */
  function Group(b: seq<byte>): (r: string)
    requires 1 <= |b| <= 3
    ensures |r| == 4
  {
    var b1, b2 := if |b| > 1 then b[1] else 0, if |b| > 2 then b[2] else 0;
    [Digit(b[0] / 4), Digit(b[0] % 4 * 16 + b1 / 16),
     if |b| > 1 then Digit(b1 % 16 * 4 + b2 / 64) else '=',
     if |b| > 2 then Digit(b2 % 64) else '=']
  }

  /** btoa */
  function Encode(b: seq<byte>): string {
    if b == [] then "" else if |b| <= 3 then Group(b) else Group(b[..3]) + Encode(b[3..])
  }

  /** Four characters back to bytes; padding only where it may end the text. */
  function Ungroup(s: string, last: bool): Option<seq<byte>>
    requires |s| == 4
  {
    var v0, v1, v2, v3 := Value(s[0]), Value(s[1]), Value(s[2]), Value(s[3]);
    if v0.None? || v1.None? then None
    else if last && s[2..] == "==" then Some([v0.value * 4 + v1.value / 16])
    else if v2.None? then None
    else if last && s[3] == '=' then Some([v0.value * 4 + v1.value / 16, v1.value % 16 * 16 + v2.value / 4])
    else if v3.None? then None
    else Some([v0.value * 4 + v1.value / 16, v1.value % 16 * 16 + v2.value / 4, v2.value % 4 * 64 + v3.value])
  }

  /** b64decode with validation */
  function Decode(s: string): Option<seq<byte>> {
    if s == "" then Some([])
    else if |s| < 4 then None
    else
      var head := Ungroup(s[..4], |s| == 4);
      var tail := Decode(s[4..]);
      if head.None? || tail.None? then None else Some(head.value + tail.value)
  }

  lemma Recombine(b0: byte, b1: byte, b2: byte)
    ensures b0 / 4 * 4 + (b0 % 4 * 16 + b1 / 16) / 16 == b0
    ensures (b0 % 4 * 16 + b1 / 16) % 16 * 16 + (b1 % 16 * 4 + b2 / 64) / 4 == b1
    ensures (b1 % 16 * 4 + b2 / 64) % 4 * 64 + b2 % 64 == b2
  {
  }

  lemma UngroupOne(b0: byte)
    ensures Ungroup(Group([b0]), true) == Some([b0])
  {
    Recombine(b0, 0, 0);
    ValueOfDigit(b0 / 4);
    ValueOfDigit(b0 % 4 * 16);
    assert Group([b0])[2..] == "==";
  }

  lemma UngroupTwo(b0: byte, b1: byte)
    ensures Ungroup(Group([b0, b1]), true) == Some([b0, b1])
  {
    Recombine(b0, b1, 0);
    ValueOfDigit(b0 / 4);
    ValueOfDigit(b0 % 4 * 16 + b1 / 16);
    ValueOfDigit(b1 % 16 * 4);
    var s := Group([b0, b1]);
    assert s == [Digit(b0 / 4), Digit(b0 % 4 * 16 + b1 / 16), Digit(b1 % 16 * 4), '='];
    assert s[2..][0] == s[2] != '=';
  }

  lemma UngroupThree(b0: byte, b1: byte, b2: byte, last: bool)
    ensures Ungroup(Group([b0, b1, b2]), last) == Some([b0, b1, b2])
  {
    Recombine(b0, b1, b2);
    ValueOfDigit(b0 / 4);
    ValueOfDigit(b0 % 4 * 16 + b1 / 16);
    ValueOfDigit(b1 % 16 * 4 + b2 / 64);
    ValueOfDigit(b2 % 64);
    var s := Group([b0, b1, b2]);
    assert s == [Digit(b0 / 4), Digit(b0 % 4 * 16 + b1 / 16), Digit(b1 % 16 * 4 + b2 / 64), Digit(b2 % 64)];
    assert s[2..][0] == s[2] != '=';
  }

  /** A group read back gives its bytes; a short group only where the text ends. */
  lemma UngroupOfGroup(b: seq<byte>, last: bool)
    requires 1 <= |b| <= 3 && (|b| == 3 || last)
    ensures Ungroup(Group(b), last) == Some(b)
  {
    if |b| == 1 {
      UngroupOne(b[0]);
      assert b == [b[0]];
    } else if |b| == 2 {
      UngroupTwo(b[0], b[1]);
      assert b == [b[0], b[1]];
    } else {
      UngroupThree(b[0], b[1], b[2], last);
      assert b == [b[0], b[1], b[2]];
    }
  }

  lemma {:induction false} DecodeOfEncode(b: seq<byte>)
    ensures Decode(Encode(b)) == Some(b)
  {
    if b != [] {
      if |b| <= 3 {
        UngroupOfGroup(b, true);
        assert Group(b)[..4] == Group(b) && Group(b)[4..] == "";
        assert b + [] == b;
      } else {
        var s := Encode(b);
        assert s[..4] == Group(b[..3]) && s[4..] == Encode(b[3..]);
        DecodeOfEncode(b[3..]);
        EncodeNotEmpty(b[3..]);
        UngroupOfGroup(b[..3], false);
        assert b == b[..3] + b[3..];
      }
    }
  }

  lemma EncodeNotEmpty(b: seq<byte>)
    requires b != []
    ensures |Encode(b)| >= 4
  {
  }

  // ------------------------------------------------------------------------ reading in parts

  /** The page-side reader: a slice of the Blob, turned into a binary string piece by piece. */
  method ReadBlobPart(blob: seq<byte>, offset: nat, length: nat) returns (data: string)
    requires offset + length <= |blob|
    ensures data == Encode(blob[offset..offset + length])
  {
    var bytes := blob[offset..offset + length];
    var binary: seq<byte> := [];
    var i := 0;
    while i < |bytes|
      invariant 0 <= i && binary == bytes[..Min(i, |bytes|)]
    {
      var end := Min(i + PIECE, |bytes|);
      assert bytes[..i] + bytes[i..end] == bytes[..end];
      binary := binary + bytes[i..end];
      i := i + PIECE;
    }
    assert binary == bytes;
    data := Encode(binary);
  }

  function PartOf(blob: seq<byte>, i: nat): seq<byte>
    requires i * PART <= |blob|
  {
    blob[i * PART..Min(i * PART + PART, |blob|)]
  }

  /** The parts are those of the blob, in order, each in base64. */
  predicate AreParts(blob: seq<byte>, parts: seq<string>) {
    forall i :: 0 <= i < |parts| ==>
        i * PART < |blob| && Decode(parts[i]) == Some(PartOf(blob, i)) && 1 <= |PartOf(blob, i)| <= PART
  }

  lemma PartAdded(blob: seq<byte>, parts: seq<string>, data: string)
    requires AreParts(blob, parts) && |parts| * PART < |blob| && data == Encode(PartOf(blob, |parts|))
    ensures AreParts(blob, parts + [data])
  {
    DecodeOfEncode(PartOf(blob, |parts|));
  }

  /** The loop over a Blob's parts. */
  method ReadParts(blob: seq<byte>) returns (parts: seq<string>)
    ensures |parts| == (|blob| + PART - 1) / PART
    ensures AreParts(blob, parts)
    ensures Receive(parts, |blob|) == Some(blob)
  {
    parts := [];
    var offset := 0;
    while offset < |blob|
      invariant offset == |parts| * PART && offset < |blob| + PART
      invariant AreParts(blob, parts)
    {
      var data := ReadBlobPart(blob, offset, Min(PART, |blob| - offset));
      PartAdded(blob, parts, data);
      parts := parts + [data];
      offset := offset + PART;
    }
    AllPartsJoin(blob, parts);
  }

  // ------------------------------------------------------------------------- the other end

  /** Every part decoded, and joined. */
  function DecodeAll(parts: seq<string>): Option<seq<byte>> {
    if parts == [] then Some([])
    else
      var before, last := DecodeAll(parts[..|parts| - 1]), Decode(parts[|parts| - 1]);
      if before.None? || last.None? then None else Some(before.value + last.value)
  }

  lemma DecodeAllAppend(parts: seq<string>, s: string)
    requires DecodeAll(parts).Some? && Decode(s).Some?
    ensures DecodeAll(parts + [s]) == Some(DecodeAll(parts).value + Decode(s).value)
  {
    assert (parts + [s])[..|parts|] == parts;
  }

  /** The file's bytes, or nothing when a part is no base64 or the count is not the declared one. */
  function Receive(parts: seq<string>, bytes: nat): Option<seq<byte>> {
    var all := DecodeAll(parts);
    if all.Some? && |all.value| == bytes then all else None
  }

  lemma {:induction false} PartsJoin(blob: seq<byte>, parts: seq<string>, k: nat)
    requires AreParts(blob, parts) && k <= |parts|
    ensures DecodeAll(parts[..k]) == Some(blob[..Min(k * PART, |blob|)])
  {
    if k != 0 {
      PartsJoin(blob, parts, k - 1);
      assert parts[..k] == parts[..k - 1] + [parts[k - 1]];
      DecodeAllAppend(parts[..k - 1], parts[k - 1]);
      assert (k - 1) * PART < |blob|;
      assert blob[..(k - 1) * PART] + PartOf(blob, k - 1) == blob[..Min(k * PART, |blob|)];
    }
  }

  /** All parts of a blob are received as the blob. */
  lemma AllPartsJoin(blob: seq<byte>, parts: seq<string>)
    requires AreParts(blob, parts) && |parts| * PART >= |blob|
    ensures Receive(parts, |blob|) == Some(blob)
  {
    PartsJoin(blob, parts, |parts|);
    assert parts[..|parts|] == parts && blob[..|blob|] == blob;
  }

  /** A transfer cut short is refused: no proper prefix of a blob's parts is received. */
  lemma MissingPartRefused(blob: seq<byte>, parts: seq<string>, k: nat)
    requires AreParts(blob, parts) && k < |parts|
    ensures Receive(parts[..k], |blob|) == None
  {
    PartsJoin(blob, parts, k);
    assert k * PART < |blob|;
  }
}
