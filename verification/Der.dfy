/** ECDSA signatures in DER and secp256k1 public keys (crypto/sign.go, crypto/cert.go). */
module Der {
  import opened Text
  import opened Bytes

  // ---------------------------------------------------------------- integers

  /** The content of a positive INTEGER: its bytes, after a zero byte when the first bit is set. */
  function Content(n: nat): seq<byte> {
    var b := BytesOf(n);
    if b != [] && b[0] >= 128 then [0] + b else b
  }

  /** The value of an INTEGER's content (section 8.3.3 of ITU-T X.690): two's complement. */
  function TwosComplement(content: seq<byte>): int
    requires content != []
  {
    if content[0] >= 128 then ValueOf(content) - Pow256(|content|) else ValueOf(content)
  }

  /** Section 8.3.2 of ITU-T X.690: the first nine bits are neither all zero nor all one. */
  predicate Minimal(content: seq<byte>) {
    && content != []
    && (|content| > 1 ==> !(content[0] == 0 && content[1] < 128) && !(content[0] == 255 && content[1] >= 128))
  }

  /** A DER INTEGER of this value with a length in the short form. */
  predicate IsInteger(b: seq<byte>, n: int) {
    && |b| >= 2 && b[0] == 0x02 && b[1] < 128 && b[1] == |b| - 2
    && Minimal(b[2..]) && TwosComplement(b[2..]) == n
  }

  method IntToASN1(n: nat) returns (r: seq<byte>)
    ensures r == [0x02, |Content(n)| % 256] + Content(n)
  {
    var b := BytesOf(n);
    if |b| > 0 && b[0] >= 0x80 {
      b := [0x00] + b;
    }
    r := [0x02];
    r := r + [|b| % 256];
    r := r + b;
  }

  function Integer(n: nat): seq<byte> {
    [0x02, |Content(n)| % 256] + Content(n)
  }

  lemma ContentValue(n: nat)
    requires n > 0
    ensures Minimal(Content(n)) && TwosComplement(Content(n)) == n
  {
    ValueOfBytes(n);
    assert Zeros(1) + BytesOf(n) == [0] + BytesOf(n);
    LeadingZeros(1, BytesOf(n));
  }

  /** The encoding is a DER INTEGER of the number if and only if the number is positive and its content has at most 127
      bytes. Zero gets no content byte. */
  lemma IntegerIsDer(n: nat)
    ensures IsInteger(Integer(n), n) <==> n > 0 && |Content(n)| <= 127
  {
    assert Integer(n)[2..] == Content(n);
    if n > 0 { ContentValue(n); }
  }

  lemma ContentIsUnique(content: seq<byte>, n: nat)
    requires Minimal(content) && TwosComplement(content) == n && n > 0
    ensures content == Content(n)
  {
    ValueBound(content);
    if content[0] != 0 {
      BytesOfValue(content);
    } else {
      assert content == Zeros(1) + content[1..];
      LeadingZeros(1, content[1..]);
      BytesOfValue(content[1..]);
      assert content == [0] + content[1..];
    }
  }

  /** There is no other DER INTEGER of a positive number. */
  lemma IntegerIsUnique(b: seq<byte>, n: nat)
    requires IsInteger(b, n) && n > 0
    ensures b == Integer(n)
  {
    ContentIsUnique(b[2..], n);
    hide Minimal, TwosComplement, Content;
    assert b == [b[0], b[1]] + b[2..];
  }

  // ---------------------------------------------------------------- signatures

  /** A DER SEQUENCE of two INTEGERs (section 2.2.3 of RFC 3279), with lengths in the short form. */
  ghost predicate IsSignature(b: seq<byte>, r: int, s: int) {
    && |b| >= 2 && b[0] == 0x30 && b[1] < 128 && b[1] == |b| - 2
    && exists k :: 2 <= k <= |b| && IsInteger(b[2..k], r) && IsInteger(b[k..], s)
  }

  method EncodeECDSASignatureDER(r: nat, s: nat) returns (result: seq<byte>)
    ensures result == Signature(r, s)
  {
    hide Content;
    var rBytes := IntToASN1(r);
    var sBytes := IntToASN1(s);
    var inner: seq<byte> := [];
    inner := inner + rBytes;
    inner := inner + sBytes;
    result := [0x30];
    result := result + [|inner| % 256];
    result := result + inner;
  }

  function Signature(r: nat, s: nat): seq<byte> {
    [0x30, |Integer(r) + Integer(s)| % 256] + (Integer(r) + Integer(s))
  }

  lemma ContentLength(n: nat)
    requires 0 < n < Pow256(32)
    ensures |Content(n)| <= 33
  {
    BytesBound(n, 32);
  }

  /** Main result: a signature of two numbers in the range of the curve is minimal short-form DER of at most 72 bytes,
      and it is the only encoding of the pair. */
  lemma SignatureIsDer(r: nat, s: nat)
    requires 0 < r < Pow256(32) && 0 < s < Pow256(32)
    ensures IsSignature(Signature(r, s), r, s) && |Signature(r, s)| <= 72
  {
    hide Content, Pow256, IsInteger;
    ContentLength(r);
    ContentLength(s);
    IntegerIsDer(r);
    IntegerIsDer(s);
    var b, k := Signature(r, s), 2 + |Integer(r)|;
    assert |Integer(r)| <= 35 && |Integer(s)| <= 35;
    hide Integer;
    assert b[2..k] == Integer(r) && b[k..] == Integer(s);
  }

  lemma SignatureIsUnique(b: seq<byte>, r: nat, s: nat)
    requires IsSignature(b, r, s) && r > 0 && s > 0
    ensures b == Signature(r, s)
  {
    hide IsInteger, Integer;
    var k :| 2 <= k <= |b| && IsInteger(b[2..k], r) && IsInteger(b[k..], s);
    IntegerIsUnique(b[2..k], r);
    IntegerIsUnique(b[k..], s);
    assert b == [b[0], b[1]] + (b[2..k] + b[k..]);
  }

  /** Two DER INTEGERs in a row are cut in one way only. */
  lemma CutIsUnique(b: seq<byte>, j: nat, k: nat, m: int, n: int)
    requires 2 <= j <= |b| && 2 <= k <= |b| && IsInteger(b[2..j], m) && IsInteger(b[2..k], n)
    ensures j == k && m == n
  {
    hide Minimal, TwosComplement;
    assert b[2..j][1] == b[3] == b[2..k][1];
  }

  /** Decoding is unambiguous: the bytes of a signature encode no other pair. */
  lemma SignatureDecodes(r: nat, s: nat, m: int, n: int)
    requires 0 < r < Pow256(32) && 0 < s < Pow256(32)
    ensures IsSignature(Signature(r, s), m, n) <==> m == r && n == s
  {
    hide Pow256, Signature;
    SignatureIsDer(r, s);
    if IsSignature(Signature(r, s), m, n) {
      var b := Signature(r, s);
      var j :| 2 <= j <= |b| && IsInteger(b[2..j], r) && IsInteger(b[j..], s);
      var k :| 2 <= k <= |b| && IsInteger(b[2..k], m) && IsInteger(b[k..], n);
      CutIsUnique(b, j, k, r, m);
      hide Minimal, TwosComplement;
    }
  }

  // ---------------------------------------------------------------- public keys

  datatype Point = Point(x: nat, y: nat)

  function ParsePublicKey(data: seq<byte>): Option<Point> {
    if |data| == 65 && data[0] == 0x04 then Some(Point(ValueOf(data[1..33]), ValueOf(data[33..65]))) else None
  }

  /** PublicKeyBytes: the coordinates copied to the right of their 32 bytes. */
  method PublicKeyBytes(p: Point) returns (pubKey: array<byte>)
    requires |BytesOf(p.x)| <= 32 && |BytesOf(p.y)| <= 32
    ensures fresh(pubKey) && pubKey[..] == KeyBytes(p)
  {
    hide BytesOf;
    var x, y := BytesOf(p.x), BytesOf(p.y);
    pubKey := new byte[65](_ => 0);
    pubKey[0] := 0x04;
    assert pubKey[..] == [0x04] + Zeros(64);
    Copy(pubKey, 33 - |x|, x);
    assert pubKey[..] == [0x04] + Padded(p.x, 32) + Zeros(32);
    Copy(pubKey, 65 - |y|, y);
    assert pubKey[..] == [0x04] + Padded(p.x, 32) + Padded(p.y, 32);
  }

  method Copy(a: array<byte>, at: nat, source: seq<byte>)
    requires at + |source| <= a.Length
    modifies a
    ensures a[..] == old(a[..at]) + source + old(a[at + |source|..])
  {
    for i := 0 to |source|
      invariant a[..] == old(a[..at]) + source[..i] + old(a[at + i..])
    {
      a[at + i] := source[i];
    }
  }

  function KeyBytes(p: Point): seq<byte>
    requires |BytesOf(p.x)| <= 32 && |BytesOf(p.y)| <= 32
  {
    [0x04] + Padded(p.x, 32) + Padded(p.y, 32)
  }

  /** Every 65-byte key with the prefix 0x04 comes back unchanged, and nothing else is parsed. */
  lemma KeyRoundTrips(data: seq<byte>)
    ensures ParsePublicKey(data).Some? <==> |data| == 65 && data[0] == 0x04
    ensures ParsePublicKey(data).Some? ==>
      var p := ParsePublicKey(data).value;
      |BytesOf(p.x)| <= 32 && |BytesOf(p.y)| <= 32 && KeyBytes(p) == data
  {
    if ParsePublicKey(data).Some? {
      PaddedOfValue(data[1..33]);
      PaddedOfValue(data[33..65]);
      assert data == [data[0]] + data[1..33] + data[33..65];
    }
  }

  /** Every point with coordinates below 2^256 is parsed back. */
  lemma PointRoundTrips(p: Point)
    requires p.x < Pow256(32) && p.y < Pow256(32)
    ensures |BytesOf(p.x)| <= 32 && |BytesOf(p.y)| <= 32 && ParsePublicKey(KeyBytes(p)) == Some(p)
  {
    ValueOfPadded(p.x, 32);
    ValueOfPadded(p.y, 32);
    var data := KeyBytes(p);
    assert data[1..33] == Padded(p.x, 32) && data[33..65] == Padded(p.y, 32);
  }
}
