/** Bytes and unsigned big-endian numbers, as in math/big. */
module Bytes {

  type byte = n: int | 0 <= n < 256

  /** Int.SetBytes. */
  function ValueOf(b: seq<byte>): nat {
    if b == [] then 0 else ValueOf(b[..|b| - 1]) * 256 + b[|b| - 1]
  }

  /** Int.Bytes: the shortest form, and nothing for zero. */
  function BytesOf(n: nat): (b: seq<byte>)
    ensures n > 0 ==> |b| > 0 && b[0] != 0
    ensures n == 0 ==> b == []
  {
    if n == 0 then [] else BytesOf(n / 256) + [n % 256]
  }

  function Pow256(k: nat): (p: nat)
    ensures p > 0
  {
    if k == 0 then 1 else 256 * Pow256(k - 1)
  }

  function Zeros(k: nat): (z: seq<byte>)
    ensures |z| == k
  {
    seq(k, i => 0)
  }

  /** The number in exactly k bytes. */
  function Padded(n: nat, k: nat): (b: seq<byte>)
    requires |BytesOf(n)| <= k
    ensures |b| == k
  {
    Zeros(k - |BytesOf(n)|) + BytesOf(n)
  }

  lemma {:induction false} ValueOfBytes(n: nat)
    ensures ValueOf(BytesOf(n)) == n
  {
    if n > 0 {
      ValueOfBytes(n / 256);
      assert BytesOf(n)[..|BytesOf(n)| - 1] == BytesOf(n / 256);
    }
  }

  /** A text without a leading zero byte is the shortest form of its value. */
  lemma {:induction false} BytesOfValue(b: seq<byte>)
    requires b != [] ==> b[0] != 0
    ensures BytesOf(ValueOf(b)) == b
    ensures b != [] ==> ValueOf(b) > 0
  {
    if b != [] {
      var front, last := b[..|b| - 1], b[|b| - 1];
      if front != [] { assert front[0] == b[0]; }
      BytesOfValue(front);
      LastByte(ValueOf(front), last);
      assert b == front + [last];
    }
  }

  lemma LastByte(n: nat, last: byte)
    ensures (n * 256 + last) / 256 == n && (n * 256 + last) % 256 == last
  {
  }

  lemma {:induction false} ValueBound(b: seq<byte>)
    ensures ValueOf(b) < Pow256(|b|)
  {
    if b != [] {
      ValueBound(b[..|b| - 1]);
    }
  }

  lemma {:induction false} BytesBound(n: nat, k: nat)
    ensures |BytesOf(n)| <= k <==> n < Pow256(k)
  {
    if n > 0 && k > 0 {
      BytesBound(n / 256, k - 1);
    }
  }

  lemma {:induction false} LeadingZeros(k: nat, b: seq<byte>)
    ensures ValueOf(Zeros(k) + b) == ValueOf(b)
    decreases k + |b|
  {
    var whole := Zeros(k) + b;
    if b != [] {
      assert whole[..|whole| - 1] == Zeros(k) + b[..|b| - 1];
      LeadingZeros(k, b[..|b| - 1]);
    } else if k > 0 {
      assert whole[..|whole| - 1] == Zeros(k - 1) + [];
      LeadingZeros(k - 1, []);
    }
  }

  /** Fixed-width numbers: reading what was written, and writing what was read. */
  lemma ValueOfPadded(n: nat, k: nat)
    requires n < Pow256(k)
    ensures |BytesOf(n)| <= k && ValueOf(Padded(n, k)) == n
  {
    BytesBound(n, k);
    LeadingZeros(k - |BytesOf(n)|, BytesOf(n));
    ValueOfBytes(n);
  }

  lemma {:induction false} PaddedOfValue(b: seq<byte>)
    ensures |BytesOf(ValueOf(b))| <= |b| && Padded(ValueOf(b), |b|) == b
  {
    ValueBound(b);
    BytesBound(ValueOf(b), |b|);
    if b != [] && b[0] == 0 {
      assert b == Zeros(1) + b[1..];
      LeadingZeros(1, b[1..]);
      PaddedOfValue(b[1..]);
    } else {
      BytesOfValue(b);
    }
  }
}
