/** Bytes, fixed-width little-endian integers and the bitwise folds shared by both codecs. */
module Bytes {
  type Byte = b: int | 0 <= b < 256
  type U16 = n: int | 0 <= n < 0x1_0000
  type U32 = n: int | 0 <= n < 0x1_0000_0000

  datatype Option<+T> = None | Some(value: T)

  function WriteU16(n: U16): (r: seq<Byte>)
    ensures |r| == 2
  {
    [n % 256, n / 256]
  }

  function ReadU16(s: seq<Byte>): (n: U16)
    requires |s| == 2
  {
    var b0: int, b1: int := s[0], s[1];
    b0 + 256 * b1
  }

  function WriteU32(n: U32): (r: seq<Byte>)
    ensures |r| == 4
  {
    var high := n / 0x1_0000;
    WriteU16(n % 0x1_0000) + WriteU16(high)
  }

  function ReadU32(s: seq<Byte>): (n: U32)
    requires |s| == 4
  {
    var low: int, high: int := ReadU16(s[..2]), ReadU16(s[2..]);
    low + 0x1_0000 * high
  }

  lemma ReadAfterWriteU32(n: U32)
    ensures ReadU32(WriteU32(n)) == n
  {
    var s, low, high := WriteU32(n), WriteU16(n % 0x1_0000), WriteU16(n / 0x1_0000);
    assert s[..2] == low && s[2..] == high;
    assert ReadU16(low) == n % 0x1_0000 && ReadU16(high) == n / 0x1_0000;
  }

  lemma WriteAfterReadU16(s: seq<Byte>)
    requires |s| == 2
    ensures WriteU16(ReadU16(s)) == s
  {
    var b0: int, b1: int := s[0], s[1];
    assert (b0 + 256 * b1) % 256 == b0 && (b0 + 256 * b1) / 256 == b1;
  }

  lemma WriteAfterReadU32(s: seq<Byte>)
    requires |s| == 4
    ensures WriteU32(ReadU32(s)) == s
  {
    var low: int, high: int := ReadU16(s[..2]), ReadU16(s[2..]);
    WriteAfterReadU16(s[..2]);
    WriteAfterReadU16(s[2..]);
    assert (low + 0x1_0000 * high) % 0x1_0000 == low && (low + 0x1_0000 * high) / 0x1_0000 == high;
    assert s == s[..2] + s[2..];
  }

  function Differ(a: nat, b: nat): (d: nat)
    ensures d <= 1
  {
    if a % 2 == b % 2 then 0 else 1
  }

  /** Bitwise exclusive or, one binary digit at a time. */
  function XorBits(a: nat, b: nat): (r: nat)
    ensures (a < 2 && b < 2 ==> r < 2) && (a < 4 && b < 4 ==> r < 4)
    ensures (a < 8 && b < 8 ==> r < 8) && (a < 16 && b < 16 ==> r < 16)
    ensures (a < 32 && b < 32 ==> r < 32) && (a < 64 && b < 64 ==> r < 64)
    ensures (a < 128 && b < 128 ==> r < 128) && (a < 256 && b < 256 ==> r < 256)
    decreases a + b
  {
    if a == 0 && b == 0 then 0 else Differ(a, b) + 2 * XorBits(a / 2, b / 2)
  }

  /** Bitwise inclusive or, one binary digit at a time. */
  function OrBits(a: nat, b: nat): (r: nat)
    ensures (a < 2 && b < 2 ==> r < 2) && (a < 4 && b < 4 ==> r < 4)
    ensures (a < 8 && b < 8 ==> r < 8) && (a < 16 && b < 16 ==> r < 16)
    ensures (a < 32 && b < 32 ==> r < 32) && (a < 64 && b < 64 ==> r < 64)
    ensures (a < 128 && b < 128 ==> r < 128) && (a < 256 && b < 256 ==> r < 256)
    ensures r == 0 <==> a == 0 && b == 0
    decreases a + b
  {
    if a == 0 && b == 0 then 0
    else (if a % 2 == 0 && b % 2 == 0 then 0 else 1) + 2 * OrBits(a / 2, b / 2)
  }

  function Xor(a: Byte, b: Byte): Byte {
    XorBits(a, b)
  }

  /** Zero only when no bit is set on either side. */
  function Or(a: Byte, b: Byte): (r: Byte)
    ensures r == 0 <==> a == 0 && b == 0
  {
    OrBits(a, b)
  }

  lemma {:induction false} XorBitsLaws(a: nat, b: nat)
    ensures XorBits(a, b) == XorBits(b, a)
    ensures XorBits(a, 0) == a
    ensures XorBits(a, b) == 0 <==> a == b
    decreases a + b
  {
    if a + b > 0 {
      XorBitsLaws(a / 2, b / 2);
    }
  }

  lemma {:induction false} XorBitsSplit(a: nat, b: nat)
    ensures XorBits(a, b) % 2 == Differ(a, b)
    ensures XorBits(a, b) / 2 == XorBits(a / 2, b / 2)
  {
    if a != 0 || b != 0 {
      var high := XorBits(a / 2, b / 2);
      assert XorBits(a, b) == Differ(a, b) + 2 * high;
    } else {
      assert XorBits(0, 0) == 0;
    }
  }

  lemma {:induction false} XorBitsAssociative(a: nat, b: nat, c: nat)
    ensures XorBits(XorBits(a, b), c) == XorBits(a, XorBits(b, c))
    decreases a + b + c
  {
    if a + b + c > 0 {
      XorBitsAssociative(a / 2, b / 2, c / 2);
      XorBitsSplit(a, b);
      XorBitsSplit(b, c);
      XorBitsSplit(XorBits(a, b), c);
      XorBitsSplit(a, XorBits(b, c));
      SameDigits(XorBits(XorBits(a, b), c), XorBits(a, XorBits(b, c)));
    }
  }

  lemma SameDigits(x: nat, y: nat)
    requires x % 2 == y % 2 && x / 2 == y / 2
    ensures x == y
  {
  }

  lemma XorLaws(a: Byte, b: Byte)
    ensures Xor(a, b) == Xor(b, a)
    ensures Xor(a, 0) == a
    ensures Xor(a, b) == 0 <==> a == b
  {
    XorBitsLaws(a, b);
  }

  lemma XorAssociative(a: Byte, b: Byte, c: Byte)
    ensures Xor(Xor(a, b), c) == Xor(a, Xor(b, c))
  {
    XorBitsAssociative(a, b, c);
  }

  /** The running XOR of a byte sequence, the last byte folded in last. */
  function Checksum(s: seq<Byte>): Byte {
    if s == [] then 0 else Xor(Checksum(s[..|s| - 1]), s[|s| - 1])
  }

  lemma {:induction false} ChecksumConcat(s: seq<Byte>, t: seq<Byte>)
    ensures Checksum(s + t) == Xor(Checksum(s), Checksum(t))
  {
    if t == [] {
      assert s + t == s;
      XorLaws(Checksum(s), 0);
    } else {
      var n := |t| - 1;
      assert (s + t)[..|s + t| - 1] == s + t[..n];
      ChecksumConcat(s, t[..n]);
      XorAssociative(Checksum(s), Checksum(t[..n]), t[n]);
    }
  }

  /** Copies `source` into `output` from `start`. */
  method CopyInto(output: array<Byte>, start: nat, source: seq<Byte>)
    requires start + |source| <= output.Length
    modifies output
    ensures output[start..start + |source|] == source
    ensures forall i | 0 <= i < output.Length && !(start <= i < start + |source|) :: output[i] == old(output[i])
  {
    for i := 0 to |source|
      invariant output[start..start + i] == source[..i]
      invariant forall j | 0 <= j < output.Length && !(start <= j < start + i) :: output[j] == old(output[j])
    {
      output[start + i] := source[i];
    }
  }

  /** Copies `source` in behind what is already laid out. */
  method CopyNext(output: array<Byte>, offset: nat, source: seq<Byte>) returns (next: nat)
    requires offset + |source| <= output.Length
    modifies output
    ensures next == offset + |source|
    ensures output[..next] == old(output[..offset]) + source && output[next..] == old(output[next..])
  {
    CopyInto(output, offset, source);
    next := offset + |source|;
    assert output[..offset] == old(output[..offset]);
    assert output[..next] == output[..offset] + output[offset..next];
  }

  // ----- proofs -----

  /** A predicate of the form `forall k | Detail(k) :: ...` is its body. Its definition comes into a
      proof only with a term Detail(k), so that loops that merely pass it on stay cheap. */
  predicate Detail(k: nat) {
    true
  }

  // ----- sequences -----

  function Zeros(n: nat): (z: seq<Byte>)
    ensures |z| == n
  {
    seq(n, _ => 0)
  }

  lemma Regroup<T>(a: seq<T>, b: seq<T>, c: seq<T>)
    ensures a + (b + c) == a + b + c
  {
  }

  lemma PrefixAfter<T>(a: seq<T>, b: seq<T>, c: seq<T>)
    requires b <= c
    ensures a + b <= a + c
  {
  }
}
