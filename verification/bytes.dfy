/** Bytes and the two integer encodings the certificate extension uses:
    the two-byte big-endian length prefix of a TLS vector and the minimal
    big-endian form of a DER long-form length. */
module Bytes {

  type Byte = b: int | 0 <= b < 0x100

  /** 256 to the power k. */
  function Pow256(k: nat): (r: nat)
    ensures r >= 1
  {
    if k == 0 then 1 else 256 * Pow256(k - 1)
  }

  /** The value of a two-byte big-endian prefix. */
  function FromU16(hi: Byte, lo: Byte): (n: nat)
    ensures n < 0x1_0000
  {
    hi * 256 + lo
  }

  /** A 16-bit length as two big-endian bytes (a TLS `uint16`). */
  function U16(n: nat): (r: seq<Byte>)
    requires n < 0x1_0000
    ensures |r| == 2 && FromU16(r[0], r[1]) == n
  {
    [n / 256, n % 256]
  }

  lemma U16OfFromU16(hi: Byte, lo: Byte)
    ensures U16(FromU16(hi, lo)) == [hi, lo]
  {
  }

  lemma ConcatAssociative(p: seq<Byte>, a: seq<Byte>, b: seq<Byte>, c: seq<Byte>)
    ensures p + (a + b + c) == p + a + b + c
  {
  }

  /** The shortest big-endian byte string of n: empty for zero and never
      starting with a zero byte otherwise. */
  function BigEndian(n: nat): (r: seq<Byte>)
    ensures r == [] <==> n == 0
    ensures r != [] ==> r[0] != 0
    decreases n
  {
    if n == 0 then [] else BigEndian(n / 256) + [n % 256]
  }

  /** The number a big-endian byte string denotes. */
  function FromBigEndian(bs: seq<Byte>): nat
  {
    if bs == [] then 0 else FromBigEndian(bs[..|bs| - 1]) * 256 + bs[|bs| - 1]
  }

  lemma {:induction false} FromBigEndianOfBigEndian(n: nat)
    ensures FromBigEndian(BigEndian(n)) == n
    decreases n
  {
    if n > 0 {
      var bs := BigEndian(n);
      assert bs[..|bs| - 1] == BigEndian(n / 256);
      FromBigEndianOfBigEndian(n / 256);
    }
  }

  lemma {:induction false} FromBigEndianPositive(bs: seq<Byte>)
    requires bs != [] && bs[0] != 0
    ensures FromBigEndian(bs) > 0
    decreases |bs|
  {
    if |bs| > 1 {
      FromBigEndianPositive(bs[..|bs| - 1]);
    }
  }

  /** A byte string without a leading zero is the minimal form of its value. */
  lemma {:induction false} BigEndianOfFromBigEndian(bs: seq<Byte>)
    requires bs == [] || bs[0] != 0
    ensures BigEndian(FromBigEndian(bs)) == bs
    decreases |bs|
  {
    if bs != [] {
      var init := bs[..|bs| - 1];
      var n := FromBigEndian(bs);
      FromBigEndianPositive(bs);
      assert n / 256 == FromBigEndian(init) && n % 256 == bs[|bs| - 1];
      BigEndianOfFromBigEndian(init);
      assert bs == init + [bs[|bs| - 1]];
    }
  }

  /** A number below 256^k needs at most k bytes. */
  lemma {:induction false} BigEndianLength(n: nat, k: nat)
    requires n < Pow256(k)
    ensures |BigEndian(n)| <= k
    decreases k
  {
    if n > 0 {
      BigEndianLength(n / 256, k - 1);
    }
  }
}
