/** The DER encoding of an ASN.1 OCTET STRING (ITU-T X.690, sections 8.1.3
    and 8.7, with the definite shortest length form that DER rule 10.1
    demands), and a strict decoder for it. */
module Der {
  import opened Wrappers
  import opened Bytes

  /** Universal tag of OCTET STRING, primitive form. */
  const OctetStringTag: Byte := 0x04

  /** The largest length a Go `int` holds on a 64-bit platform. */
  const MaxLength: nat := 0x7FFF_FFFF_FFFF_FFFF

  /** Definite length octets: the short form below 128, otherwise 0x80 plus
      the count of the minimal big-endian bytes that follow. */
  function EncodeLength(n: nat): (r: seq<Byte>)
    requires n <= MaxLength
    ensures |r| == 1 <==> n < 0x80
    ensures 1 <= |r| <= 9
  {
    if n < 0x80 then [n]
    else
      BigEndianLength(n, 8);
      [0x80 + |BigEndian(n)|] + BigEndian(n)
  }

  /** Reads DER length octets at the head of b and returns the length and
      the number of octets they took. The indefinite form, a long form with
      a leading zero byte and a long form for a value below 128 are refused,
      since DER allows none of them. */
  function DecodeLength(b: seq<Byte>): (r: Option<(nat, nat)>)
    ensures r.Some? ==> 1 <= r.value.1 <= |b|
  {
    if |b| == 0 then None
    else if b[0] < 0x80 then Some((b[0], 1))
    else
      var k := b[0] - 0x80;
      if k == 0 || |b| < 1 + k || b[1] == 0 then None
      else
        var n := FromBigEndian(b[1..1 + k]);
        if n < 0x80 || n > MaxLength then None else Some((n, 1 + k))
  }

  lemma DecodeEncodeLength(n: nat, rest: seq<Byte>)
    requires n <= MaxLength
    ensures DecodeLength(EncodeLength(n) + rest) == Some((n, |EncodeLength(n)|))
  {
    if n >= 0x80 {
      var bs := BigEndian(n);
      var b := EncodeLength(n) + rest;
      assert b[1..1 + |bs|] == bs;
      FromBigEndianOfBigEndian(n);
    }
  }

  /** Whatever DecodeLength accepts is exactly the encoding of its result. */
  lemma EncodeDecodeLength(b: seq<Byte>)
    requires DecodeLength(b).Some?
    ensures DecodeLength(b).value.0 <= MaxLength
    ensures b[..DecodeLength(b).value.1] == EncodeLength(DecodeLength(b).value.0)
  {
    if b[0] >= 0x80 {
      var k := b[0] - 0x80;
      var bs := b[1..1 + k];
      var n := FromBigEndian(bs);
      BigEndianOfFromBigEndian(bs);
      assert BigEndian(n) == bs && |bs| == k;
      assert EncodeLength(n) == [0x80 + k] + bs;
      assert b[..1 + k] == [b[0]] + bs;
    }
  }

  /** The DER encoding of an OCTET STRING holding c. */
  function EncodeOctetString(c: seq<Byte>): (r: seq<Byte>)
    requires |c| <= MaxLength
    ensures |r| > |c| && r[0] == OctetStringTag
  {
    [OctetStringTag] + EncodeLength(|c|) + c
  }

  /** The contents of a DER OCTET STRING that spans all of b. */
  function DecodeOctetString(b: seq<Byte>): (r: Option<seq<Byte>>)
    ensures r.Some? ==> |r.value| < |b|
  {
    if |b| == 0 || b[0] != OctetStringTag then None
    else
      match DecodeLength(b[1..])
      case None => None
      case Some((n, h)) => if |b| == 1 + h + n then Some(b[1 + h..]) else None
  }

  lemma OctetStringRoundTrip(c: seq<Byte>)
    requires |c| <= MaxLength
    ensures DecodeOctetString(EncodeOctetString(c)) == Some(c)
  {
    var b := EncodeOctetString(c);
    assert b[1..] == EncodeLength(|c|) + c;
    DecodeEncodeLength(|c|, c);
    assert b[1 + |EncodeLength(|c|)|..] == c;
  }

  /** Decoding accepts only canonical encodings: re-encoding what it returns
      gives back the very bytes it read. */
  lemma OctetStringDecodeCanonical(b: seq<Byte>)
    requires DecodeOctetString(b).Some?
    ensures |DecodeOctetString(b).value| <= MaxLength
    ensures EncodeOctetString(DecodeOctetString(b).value) == b
  {
    EncodeDecodeLength(b[1..]);
    var h := DecodeLength(b[1..]).value.1;
    assert b == [b[0]] + b[1..][..h] + b[1 + h..];
  }
}
