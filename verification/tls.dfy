/** The TLS presentation-language encoding of a `SignedCertificateTimestampList`
    (section 3.3 of RFC 6962, with the vector encoding of section 4.3 of
    RFC 5246): `opaque SerializedSCT<1..2^16-1>` entries inside a vector
    `sct_list<1..2^16-1>`, each length a two-byte big-endian prefix. */
module Tls {
  import opened Wrappers
  import opened Bytes

  /** Upper bound of both vectors, 2^16 - 1. */
  const MaxVectorLength: nat := 0xFFFF

  /** Why marshalling failed; the Go code panics on each of these. */
  datatype EncodeFailure =
    | SctMarshalFailed                 // the SCT structure itself could not be serialized
    | SerializedSctLength(len: nat)    // an entry outside <1..2^16-1>
    | SctListLength(len: nat)          // the list body outside <1..2^16-1>

  predicate ValidEntry(e: seq<Byte>)
  {
    1 <= |e| <= MaxVectorLength
  }

  /** The entries one after another, each with its two-byte length; fails on
      the first entry whose length is out of bounds. */
  function EncodeEntries(es: seq<seq<Byte>>): (r: Result<seq<Byte>, EncodeFailure>)
    ensures r.Success? <==> forall i | 0 <= i < |es| :: ValidEntry(es[i])
    ensures r.Failure? ==> r.error.SerializedSctLength?
  {
    if es == [] then Success([])
    else if !ValidEntry(es[0]) then Failure(SerializedSctLength(|es[0]|))
    else
      match EncodeEntries(es[1..])
      case Failure(f) => Failure(f)
      case Success(tail) => Success(U16(|es[0]|) + es[0] + tail)
  }

  /** A failure reports the length of the first entry outside its bounds. */
  lemma {:induction false} EncodeEntriesFirstInvalid(es: seq<seq<Byte>>)
    requires EncodeEntries(es).Failure?
    ensures exists i | 0 <= i < |es| ::
      !ValidEntry(es[i]) && EncodeEntries(es).error == SerializedSctLength(|es[i]|) &&
      forall j | 0 <= j < i :: ValidEntry(es[j])
    decreases |es|
  {
    if ValidEntry(es[0]) {
      EncodeEntriesFirstInvalid(es[1..]);
      var i :| 0 <= i < |es[1..]| && !ValidEntry(es[1..][i]) &&
        EncodeEntries(es[1..]).error == SerializedSctLength(|es[1..][i]|) &&
        forall j | 0 <= j < i :: ValidEntry(es[1..][j]);
      assert forall j | 0 <= j < i + 1 :: ValidEntry(es[j]) by {
        forall j | 0 <= j < i + 1 ensures ValidEntry(es[j]) {
          if j > 0 { assert es[j] == es[1..][j - 1]; }
        }
      }
      assert es[i + 1] == es[1..][i];
    }
  }

  /** A complete `SignedCertificateTimestampList`: the entries behind a
      two-byte length of their total size. */
  function EncodeSctList(es: seq<seq<Byte>>): (r: Result<seq<Byte>, EncodeFailure>)
    ensures r.Success? ==> 3 <= |r.value| <= 2 + MaxVectorLength
  {
    match EncodeEntries(es)
    case Failure(f) => Failure(f)
    case Success(body) =>
      if 1 <= |body| <= MaxVectorLength then Success(U16(|body|) + body)
      else Failure(SctListLength(|body|))
  }

  /** Splits b into length-prefixed entries; b must be used up exactly. */
  function DecodeEntries(b: seq<Byte>): (r: Option<seq<seq<Byte>>>)
    decreases |b|
  {
    if b == [] then Some([])
    else if |b| < 2 then None
    else
      var n := FromU16(b[0], b[1]);
      if n == 0 || |b| < 2 + n then None
      else
        match DecodeEntries(b[2 + n..])
        case None => None
        case Some(rest) => Some([b[2..2 + n]] + rest)
  }

  /** Parses a `SignedCertificateTimestampList` that spans all of b. */
  function DecodeSctList(b: seq<Byte>): (r: Option<seq<seq<Byte>>>)
  {
    if |b| < 2 then None
    else
      var n := FromU16(b[0], b[1]);
      if n == 0 || |b| != 2 + n then None else DecodeEntries(b[2..])
  }

  lemma {:induction false} EntriesRoundTrip(es: seq<seq<Byte>>)
    requires EncodeEntries(es).Success?
    ensures DecodeEntries(EncodeEntries(es).value) == Some(es)
    decreases |es|
  {
    if es != [] {
      var b := EncodeEntries(es).value;
      var tail := EncodeEntries(es[1..]).value;
      var n := |es[0]|;
      assert b == U16(n) + es[0] + tail;
      assert b[2..2 + n] == es[0];
      assert b[2 + n..] == tail;
      EntriesRoundTrip(es[1..]);
      assert es == [es[0]] + es[1..];
    }
  }

  /** One valid entry in front of an encodable list. */
  lemma EncodeEntriesCons(e: seq<Byte>, es: seq<seq<Byte>>)
    requires ValidEntry(e) && EncodeEntries(es).Success?
    ensures EncodeEntries([e] + es) == Success(U16(|e|) + e + EncodeEntries(es).value)
  {
    assert ([e] + es)[0] == e && ([e] + es)[1..] == es;
  }

  /** What a successful decoding of a non-empty input consists of. */
  lemma DecodeEntriesCons(b: seq<Byte>)
    requires b != [] && DecodeEntries(b).Some?
    ensures |b| >= 2
    ensures var n := FromU16(b[0], b[1]);
      1 <= n && 2 + n <= |b| && DecodeEntries(b[2 + n..]).Some? &&
      DecodeEntries(b).value == [b[2..2 + n]] + DecodeEntries(b[2 + n..]).value
  {
  }

  /** A length-prefixed entry at the head of b, split off. */
  lemma SplitEntry(b: seq<Byte>, n: nat)
    requires 2 + n <= |b|
    ensures b == [b[0], b[1]] + b[2..2 + n] + b[2 + n..]
  {
    assert b == b[..2] + b[2..2 + n] + b[2 + n..];
  }

  lemma SplitPrefix(b: seq<Byte>)
    requires |b| >= 2
    ensures b == [b[0], b[1]] + b[2..]
  {
    assert b == b[..2] + b[2..];
  }

  lemma {:induction false} EntriesDecodeCanonical(b: seq<Byte>)
    requires DecodeEntries(b).Some?
    ensures EncodeEntries(DecodeEntries(b).value) == Success(b)
    decreases |b|
  {
    if b != [] {
      DecodeEntriesCons(b);
      var n := FromU16(b[0], b[1]);
      var rest := b[2 + n..];
      EntriesDecodeCanonical(rest);
      EncodeEntriesCons(b[2..2 + n], DecodeEntries(rest).value);
      U16OfFromU16(b[0], b[1]);
      SplitEntry(b, n);
    }
  }

  /** Any list the encoder accepts is recovered by the decoder. */
  lemma SctListRoundTrip(es: seq<seq<Byte>>)
    requires EncodeSctList(es).Success?
    ensures DecodeSctList(EncodeSctList(es).value) == Some(es)
  {
    var body := EncodeEntries(es).value;
    var b := EncodeSctList(es).value;
    assert b[2..] == body;
    EntriesRoundTrip(es);
  }

  /** Any list the decoder accepts is the encoding of what it returns. */
  lemma SctListDecodeCanonical(b: seq<Byte>)
    requires DecodeSctList(b).Some?
    ensures EncodeSctList(DecodeSctList(b).value) == Success(b)
  {
    var es := DecodeSctList(b).value;
    assert DecodeEntries(b[2..]) == Some(es);
    EntriesDecodeCanonical(b[2..]);
    U16OfFromU16(b[0], b[1]);
    SplitPrefix(b);
  }

  /** The list of one serialized SCT s: success exactly when both vectors are
      in bounds, then `u16(|s| + 2) ++ u16(|s|) ++ s`; otherwise the failure
      names the vector that is out of bounds. */
  lemma SingleSctList(s: seq<Byte>)
    ensures EncodeSctList([s]).Success? <==> 1 <= |s| <= MaxVectorLength - 2
    ensures EncodeSctList([s]).Success? ==>
      EncodeSctList([s]).value == U16(|s| + 2) + U16(|s|) + s
    ensures !ValidEntry(s) ==> EncodeSctList([s]) == Failure(SerializedSctLength(|s|))
    ensures ValidEntry(s) && |s| > MaxVectorLength - 2 ==>
      EncodeSctList([s]) == Failure(SctListLength(|s| + 2))
  {
    if ValidEntry(s) {
      assert [s][1..] == [];
      assert EncodeEntries([s]) == Success(U16(|s|) + s + []);
    }
  }
}
