/** A single-log Certificate Transparency client: configuration checks, the
    two extensions it builds for certificates (the SCT list and the
    precertificate poison), the repackaging of a certificate chain, and the
    two submissions it makes to a log. */
module Ct {
  import opened Wrappers
  import opened Bytes
  import Der
  import Tls

  type ObjectIdentifier = seq<nat>

  /** 1.3.6.1.4.1.11129.2.4.3, the precertificate poison (section 3.1 of RFC 6962). */
  const PoisonOid: ObjectIdentifier := [1, 3, 6, 1, 4, 1, 11129, 2, 4, 3]

  /** 1.3.6.1.4.1.11129.2.4.2, the embedded SCT list (section 3.3 of RFC 6962). */
  const SctListOid: ObjectIdentifier := [1, 3, 6, 1, 4, 1, 11129, 2, 4, 2]

  /** The longest serialized SCT that fits a one-entry list: the list body
      holds the entry and its two-byte length within 2^16 - 1 bytes. */
  const MaxSerializedSct: nat := Tls.MaxVectorLength - 2

  /** Deadline of each submission, 30 seconds as a Go `time.Duration` (nanoseconds). */
  const DefaultTimeout: nat := 30_000_000_000

  const UriEmpty := "ct uri cannot be empty"
  const KeyEmpty := "ct key cannot be empty"
  const GetSctFailed := "failed to get SCT from "
  const SubmitFailed := "failed submit certificate to "

  /** A Go `error`: a plain message, or a message wrapped around a cause. */
  datatype Error = New(msg: string) | Wrapped(msg: string, cause: Error)
  {
    /** What `Error()` returns: a wrapper prints its message, ": " and then its cause. */
    function Text(): string
    {
      match this
      case New(m) => m
      case Wrapped(m, c) => m + ": " + c.Text()
    }
  }

  /** An error built by wrapping a log's error names the log: its URI follows
      the fixed message and the cause's own text ends the error text. */
  lemma WrappedErrorNamesLog(what: string, uri: string, cause: Error)
    ensures var t := Wrapped(what + uri, cause).Text();
      t[..|what|] == what && t[|what|..|what| + |uri|] == uri &&
      t[|what| + |uri|..] == ": " + cause.Text()
  {
  }

  // ---------------------------------------------------------------------
  // Configuration

  /** Where the log is: its URI and the path of the file holding its public key. */
  datatype Config = Config(uri: string, key: string)
  {
    /** The URI is checked first, so an empty URI is reported even when the
        key is empty too; both set is the only accepted configuration. */
    function Validate(): (r: Option<Error>)
      ensures r == Some(New(UriEmpty)) <==> uri == ""
      ensures r == Some(New(KeyEmpty)) <==> uri != "" && key == ""
      ensures r == None <==> uri != "" && key != ""
    {
      if uri == "" then Some(New(UriEmpty))
      else if key == "" then Some(New(KeyEmpty))
      else None
    }
  }

  // ---------------------------------------------------------------------
  // Extensions

  /** An X.509 extension: identifier, criticality and DER-encoded value. */
  datatype Extension = Extension(id: ObjectIdentifier, critical: bool, value: seq<Byte>)

  /** A log's receipt (section 3.2 of RFC 6962). The model reads only the
      timestamp (milliseconds since the epoch); the rest is carried along. */
  datatype SignedCertificateTimestamp = SignedCertificateTimestamp(
    sctVersion: Byte, logId: seq<Byte>, timestamp: nat, extensions: seq<Byte>, signature: seq<Byte>)

  /** The SCT list a relying party reads from an extension value: the OCTET
      STRING's contents parsed as a `SignedCertificateTimestampList`. */
  function DecodeSctListValue(v: seq<Byte>): Option<seq<seq<Byte>>>
  {
    match Der.DecodeOctetString(v)
    case None => None
    case Some(c) => Tls.DecodeSctList(c)
  }

  /** The SCT-list extension for one serialized SCT: the one-entry list,
      framed as a DER OCTET STRING, under the SCT-list OID, not critical.
      Marshalling fails (the Go code panics) exactly when the entry or the
      list does not fit its vector bounds. */
  function SctListExtension(serialized: seq<Byte>): (r: Result<Extension, Tls.EncodeFailure>)
    ensures r.Success? <==> 1 <= |serialized| <= MaxSerializedSct
    ensures r.Success? ==> r.value.id == SctListOid && !r.value.critical
    ensures r.Success? ==> DecodeSctListValue(r.value.value) == Some([serialized])
    ensures !Tls.ValidEntry(serialized) ==> r == Failure(Tls.SerializedSctLength(|serialized|))
    ensures Tls.ValidEntry(serialized) && |serialized| > MaxSerializedSct ==>
      r == Failure(Tls.SctListLength(|serialized| + 2))
  {
    Tls.SingleSctList(serialized);
    match Tls.EncodeSctList([serialized])
    case Failure(f) => Failure(f)
    case Success(list) =>
      Tls.SctListRoundTrip([serialized]);
      Der.OctetStringRoundTrip(list);
      Success(Extension(SctListOid, false, Der.EncodeOctetString(list)))
  }

  /** The bytes of the extension value: tag 0x04, the DER length of the
      contents, then `u16(|s| + 2) ++ u16(|s|) ++ s`. */
  lemma SctListExtensionLayout(s: seq<Byte>)
    requires 1 <= |s| <= MaxSerializedSct
    ensures SctListExtension(s).Success?
    ensures SctListExtension(s).value.value ==
      [Der.OctetStringTag] + Der.EncodeLength(|s| + 4) + U16(|s| + 2) + U16(|s|) + s
  {
    Tls.SingleSctList(s);
    var list := Tls.EncodeSctList([s]).value;
    assert SctListExtension(s).value.value == Der.EncodeOctetString(list);
    ConcatAssociative([Der.OctetStringTag] + Der.EncodeLength(|list|), U16(|s| + 2), U16(|s|), s);
  }

  /** Every value that decodes to a one-entry SCT list is the value this
      client would build for that entry: the encoding is canonical. */
  lemma SctListValueCanonical(v: seq<Byte>, s: seq<Byte>)
    requires DecodeSctListValue(v) == Some([s])
    ensures SctListExtension(s) == Success(Extension(SctListOid, false, v))
  {
    Der.OctetStringDecodeCanonical(v);
    var c := Der.DecodeOctetString(v).value;
    Tls.SctListDecodeCanonical(c);
  }

  /** What the client hands back from a precertificate submission: the log's
      URI and its receipt. */
  datatype SCT = SCT(logUrl: string, sct: SignedCertificateTimestamp)
  {
    /** The extension that embeds this receipt in the final certificate.
        `marshal` is the TLS serialization of the receipt, which may fail. */
    function GetExtension(marshal: SignedCertificateTimestamp -> Option<seq<Byte>>): (r: Result<Extension, Tls.EncodeFailure>)
      ensures marshal(sct).None? ==> r == Failure(Tls.SctMarshalFailed)
      ensures r.Success? <==> marshal(sct).Some? && 1 <= |marshal(sct).value| <= MaxSerializedSct
      ensures r.Success? ==>
        r.value.id == SctListOid && !r.value.critical &&
        DecodeSctListValue(r.value.value) == Some([marshal(sct).value])
    {
      match marshal(sct)
      case None => Failure(Tls.SctMarshalFailed)
      case Some(serialized) => SctListExtension(serialized)
    }
  }

  /** The parts of an X.509 certificate this client touches: its DER bytes
      and its extension list. */
  class Certificate {
    var raw: seq<Byte>
    var extensions: seq<Extension>

    constructor (raw: seq<Byte>, extensions: seq<Extension>)
      ensures this.raw == raw && this.extensions == extensions
    {
      this.raw := raw;
      this.extensions := extensions;
    }
  }

  /** Marks a certificate as a precertificate: one critical extension with
      the poison OID and an empty value goes at the end of its extension
      list, and nothing else changes. */
  method AddPoisonExtension(cert: Certificate)
    modifies cert
    ensures cert.raw == old(cert.raw)
    ensures |cert.extensions| == |old(cert.extensions)| + 1
    ensures cert.extensions[..|old(cert.extensions)|] == old(cert.extensions)
    ensures var poison := cert.extensions[|old(cert.extensions)|];
      poison.id == PoisonOid && poison.critical && poison.value == []
  {
    cert.extensions := cert.extensions + [Extension(PoisonOid, true, [])];
  }

  // ---------------------------------------------------------------------
  // Chains

  /** One DER-encoded certificate as the log API takes it. */
  datatype ASN1Cert = ASN1Cert(data: seq<Byte>)

  /** chain holds, in order, the DER bytes of each certificate of certs. */
  ghost predicate RawChainOf(chain: seq<ASN1Cert>, certs: seq<Certificate>)
    reads certs
  {
    |chain| == |certs| && forall i | 0 <= i < |chain| :: chain[i].data == certs[i].raw
  }

  method ChainFromCerts(certs: seq<Certificate>) returns (chain: seq<ASN1Cert>)
    ensures RawChainOf(chain, certs)
  {
    chain := [];
    for i := 0 to |certs|
      invariant |chain| == i
      invariant forall j | 0 <= j < i :: chain[j].data == certs[j].raw
    {
      chain := chain + [ASN1Cert(certs[i].raw)];
    }
  }

  // ---------------------------------------------------------------------
  // Submissions

  /** A call received by the log: which operation, the deadline the caller
      gave it and the chain submitted. */
  datatype LogCall =
    | AddPreChainCall(timeout: nat, chain: seq<ASN1Cert>)
    | AddChainCall(timeout: nat, chain: seq<ASN1Cert>)

  /** The Merkle tree leaf of an X.509 entry (section 3.4 of RFC 6962): a
      version 1 timestamped entry of type x509_entry. Only the parts that
      vary are kept: the timestamp and the leaf certificate. */
  datatype MerkleTreeLeaf = X509Leaf(timestamp: nat, certificate: ASN1Cert)

  /** The log as the client sees it, through its two submission operations.
      Its answer to each call is a fixed but arbitrary function of the
      call's position in the history and of the call itself, so the
      behaviour of any log, real or fake, is an instance; `calls` records
      the calls received, in order. */
  class LogClient {
    var calls: seq<LogCall>
    const answer: (nat, LogCall) -> Result<SignedCertificateTimestamp, Error>

    constructor (answer: (nat, LogCall) -> Result<SignedCertificateTimestamp, Error>)
      ensures calls == [] && this.answer == answer
    {
      calls := [];
      this.answer := answer;
    }

    method AddPreChain(timeout: nat, chain: seq<ASN1Cert>) returns (r: Result<SignedCertificateTimestamp, Error>)
      modifies this
      ensures calls == old(calls) + [AddPreChainCall(timeout, chain)]
      ensures r == answer(|old(calls)|, AddPreChainCall(timeout, chain))
    {
      r := answer(|calls|, AddPreChainCall(timeout, chain));
      calls := calls + [AddPreChainCall(timeout, chain)];
    }

    method AddChain(timeout: nat, chain: seq<ASN1Cert>) returns (r: Result<SignedCertificateTimestamp, Error>)
      modifies this
      ensures calls == old(calls) + [AddChainCall(timeout, chain)]
      ensures r == answer(|old(calls)|, AddChainCall(timeout, chain))
    {
      r := answer(|calls|, AddChainCall(timeout, chain));
      calls := calls + [AddChainCall(timeout, chain)];
    }
  }

  /** A client bound to one log. */
  class ClientImpl {
    const config: Config
    const logClient: LogClient
    const timeout: nat

    constructor (config: Config, logClient: LogClient)
      ensures this.config == config && this.logClient == logClient
      ensures timeout == DefaultTimeout
    {
      this.config := config;
      this.logClient := logClient;
      timeout := DefaultTimeout;
    }

    /** Submits a precertificate chain. Exactly one call reaches the log, an
        AddPreChain with the client's deadline and the chain's DER bytes in
        order; its receipt comes back tagged with the configured URI, and its
        error comes back wrapped in a message naming that URI. */
    method GetSCTs(chain: seq<Certificate>) returns (r: Result<SCT, Error>)
      modifies logClient
      ensures |logClient.calls| == |old(logClient.calls)| + 1
      ensures logClient.calls[..|old(logClient.calls)|] == old(logClient.calls)
      ensures var call := logClient.calls[|old(logClient.calls)|];
        call.AddPreChainCall? && call.timeout == timeout && RawChainOf(call.chain, chain) &&
        match logClient.answer(|old(logClient.calls)|, call)
        case Success(sct) => r == Success(SCT(config.uri, sct))
        case Failure(e) => r == Failure(Wrapped(GetSctFailed + config.uri, e))
    {
      var ctChain := ChainFromCerts(chain);
      var sct := logClient.AddPreChain(timeout, ctChain);
      match sct
      case Failure(e) =>
        r := Failure(Wrapped(GetSctFailed + config.uri, e));
      case Success(s) =>
        r := Success(SCT(config.uri, s));
    }

    /** Submits a final chain. Exactly one call reaches the log, an AddChain
        with the client's deadline and the chain's DER bytes in order. The
        result is an error exactly when the log refused, wrapped in a message
        naming the URI; on success the leaf entry to hash (ghost `leaf`) is
        built from the first certificate and the receipt's timestamp.
        Indexing the first certificate on success is only safe when the chain
        is non-empty, hence the precondition. */
    method SubmitToLogs(chain: seq<Certificate>) returns (err: Option<Error>, ghost leaf: Option<MerkleTreeLeaf>)
      requires chain == [] ==> logClient.answer(|logClient.calls|, AddChainCall(timeout, [])).Failure?
      modifies logClient
      ensures |logClient.calls| == |old(logClient.calls)| + 1
      ensures logClient.calls[..|old(logClient.calls)|] == old(logClient.calls)
      ensures var call := logClient.calls[|old(logClient.calls)|];
        call.AddChainCall? && call.timeout == timeout && RawChainOf(call.chain, chain) &&
        match logClient.answer(|old(logClient.calls)|, call)
        case Success(sct) =>
          err == None && |chain| > 0 && leaf == Some(X509Leaf(sct.timestamp, ASN1Cert(chain[0].raw)))
        case Failure(e) =>
          err == Some(Wrapped(SubmitFailed + config.uri, e)) && leaf == None
    {
      var ctChain := ChainFromCerts(chain);
      var sct := logClient.AddChain(timeout, ctChain);
      match sct
      case Failure(e) =>
        err, leaf := Some(Wrapped(SubmitFailed + config.uri, e)), None;
      case Success(s) =>
        leaf := Some(X509Leaf(s.timestamp, ctChain[0]));
        err := None;
    }
  }
}
