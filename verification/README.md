# Certificate Transparency client, modelled in Dafny

This project models the core of a small Go package, `ct/ct.go`. The package is a client for a single Certificate Transparency (CT) log. It does the following:

- validates its configuration (the log URI and the log's key file);
- builds the X.509 extension that embeds a Signed Certificate Timestamp (SCT) in a certificate. The extension value is a one-entry `SignedCertificateTimestampList` (section 3.3 of RFC 6962) wrapped in a DER OCTET STRING (ITU-T X.690, sections 8.1.3 and 8.7);
- marks a precertificate with a critical poison extension under the OID of section 3.1 of RFC 6962, with an empty value;
- turns parsed certificates into the raw DER chain that the log API takes;
- submits a precertificate chain (`GetSCTs`) or a final chain (`SubmitToLogs`) to the log.

Files:

- `wrappers.dfy`: `Option` and `Result`.
- `bytes.dfy`: bytes, the two-byte TLS length, and the minimal big-endian form of a number.
- `tls.dfy`: the SCT-list vector encoding and a strict decoder, proved inverse to each other in both directions.
- `der.dfy`: DER length octets and the OCTET STRING, with a strict decoder, also proved inverse in both directions.
- `ct.dfy`: the package itself.
  - `Config.Validate`, `SCT.GetExtension` and `SctListExtension` are functions.
  - `Certificate` is a class whose `extensions` field `AddPoisonExtension` appends to.
  - `ChainFromCerts` is a method with a loop.
  - `ClientImpl` is a class holding the configuration, the log client and the timeout.
  - The log client is a class `LogClient` with the two operations of the Go `logClient` interface. It records every call it receives. Its answers are an arbitrary fixed function of the call's position and content, so every log that answers with a receipt or an error is an instance.

The SCT's own TLS serialization (`cttls.Marshal` of the SCT structure) is a function parameter of `GetExtension` that may fail. The Go code panics when a marshal step fails; the model returns a `Failure` that names the step. The vector bounds `<1..2^16-1>` for each serialized SCT and for the list come from section 3.3 of RFC 6962. Under those bounds, the largest serialized SCT a one-entry list can hold is 65533 bytes. The library applies these bounds through struct tags that `ct/ct.go` does not show, so the 65533-byte limit in the rows for `Ct.SctListExtension` and `Tls.SingleSctList` follows the RFC and is not checked against that library.

The Go code does not refuse an empty chain: `chainFromCerts` turns it into an empty chain and sends it to the log. `SubmitToLogs` reads `ctChain[0]` on the success path (ct/ct.go:167). So its precondition is exactly that the log refuses an empty chain, which is when the Go code does not index an empty slice.

The poison extension the code appends (ct/ct.go:91-94) leaves `Value` nil, so its value is empty. Section 3.1 of RFC 6962 asks for the extension's value to hold an ASN.1 NULL (the bytes 0x05 0x00). The model follows the code: `AddPoisonExtension` promises an empty value.

## Model

| member | source | states |
|---|---|---|
| `Ct.Config.Validate` | ct/ct.go:35-44 | An empty URI gives the "ct uri cannot be empty" error, even when the key is empty too. A non-empty URI with an empty key gives "ct key cannot be empty". The result is nil exactly when both are set. |
| `Ct.SctListExtension` | ct/ct.go:70-86 | Succeeds exactly when 1 <= \|s\| <= 65533. It then yields OID 1.3.6.1.4.1.11129.2.4.2, not critical, and a value that decodes back to the one-entry list [s]. An invalid entry (empty or over 65535 bytes) fails with its own length as an entry-length error. A valid entry over 65533 bytes fails as a list-length error of \|s\|+2. |
| `Ct.SctListExtensionLayout` | ct/ct.go:70-81 | The value is byte 0x04, then the DER shortest-form length of the contents, then u16(\|s\|+2), u16(\|s\|) and s. |
| `Ct.SctListValueCanonical` | ct/ct.go:70-81 | Every value that decodes to a one-entry SCT list [s] is exactly the extension built for s, so the encoding is canonical. |
| `Ct.SCT.GetExtension` | ct/ct.go:65-87 | Fails if marshalling the SCT fails, and otherwise exactly when the serialized SCT is out of bounds. On success the extension has the SCT-list OID, is not critical, and its value decodes to the serialized SCT (round trip). |
| `Ct.WrappedErrorNamesLog` | ct/ct.go:147-149 | A wrapped submission error's text is the fixed message, then the log URI, then ": " and the cause's text. |
| `Ct.AddPoisonExtension` | ct/ct.go:89-95 | The extension list grows by exactly one. The new last element has the poison OID 1.3.6.1.4.1.11129.2.4.3, is critical and has an empty value. Earlier extensions and the raw bytes are unchanged. |
| `Ct.ChainFromCerts` | ct/ct.go:179-185 | The chain has the same length as the input, and element i holds the raw DER bytes of certificate i. An empty input gives an empty chain. |
| `Ct.LogClient.AddPreChain` | ct/ct.go:53 | Records one AddPreChain call with its deadline and chain, and returns the log's answer to that call. |
| `Ct.LogClient.AddChain` | ct/ct.go:54 | Records one AddChain call with its deadline and chain, and returns the log's answer to that call. |
| `Ct.ClientImpl.constructor` | ct/ct.go:133-137 | The client keeps the given configuration and log client, and a 30-second timeout. |
| `Ct.ClientImpl.GetSCTs` | ct/ct.go:142-154 | The log receives exactly one call: an AddPreChain with the client's timeout and the raw chain in order. On success the result is an SCT with the configured URI and exactly the log's receipt. On failure there is no SCT, and the error wraps the log's error under "failed to get SCT from <uri>". |
| `Ct.ClientImpl.SubmitToLogs` | ct/ct.go:157-177 | The log receives exactly one call: an AddChain with the client's timeout and the raw chain in order. The result is an error exactly when that call fails; the error wraps the cause under "failed submit certificate to <uri>". On success the Merkle leaf entry is built from the first certificate and the receipt's timestamp. |
| `Tls.EncodeEntries` | ct/ct.go:70-74 | Succeeds exactly when every entry is within <1..2^16-1>. Otherwise it fails with an entry-length error. |
| `Tls.EncodeEntriesFirstInvalid` | ct/ct.go:70-74 | A failure carries the length of the first entry outside <1..2^16-1>; every entry before it is valid. |
| `Tls.SingleSctList` | ct/ct.go:70-77 | The one-entry list of s succeeds exactly when 1 <= \|s\| <= 65533, and is then u16(\|s\|+2) ++ u16(\|s\|) ++ s. An invalid entry fails as an entry-length error; an entry too long for the list fails as a list-length error of \|s\|+2. |
| `Tls.SctListRoundTrip` | ct/ct.go:70-77 | Decoding any list the encoder accepts gives back its entries. |
| `Tls.SctListDecodeCanonical` | ct/ct.go:70-77 | Re-encoding what the decoder accepts gives back the very bytes it read. |
| `Tls.EntriesRoundTrip` | ct/ct.go:70-74 | Decoding the encoded entries gives back the entries (by induction on the list). |
| `Tls.EntriesDecodeCanonical` | ct/ct.go:70-74 | Re-encoding decoded entries gives back the input bytes (by induction on the input). |
| `Der.EncodeLength` | ct/ct.go:78 | The short form (one octet) is used exactly for lengths below 128. At most 9 octets are used. |
| `Der.DecodeEncodeLength` | ct/ct.go:78 | The length octets decode to the length, whatever follows them. |
| `Der.EncodeDecodeLength` | ct/ct.go:78 | Accepted length octets are exactly the shortest encoding of the decoded length. |
| `Der.EncodeOctetString` | ct/ct.go:78 | The encoding starts with tag 0x04 and is longer than its contents. |
| `Der.OctetStringRoundTrip` | ct/ct.go:78 | Decoding an encoded OCTET STRING gives back its contents. |
| `Der.OctetStringDecodeCanonical` | ct/ct.go:78 | Re-encoding a decoded OCTET STRING gives back the very bytes read. |

## Left out

- `New` (ct/ct.go:105-138) is not modelled. It reads the key file, decodes PEM, builds the HTTP log client and probes the log with `GetSTH`, all of which are I/O and library calls. `ClientImpl.constructor` models only the struct literal it returns. In the invalid-key branch (ct/ct.go:112-113), `errors.Wrapf` is given an `err` that is nil at that point; this is not modelled either.
- The log answers each call with either a receipt or an error. A `(nil, nil)` answer, which the Go interface allows, is not modelled. On it `GetSCTs` returns an SCT that holds nil (a later `GetExtension` would panic at ct/ct.go:66), and `SubmitToLogs` panics at ct/ct.go:167.
- Contexts and their cancellation are not modelled. Each submission records only the deadline length it is given (`timeout`).
- The TLS serialization of the SCT structure is library code. It is a parameter of `SCT.GetExtension`.
- The leaf hash (`ct.LeafHashForLeaf`, SHA-256) is not modelled. Its failure is only logged, so the result of `SubmitToLogs` does not depend on it. The model exposes the leaf entry that would be hashed as a ghost out-parameter.
- `ct.CreateX509MerkleTreeLeaf` is kept only for the two parts that vary: the timestamp and the leaf certificate.
- Printing the log ID and leaf hash, and the log lines, are left out. They are diagnostic output.
- The `Client` interface (ct/ct.go:47-50) is not modelled separately. `ClientImpl` is its only implementation.
- Go's nil certificate pointers cannot occur in the model: a nil entry in the chain would make the Go loop panic.
- `ClientImpl`'s fields are `const`: the Go code never reassigns them after construction.
- Only the raw bytes and extension list of a certificate are modelled.
- The SCT timestamp is a `nat` rather than a 64-bit unsigned integer. No arithmetic is done on it.
- DER lengths are bounded by the largest Go `int` on a 64-bit platform. This matters only for the general encoder; SCT lists stay below 65538 bytes.
