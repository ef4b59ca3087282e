# DHCPv6 option codec: Client Identifier and Client FQDN

A Dafny model of the option codec slice of a Go DHCPv6 library
(`dhcpv6` package):

- the **option list decoder** (`MessageOptions.FromBytes`, `ClientID()`),
  which splits a buffer into `uint16 code | uint16 length | value` frames
  (section 21.1 of RFC 8415), decodes code 1 (Client Identifier, section 21.2
  of RFC 8415) and code 39 (Client FQDN) and keeps every other code as raw
  octets; its encoder is modelled as the function that writes the frames back;
- the **Client Identifier option** (`optClientID`) and its link-layer DUID
  (DUID-LL, section 11.4 of RFC 8415): `uint16 type = 3 | uint16 hardware
  type | address`, the address being every remaining octet;
- the **Client FQDN option** (`OptFQDN`, section 4 of RFC 4704): one flags
  octet, then a domain-name label sequence that takes the rest of the value;
- the **cursor buffer** the decoders read through (`uio`), as a class with the
  data, an offset and a sticky error: a read past the end records
  `BufferTooShort`, the first recorded error is kept, and `FinError` reports
  the recorded error (or `UnreadBytes` for leftover input). As a
  simplification, every read after an error yields a zero value and leaves
  the offset where it is.

Layout: `wire.dfy` (octets, 16-bit big-endian fields, `Option`, `Result`,
errors), `uio.dfy` (cursor), `rfc1035label.dfy` (the label codec interface),
`duid.dfy`, `option_clientid.dfy`, `option_fqdn.dfy`, `options.dfy` (frame
decoder and encoder, `MessageOptions`), `clientid_vectors.dfy` (the test
vectors of `dhcpv6/option_clientid_test.go`).

The label codec (`rfc1035label`) is not part of this model. Every member that
needs it takes a `LabelCodec` as a parameter: the domain of label sequences
its encoder is meant for (`encodable`), an encoder and a decoder. Its two
round-trip properties, `DecodeInvertsEncode` (over the encodable label
sequences) and `EncodeInvertsDecode` (what it decodes is encodable and
re-encodes to its input), and the error property `ReportsLabelErrors` (it
fails only with `MalformedLabels` or `BufferTooShort`) are explicit
hypotheses (`requires`) of the lemmas that rely on them. The root-name codec
`RootOnlyCodec` satisfies all three, so these hypotheses are consistent.

The frame decoder, `DUIDFromBytes` and `DUIDLL` are not modelled from their
implementations. The test vectors in `dhcpv6/option_clientid_test.go` fix
these points: a DUID shorter than its type tag or (for DUID-LL) its
hardware type is `BufferTooShort`, an option decoder's error is the result of
the whole decode, and a DUID-LL takes every octet after its hardware type as
the address. Four further points are modelling choices of this project, not
fixed by any vector: a header cut short (1 to 3 octets left) is
`BufferTooShort`; a frame whose value is shorter than its length field is
`BufferTooShort`; a decode that fails after earlier frames succeeded leaves
the option list empty; and a DUID type tag other than 3 is rejected with
`UnknownDUIDType`, although RFC 8415 defines types 1, 2 and 4 as well.

## Model

| member | source | states |
|---|---|---|
| `Rfc1035Label.RootOnlyCodec` | dhcpv6/option_fqdn.go:40 | a label codec for the root name alone: the empty label sequence is encodable and is written as the single terminator octet |
| `Rfc1035Label.CodecHypothesesSatisfiable` | dhcpv6/option_fqdn.go:40 | some codec with a non-empty domain meets both round trips and the error property together, so the lemmas assuming them are not vacuous |
| `Duid.DUIDToBytes` | dhcpv6/option_clientid_test.go:60-72 | the DUID-LL wire form is the 2-octet type 3, the 2-octet hardware type, then the address octets, `4 + |address|` octets in all |
| `Duid.DecodeDUID` | dhcpv6/option_clientid_test.go:60-84 | `BufferTooShort` exactly when the type tag or (for DUID-LL) the hardware type is missing; any other tag is rejected with that tag; on success the hardware type is octets 2-3 and the address is all remaining octets |
| `Duid.DecodeEncodeDUID` | dhcpv6/option_clientid_test.go:91-99 | every DUID-LL decodes back from its own encoding |
| `Duid.EncodeDecodeDUID` | dhcpv6/option_clientid_test.go:91-99 | every successfully decoded DUID re-encodes to exactly its input octets |
| `ClientIdOption.OptClientID.Empty` | dhcpv6/option_clientid_test.go:87 | the zero-valued option holds no DUID |
| `ClientIdOption.OptClientID.constructor` | dhcpv6/option_clientid_test.go:106-111 | `OptClientID(d)` holds `d` |
| `ClientIdOption.OptClientID.Code` | dhcpv6/option_clientid_test.go:105-112 | the code is always 1 (Client Identifier), whatever the option holds |
| `ClientIdOption.OptClientID.ToBytes` | dhcpv6/option_clientid_test.go:96-99 | the option value is the DUID's encoding, and it decodes back to the held DUID |
| `ClientIdOption.OptClientID.FromBytes` | dhcpv6/option_clientid_test.go:86-100 | reading through a cursor, the option ends up holding the decoded DUID with no error, or holding nothing with the decoder's error; after a success `ToBytes()` equals the input |
| `FqdnOption.AfterFlags` | dhcpv6/option_fqdn.go:39-40 | what `ReadAll` yields after the flags read: everything after the first octet, and nothing for empty input |
| `FqdnOption.FQDNToBytes` | dhcpv6/option_fqdn.go:24-28 | the value is the flags octet followed by exactly the label codec's output, so its length is one more |
| `FqdnOption.DecodeFQDN` | dhcpv6/option_fqdn.go:36-45 | succeeds exactly when there is a flags octet and the label codec accepts the rest, with flags = first octet; a label error is returned unchanged; empty input never succeeds and, when the label codec accepts no octets, is `BufferTooShort` |
| `FqdnOption.DecodeEncodeFQDN` | dhcpv6/option_fqdn.go:24-45 | decoding the encoding of flags and a name in the label codec's domain gives them back, given the label codec's round trip |
| `FqdnOption.EncodeDecodeFQDN` | dhcpv6/option_fqdn.go:24-45 | re-encoding a decoded value reproduces its input and its name is in the codec's domain, given that the label codec re-encodes what it decoded |
| `FqdnOption.DecodeFQDNErrors` | dhcpv6/option_fqdn.go:36-45 | a failed FQDN decode reports `BufferTooShort` or `MalformedLabels`, given that the label codec reports only those |
| `FqdnOption.OptFQDN.Empty` | dhcpv6/option_fqdn.go:13-16 | the zero-valued option has flags 0 and a nil name |
| `FqdnOption.OptFQDN.constructor` | dhcpv6/option_fqdn.go:13-16 | an option with the given flags and name |
| `FqdnOption.OptFQDN.Code` | dhcpv6/option_fqdn.go:19-21 | the code is always 39 (Client FQDN), whatever the fields hold |
| `FqdnOption.OptFQDN.ToBytes` | dhcpv6/option_fqdn.go:24-28 | the value is `[Flags]` followed by the label encoding of the name; its length is one more than that encoding's |
| `FqdnOption.OptFQDN.FromBytes` | dhcpv6/option_fqdn.go:36-45 | `Flags` becomes the first octet (0 for empty input) even when the decode then fails; a label error is returned unchanged and leaves a nil name; otherwise the name is set and the only error is the cursor's recorded short read of the flags octet; the result agrees with `DecodeFQDN` |
| `FqdnOption.FQDNRoundTrip` | dhcpv6/option_fqdn.go:24-45 | serialising an option and reading it into a fresh one restores its flags and name without error, for a name in the label codec's domain and given the codec's round trip |
| `Uio.Buffer.constructor` | dhcpv6/option_fqdn.go:38 | a cursor at offset 0 over the data with no error recorded |
| `Uio.Buffer.Len` | dhcpv6/option_fqdn.go:38-44 | the number of unread octets: the offset plus it is the length of the data; the frame loop runs while it is positive |
| `Uio.Buffer.Has` | dhcpv6/option_clientid_test.go:73-84 | at least `n` octets remain unread exactly when the offset plus `n` stays within the data; the DUID decoder checks this before reading the type tag |
| `Uio.Buffer.Read8` | dhcpv6/option_fqdn.go:39 | yields the next octet and advances; with no octet left (or an error recorded) yields 0, stays put and records `BufferTooShort` unless an error is already recorded |
| `Uio.Buffer.Read16` | dhcpv6/option_clientid_test.go:23-27 | yields the next two octets as a big-endian 16-bit value and advances by two; with fewer left (or an error recorded) yields 0, stays put and records `BufferTooShort` unless an error is already recorded |
| `Uio.Buffer.Consume` | dhcpv6/option_clientid_test.go:37-40 | yields exactly the next `n` octets and advances by `n`; with fewer left (or an error recorded) yields nothing, stays put and latches the error |
| `Uio.Buffer.ReadAll` | dhcpv6/option_fqdn.go:40 | yields every remaining octet and leaves none; after an error yields nothing |
| `Uio.Buffer.FinError` | dhcpv6/option_fqdn.go:44 | no error exactly when none is recorded and all input was read; a recorded error wins over leftover input |
| `Options.DhcpOption.Code` | dhcpv6/option_fqdn.go:19-21 | a Client Identifier option is framed under code 1, an FQDN option under code 39, and a raw option under its stored code |
| `Options.ValueBytes` | dhcpv6/option_fqdn.go:24-28 | each option's `ToBytes`: a Client Identifier's value is `4 + |address|` octets long and ends with its address, an FQDN option's value starts with its flags octet and is one octet longer than the label encoding, and a raw option's value is its stored octets unchanged; `DecodeOptionValue` proves each decodes back under its own code |
| `Options.Frame` | dhcpv6/option_clientid_test.go:23-29 | a frame is the 2-octet code, the 2-octet value length (cut to 16 bits), then the value: `4 + length` octets |
| `Options.EncodeOptions` | dhcpv6/option_clientid_test.go:22-31 | the list encoding is empty exactly for the empty list and holds at least a 4-octet header per option |
| `Options.DecodeOptions` | dhcpv6/option_clientid_test.go:37-40 | a successful decode yields at most one option per four input octets (each frame has a 4-octet header) |
| `Options.DecodeOption` | dhcpv6/option_clientid_test.go:37-40 | code 1 succeeds or fails as the DUID decoder does, with its error, and on success holds the decoded DUID; code 39 likewise with the FQDN decoder and its decoded value; any other code is kept as raw octets under that code |
| `Options.ParseOption` | dhcpv6/option_clientid_test.go:43-44 | dispatching a frame to a fresh option object and calling its `FromBytes` gives exactly `DecodeOption` |
| `Options.GetOne` | dhcpv6/option_clientid_test.go:47 | none exactly when no option has the code; otherwise the first option with that code |
| `Options.ClientIDOf` | dhcpv6/option_clientid_test.go:47 | the DUID of the first code-1 option when it is a Client Identifier, otherwise none |
| `Options.MessageOptions.constructor` | dhcpv6/option_clientid_test.go:43 | an empty option list |
| `Options.MessageOptions.ClientID` | dhcpv6/option_clientid_test.go:47 | the client identifier of the current list |
| `Options.ReadFrame` | dhcpv6/option_clientid_test.go:37-40 | reading a frame through the cursor either records `BufferTooShort` because no whole header or value remains, or consumes exactly the frame of the returned code and value |
| `Options.MessageOptions.FromBytes` | dhcpv6/option_clientid_test.go:43-49 | reading frames through a cursor, the list becomes the decoded options with no error, or becomes empty with the decode's error (no client identifier is left behind) |
| `Options.DecodeOptionValue` | dhcpv6/option_clientid_test.go:22-31 | each well-formed option decodes back from its own value octets under its own code |
| `Options.FrameOf` | dhcpv6/option_clientid_test.go:23-25 | a well-formed option's frame is its code and its value's exact length as the two header fields, then the value |
| `Options.DecodeFrameThen` | dhcpv6/option_clientid_test.go:37-40 | a list whose first frame is complete runs that frame's decoder first: its error is the list's error, otherwise its option heads whatever the rest decodes to |
| `Options.DecodeFrameOf` | dhcpv6/option_clientid_test.go:22-31 | a well-formed option's frame followed by any octets decodes to that option in front of what those octets decode to |
| `Options.HeaderSplit` | dhcpv6/option_clientid_test.go:37-40 | octets whose header fields are a code and a length `n`, with `n` octets after the header, are that header, the `n` value octets and the rest |
| `Options.DecodeEncodeCons` | dhcpv6/option_clientid_test.go:22-31 | a well-formed option in front of a list that survives encode-then-decode makes a list that survives it too |
| `Options.DecodeEncodeOptions` | dhcpv6/option_clientid_test.go:22-31 | decoding an encoded list of well-formed options (each value under 65536 octets, no raw option under code 1 or 39, every FQDN name in the label codec's domain) gives the list back |
| `Options.EncodeDecodeOption` | dhcpv6/option_clientid_test.go:91-99 | a decoded option value is well-formed and is written back as the same octets |
| `Options.HeaderFrame` | dhcpv6/option_clientid_test.go:23-25 | octets whose header names an option's code and value length, followed by that value, start with exactly the option's frame |
| `Options.DecodedHead` | dhcpv6/option_clientid_test.go:22-31 | a list that decodes starts with the whole frame of its first option, and the rest decodes to the remaining options |
| `Options.EncodeDecodeOptions` | dhcpv6/option_clientid_test.go:22-31 | re-encoding a successfully decoded list reproduces the input octets exactly |
| `Options.DecodedOptionsWellFormed` | dhcpv6/option_clientid_test.go:22-31 | every option of a successfully decoded list is well-formed, so the list survives another encode and decode |
| `Options.TruncatedFrame` | dhcpv6/option_clientid_test.go:37-40 | every non-empty strict prefix of a well-formed option's frame decodes to `BufferTooShort`, never to another error or a result |
| `Options.GenericPassthrough` | dhcpv6/option_clientid_test.go:23-25 | a frame whose code has no decoder decodes to a raw option that is written back octet for octet |
| `Options.ClientIDErrorPropagates` | dhcpv6/option_clientid_test.go:37-40 | a Client Identifier frame whose DUID fails fails the whole list with the DUID decoder's own error, whatever follows |
| `Options.DecodeOptionsErrors` | dhcpv6/option_clientid_test.go:37-40 | a failed list decode reports `BufferTooShort`, an unknown DUID type or `MalformedLabels`, never `UnreadBytes`, given that the label codec reports only its own two errors |
| `ClientIdVectors.DUIDLLVector` | dhcpv6/option_clientid_test.go:60-72 | `00 03 00 01 00 01 02 03 04 05` decodes to DUID-LL, Ethernet, `00:01:02:03:04:05`, which encodes back to those octets |
| `ClientIdVectors.TruncatedDUIDVectors` | dhcpv6/option_clientid_test.go:73-84 | `[0]`, `[0,3,0]` and empty input are `BufferTooShort` |
| `ClientIdVectors.ClientIDFrameLayout` | dhcpv6/option_clientid_test.go:23-29 | the 14-octet vector is the header code 1, length 10, followed by the DUID-LL octets |
| `ClientIdVectors.ClientIDFrameVector` | dhcpv6/option_clientid_test.go:22-31 | the 14-octet frame decodes to one Client Identifier option holding the Ethernet DUID-LL |
| `ClientIdVectors.ClientIDFrameGetter` | dhcpv6/option_clientid_test.go:45-50 | the client identifier of that one-option list is its DUID |
| `ClientIdVectors.ClientIDFrameEncodeVector` | dhcpv6/option_clientid_test.go:22-31 | encoding that one-option list writes the 14-octet frame back |
| `ClientIdVectors.TruncatedDUIDFrameVector` | dhcpv6/option_clientid_test.go:37-40 | `00 01 00 01 00` is `BufferTooShort` |
| `ClientIdVectors.ClientIDParseAndGetter` | dhcpv6/option_clientid_test.go:16-52 | on `MessageOptions` objects, the three vectors give no error / the DUID, no error / no client ID, and `BufferTooShort` / no client ID |
| `ClientIdVectors.ClientIDFromBytesVectors` | dhcpv6/option_clientid_test.go:54-103 | on an `optClientID` object, the DUID-LL vector fills the option with the Ethernet DUID-LL and serialises back to its input, and the three short inputs are `BufferTooShort` |

## Left out

- `String()` of both options and the `DUID-LL{HWType=Ethernet HWAddr=…}` text: they rest on `fmt` formatting and on the option-code and hardware-type name tables, which are not part of this model.
- The internals of `rfc1035label`: it is a parameter; its round trips and its error set are hypotheses, and which label sequences are encodable (label lengths that fit one octet, no empty inner label) is the codec's own `encodable` predicate rather than a definition of this model.
- The DUID variants LLT, EN and UUID and their code: in this model their type tags (1, 2, 4) take the "unknown tag" error path, like every tag other than 3.
- The option registry beyond codes 1 and 39: every other code is kept as raw octets.
- `Options.MessageOptions.FromBytes`: octets left after the last whole frame (1 to 3 of them) are reported as `BufferTooShort`; a loop that stops when fewer than four octets remain would report them through the cursor's unread-bytes check instead, and that behaviour is not modelled.
- The cursor after an error: this model has every read after a recorded error yield a zero value (or nothing) without moving the offset; reads after a recorded error do occur (e.g. `ReadAll` after the failed hardware-type read of `[0,3,0]`, or the value read of a frame after a failed length read), but each such path ends in the recorded error, so the choice does not show in any result.
- The writing side of the cursor (`Write8`, `Write16`, `WriteBytes`, `Data`): every `ToBytes` is modelled as the concatenation it produces.
- The cursor's error wrapping (a formatted error that wraps the sentinel): errors are single values compared by equality, as `errors.Is` compares them to the sentinel.
- `ClientIdOption.OptClientID.ToBytes`, `FqdnOption.OptFQDN.ToBytes`: require a non-nil DUID / domain name, since the source would dereference the nil pointer.
- `ClientIdOption.OptClientID.FromBytes`: on failure it leaves no DUID; whether the unseen `DUIDFromBytes` leaves a partially filled DUID behind is not pinned by any test and not modelled.
- `FqdnOption.OptFQDN.FromBytes`: on a label error the name is set to nil, as the label decoder's nil result would be assigned.
- Aliasing: decoded values are copies (sequences), so sharing of the input buffer with the decoded address or raw option octets is not modelled.
