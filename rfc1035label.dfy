/** The domain-name label codec (RFC 1035 label sequences) as the FQDN option
    sees it: an encoder and a decoder, nothing more.

    Its internals are not part of this model. Every member that needs the
    codec takes it as a parameter, and the two round-trip properties the
    option-level proofs rely on are named here as predicates and appear as
    explicit hypotheses of the lemmas that use them. */
module Rfc1035Label {
  import opened Wire

  /** A domain name as its sequence of labels. */
  type Labels = seq<string>

  /** The codec: `encodable` is the domain its encoder is meant for (label
      lengths that fit the one-octet length field, no empty inner label), and
      `toBytes`/`fromBytes` are its two directions. */
  datatype LabelCodec = LabelCodec(
    encodable: Labels -> bool,
    toBytes: Labels -> seq<uint8>,
    fromBytes: seq<uint8> -> Result<Labels>)

  /** Decoding what the codec encoded gives back the same labels, for every
      label sequence in its domain. */
  ghost predicate DecodeInvertsEncode(c: LabelCodec)
  {
    forall l: Labels | c.encodable(l) :: c.fromBytes(c.toBytes(l)) == Ok(l)
  }

  /** What the codec decodes lies in its domain, and encoding it gives back
      the same octets (the codec consumes exactly its input and never
      compresses). */
  ghost predicate EncodeInvertsDecode(c: LabelCodec)
  {
    forall b: seq<uint8> | c.fromBytes(b).Ok? ::
      c.encodable(c.fromBytes(b).value) && c.toBytes(c.fromBytes(b).value) == b
  }

  /** The codec fails only with a malformed label sequence or a label that
      runs past the end of its input. */
  ghost predicate ReportsLabelErrors(c: LabelCodec)
  {
    forall b: seq<uint8> | c.fromBytes(b).Err? ::
      c.fromBytes(b).error == MalformedLabels || c.fromBytes(b).error == BufferTooShort
  }

  /** The codec of the root name alone: the single empty label sequence,
      written as the zero-length terminator octet. */
  function RootOnlyCodec(): (c: LabelCodec)
    ensures c.encodable([]) && c.toBytes([]) == [0]
  {
    LabelCodec(
      l => l == [],
      l => [0],
      b => if b == [0] then Ok([]) else Err(MalformedLabels))
  }

  /** The three codec hypotheses hold together for a codec whose domain is
      not empty, so the lemmas that assume them are not vacuous. */
  lemma CodecHypothesesSatisfiable()
    ensures exists c: LabelCodec ::
      DecodeInvertsEncode(c) && EncodeInvertsDecode(c) && ReportsLabelErrors(c) && c.encodable([])
  {
    var c := RootOnlyCodec();
    assert DecodeInvertsEncode(c);
    assert EncodeInvertsDecode(c);
    assert ReportsLabelErrors(c);
  }
}
