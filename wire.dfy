/** Shared wire vocabulary of the DHCPv6 option codec: octets, 16-bit
    big-endian fields, the optional/result wrappers and the error values the
    decoders report. */
module Wire {

  /** An octet on the wire. */
  type uint8 = x: int | 0 <= x < 0x100

  /** A 16-bit unsigned field (option codes, lengths, DUID types, hardware types). */
  type uint16 = x: int | 0 <= x < 0x1_0000

  datatype Option<+T> = None | Some(value: T)

  datatype Result<+T> = Ok(value: T) | Err(error: Error)

  /** The error values of the codec. `BufferTooShort` is the single sentinel of
      the cursor buffer for every read past the end, whatever the shortfall. */
  datatype Error =
    | BufferTooShort
    | UnreadBytes                    // fixed-layout decode left bytes behind
    | UnknownDUIDType(duidType: uint16)
    | MalformedLabels                // the label codec could not consume its input

  /** Big-endian encoding of a 16-bit field. */
  function BE16(v: uint16): (r: seq<uint8>)
    ensures |r| == 2
  {
    [v / 0x100, v % 0x100]
  }

  /** Big-endian decoding of the two octets `hi`, `lo`. */
  function FromBE16(hi: uint8, lo: uint8): uint16
  {
    hi * 0x100 + lo
  }

  lemma BE16RoundTrip(v: uint16)
    ensures FromBE16(BE16(v)[0], BE16(v)[1]) == v
  {
  }

  lemma BE16Inverse(hi: uint8, lo: uint8)
    ensures BE16(FromBE16(hi, lo)) == [hi, lo]
  {
  }

  /** A frame header written as two 16-bit fields reads back as those fields,
      with the rest of the octets after it. */
  lemma HeaderFieldsReadBack(a: uint16, b: uint16, rest: seq<uint8>)
    ensures var s := BE16(a) + BE16(b) + rest;
      |s| == 4 + |rest| && FromBE16(s[0], s[1]) == a && FromBE16(s[2], s[3]) == b && s[4..] == rest
  {
    BE16RoundTrip(a);
    BE16RoundTrip(b);
  }

  /** Any four octets are the header their two 16-bit fields write. */
  lemma OctetsAreTheirHeader(s: seq<uint8>)
    requires |s| >= 4
    ensures s == BE16(FromBE16(s[0], s[1])) + BE16(FromBE16(s[2], s[3])) + s[4..]
  {
    BE16Inverse(s[0], s[1]);
    BE16Inverse(s[2], s[3]);
  }
}
