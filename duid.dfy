/** DHCP Unique Identifiers, link-layer variant (DUID-LL, section 11.4 of
    RFC 8415): `uint16 type = 3 | uint16 hardware type | address`, where the
    address is every remaining octet and carries no length of its own. */
module Duid {
  import opened Wire

  /** The DUID type tag of DUID-LL. */
  const DUID_LL: uint16 := 3

  /** Hardware type 1 of the IANA hardware-type registry. */
  const HWTypeEthernet: uint16 := 1

  datatype DUID = DUIDLL(hwType: uint16, linkLayerAddr: seq<uint8>)

  /** The wire form of a DUID: type tag, hardware type, then the address. */
  function DUIDToBytes(d: DUID): (r: seq<uint8>)
    ensures |r| == 4 + |d.linkLayerAddr|
    ensures r[..2] == BE16(DUID_LL) && r[2..4] == BE16(d.hwType) && r[4..] == d.linkLayerAddr
  {
    BE16(DUID_LL) + BE16(d.hwType) + d.linkLayerAddr
  }

  /** The type tag of a DUID in `s`, when there are octets enough for one. */
  function TypeTag(s: seq<uint8>): uint16
    requires |s| >= 2
  {
    FromBE16(s[0], s[1])
  }

  /** Decoding a DUID: a missing type tag or hardware type is
      `BufferTooShort`; a tag other than DUID-LL is rejected; otherwise the
      address is the rest of the input. */
  function DecodeDUID(s: seq<uint8>): (r: Result<DUID>)
    ensures r == Err(BufferTooShort) <==> |s| < 2 || (TypeTag(s) == DUID_LL && |s| < 4)
    ensures r.Err? && r.error != BufferTooShort ==> r.error == UnknownDUIDType(TypeTag(s)) && TypeTag(s) != DUID_LL
    ensures r.Ok? ==> |s| >= 4 && TypeTag(s) == DUID_LL && r.value.hwType == FromBE16(s[2], s[3])
                      && r.value.linkLayerAddr == s[4..]
  {
    if |s| < 2 then Err(BufferTooShort)
    else if TypeTag(s) != DUID_LL then Err(UnknownDUIDType(TypeTag(s)))
    else if |s| < 4 then Err(BufferTooShort)
    else Ok(DUIDLL(FromBE16(s[2], s[3]), s[4..]))
  }

  /** Every DUID decodes back from its own encoding. */
  lemma DecodeEncodeDUID(d: DUID)
    ensures DecodeDUID(DUIDToBytes(d)) == Ok(d)
  {
    var s := DUIDToBytes(d);
    BE16RoundTrip(DUID_LL);
    BE16RoundTrip(d.hwType);
    assert s[0] == BE16(DUID_LL)[0] && s[1] == BE16(DUID_LL)[1];
    assert s[2] == BE16(d.hwType)[0] && s[3] == BE16(d.hwType)[1];
  }

  /** Every successfully decoded DUID re-encodes to exactly its input. */
  lemma EncodeDecodeDUID(s: seq<uint8>)
    requires DecodeDUID(s).Ok?
    ensures DUIDToBytes(DecodeDUID(s).value) == s
  {
    BE16Inverse(s[0], s[1]);
    BE16Inverse(s[2], s[3]);
    assert s == s[..2] + s[2..4] + s[4..];
  }
}
