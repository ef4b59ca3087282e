/** The Client Identifier option (code 1, section 21.2 of RFC 8415), whose
    value is a DUID. */
module ClientIdOption {
  import opened Wire
  import opened Uio
  import opened Duid

  const OptionClientID: uint16 := 1

  class OptClientID {
    /** The identifier carried; `None` stands for a nil DUID. */
    var duid: Option<DUID>

    /** The zero value of the option, ready to be filled by `FromBytes`. */
    constructor Empty()
      ensures duid == None
    {
      duid := None;
    }

    /** An option carrying `d`. */
    constructor (d: DUID)
      ensures duid == Some(d)
    {
      duid := Some(d);
    }

    /** The option code, whatever the option holds. */
    function Code(): (c: uint16)
      ensures c == OptionClientID
    {
      OptionClientID
    }

    /** The option value: the DUID's own encoding, which decodes back to it. */
    function ToBytes(): (r: seq<uint8>)
      reads this
      requires duid.Some?
      ensures r == DUIDToBytes(duid.value)
      ensures DecodeDUID(r) == Ok(duid.value)
    {
      DecodeEncodeDUID(duid.value);
      DUIDToBytes(duid.value)
    }

    /** Fills the option from `data`: the DUID that `data` decodes to, or the
        decode error and no DUID. */
    method FromBytes(data: seq<uint8>) returns (err: Option<Error>)
      modifies this
      ensures DecodeDUID(data).Ok? ==> err == None && duid == Some(DecodeDUID(data).value)
      ensures DecodeDUID(data).Err? ==> err == Some(DecodeDUID(data).error) && duid == None
      ensures err == None ==> ToBytes() == data
    {
      var buf := new Buffer(data);
      if !buf.Has(2) {
        duid := None;
        return Some(BufferTooShort);
      }
      var t := buf.Read16();
      if t != DUID_LL {
        duid := None;
        return Some(UnknownDUIDType(t));
      }
      var hw := buf.Read16();
      var addr := buf.ReadAll();
      err := buf.FinError();
      if err.None? {
        duid := Some(DUIDLL(hw, addr));
        EncodeDecodeDUID(data);
      } else {
        duid := None;
      }
    }
  }
}
