/** The Client FQDN option (code 39, section 4 of RFC 4704): one flags octet
    (RFC 4704 section 4.1) followed by the domain name as a label sequence
    (RFC 4704 section 4.2) that takes up the rest of the option value. */
module FqdnOption {
  import opened Wire
  import opened Uio
  import opened Rfc1035Label

  const OptionFQDN: uint16 := 39

  /** The value of a decoded FQDN option. */
  datatype FQDN = FQDN(flags: uint8, domainName: Labels)

  /** The octets the decoder hands to the label codec: everything after the
      flags octet, and nothing when there is no flags octet either. */
  function AfterFlags(s: seq<uint8>): (r: seq<uint8>)
    ensures |s| == 0 ==> r == []
    ensures |s| > 0 ==> r == s[1..]
  {
    if |s| == 0 then [] else s[1..]
  }

  /** The option value: the flags octet, then the label codec's own output. */
  function FQDNToBytes(v: FQDN, c: LabelCodec): (r: seq<uint8>)
    ensures |r| == 1 + |c.toBytes(v.domainName)|
    ensures r[0] == v.flags && r[1..] == c.toBytes(v.domainName)
  {
    [v.flags] + c.toBytes(v.domainName)
  }

  /** Decoding an option value: the label codec's error is reported as it is;
      an empty value never decodes, because its flags octet is missing. */
  function DecodeFQDN(s: seq<uint8>, c: LabelCodec): (r: Result<FQDN>)
    ensures r.Ok? <==> |s| > 0 && c.fromBytes(s[1..]).Ok?
    ensures r.Ok? ==> r.value == FQDN(s[0], c.fromBytes(s[1..]).value)
    ensures c.fromBytes(AfterFlags(s)).Err? ==> r == Err(c.fromBytes(AfterFlags(s)).error)
    ensures |s| == 0 && c.fromBytes([]).Ok? ==> r == Err(BufferTooShort)
  {
    match c.fromBytes(AfterFlags(s))
    case Err(e) => Err(e)
    case Ok(name) => if |s| == 0 then Err(BufferTooShort) else Ok(FQDN(s[0], name))
  }

  /** Every FQDN value whose name the label codec can encode decodes back
      from its encoding, given that the codec decodes its own output. */
  lemma DecodeEncodeFQDN(v: FQDN, c: LabelCodec)
    requires DecodeInvertsEncode(c) && c.encodable(v.domainName)
    ensures DecodeFQDN(FQDNToBytes(v, c), c) == Ok(v)
  {
    var s := FQDNToBytes(v, c);
    assert c.fromBytes(c.toBytes(v.domainName)) == Ok(v.domainName);
    assert AfterFlags(s) == c.toBytes(v.domainName);
  }

  /** Every successfully decoded value re-encodes to exactly its input, given
      that the label codec re-encodes what it decoded. */
  lemma EncodeDecodeFQDN(s: seq<uint8>, c: LabelCodec)
    requires EncodeInvertsDecode(c)
    requires DecodeFQDN(s, c).Ok?
    ensures c.encodable(DecodeFQDN(s, c).value.domainName)
    ensures FQDNToBytes(DecodeFQDN(s, c).value, c) == s
  {
    assert c.toBytes(c.fromBytes(s[1..]).value) == s[1..];
    assert s == [s[0]] + s[1..];
  }

  /** A failed decode reports a missing flags octet or one of the label
      codec's own errors, given that the codec reports only those. */
  lemma DecodeFQDNErrors(s: seq<uint8>, c: LabelCodec)
    requires ReportsLabelErrors(c)
    ensures DecodeFQDN(s, c).Err? ==>
      DecodeFQDN(s, c).error == BufferTooShort || DecodeFQDN(s, c).error == MalformedLabels
  {
    if c.fromBytes(AfterFlags(s)).Err? {
      assert c.fromBytes(AfterFlags(s)).error == MalformedLabels || c.fromBytes(AfterFlags(s)).error == BufferTooShort;
    }
  }

  class OptFQDN {
    var flags: uint8
    /** The domain name; `None` stands for a nil name. */
    var domainName: Option<Labels>

    /** The zero value of the option, ready to be filled by `FromBytes`. */
    constructor Empty()
      ensures flags == 0 && domainName == None
    {
      flags := 0;
      domainName := None;
    }

    constructor (flags: uint8, domainName: Labels)
      ensures this.flags == flags && this.domainName == Some(domainName)
    {
      this.flags := flags;
      this.domainName := Some(domainName);
    }

    /** The option code, whatever the fields hold. */
    function Code(): (c: uint16)
      ensures c == OptionFQDN
    {
      OptionFQDN
    }

    /** The option value: the flags octet, then the label encoding of the
        domain name (a nil name is not serialisable). */
    function ToBytes(c: LabelCodec): (r: seq<uint8>)
      reads this
      requires domainName.Some?
      ensures |r| == 1 + |c.toBytes(domainName.value)|
      ensures r == [flags] + c.toBytes(domainName.value)
    {
      FQDNToBytes(FQDN(flags, domainName.value), c)
    }

    /** Fills the option from `data` through a cursor: the flags octet is
        stored before the label codec runs, so a failing decode still
        overwrites `flags`; a label error is returned as it is; otherwise the
        cursor's recorded error (a missing flags octet) is reported. */
    method FromBytes(data: seq<uint8>, c: LabelCodec) returns (err: Option<Error>)
      modifies this
      ensures flags == if |data| == 0 then 0 else data[0]
      ensures c.fromBytes(AfterFlags(data)).Err? ==>
        err == Some(c.fromBytes(AfterFlags(data)).error) && domainName == None
      ensures c.fromBytes(AfterFlags(data)).Ok? ==>
        domainName == Some(c.fromBytes(AfterFlags(data)).value) &&
        err == (if |data| == 0 then Some(BufferTooShort) else None)
      ensures err == None <==> DecodeFQDN(data, c).Ok?
      ensures err == None ==> domainName.Some? && DecodeFQDN(data, c).value == FQDN(flags, domainName.value)
      ensures err != None ==> err == Some(DecodeFQDN(data, c).error)
    {
      var buf := new Buffer(data);
      flags := buf.Read8();
      var rest := buf.ReadAll();
      assert rest == AfterFlags(data);
      var decoded := c.fromBytes(rest);
      if decoded.Err? {
        domainName := None;
        return Some(decoded.error);
      }
      domainName := Some(decoded.value);
      assert buf.off == |data|;
      err := buf.FinError();
    }
  }

  /** An option serialised and read back into a fresh option carries the same
      flags and domain name, given that the label codec decodes its own
      output and that the name is in the codec's domain. */
  method FQDNRoundTrip(flags: uint8, name: Labels, c: LabelCodec)
    returns (err: Option<Error>, flagsBack: uint8, nameBack: Option<Labels>)
    requires DecodeInvertsEncode(c) && c.encodable(name)
    ensures err == None && flagsBack == flags && nameBack == Some(name)
  {
    var op := new OptFQDN(flags, name);
    var data := op.ToBytes(c);
    DecodeEncodeFQDN(FQDN(flags, name), c);
    var back := new OptFQDN.Empty();
    err := back.FromBytes(data, c);
    flagsBack, nameBack := back.flags, back.domainName;
  }
}
