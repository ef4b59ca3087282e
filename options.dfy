/** The option list of a DHCPv6 message (section 21.1 of RFC 8415): a run of
    `uint16 code | uint16 length | value` frames. Decoding dispatches on the
    code (Client Identifier and Client FQDN are decoded; every other code is
    kept as raw octets) and is all-or-nothing; encoding writes the frames back
    in list order. */
module Options {
  import opened Wire
  import opened Uio
  import opened Rfc1035Label
  import opened Duid
  import opened ClientIdOption
  import opened FqdnOption

  /** A decoded option. */
  datatype DhcpOption =
    | ClientIdentifier(duid: DUID)
    | ClientFQDN(fqdn: FQDN)
    | Generic(code: uint16, data: seq<uint8>)   // a code without a decoder
  {
    /** The code an option is framed under: 1 and 39 for the two decoded
        options, and the stored code of a raw one. */
    function Code(): (c: uint16)
      ensures ClientIdentifier? ==> c == OptionClientID
      ensures ClientFQDN? ==> c == OptionFQDN
      ensures Generic? ==> c == code
    {
      match this
      case ClientIdentifier(_) => OptionClientID
      case ClientFQDN(_) => OptionFQDN
      case Generic(code, _) => code
    }
  }

  /** The value octets of an option, as its own codec writes them. */
  function ValueBytes(o: DhcpOption, c: LabelCodec): (r: seq<uint8>)
    ensures o.ClientIdentifier? ==> |r| == 4 + |o.duid.linkLayerAddr| && r[4..] == o.duid.linkLayerAddr
    ensures o.ClientFQDN? ==> |r| == 1 + |c.toBytes(o.fqdn.domainName)| && r[0] == o.fqdn.flags
    ensures o.Generic? ==> r == o.data
  {
    match o
    case ClientIdentifier(d) => DUIDToBytes(d)
    case ClientFQDN(v) => FQDNToBytes(v, c)
    case Generic(_, data) => data
  }

  /** The frame of one option. The length field is the value's length cut
      to 16 bits, as the conversion to a 16-bit field does. */
  function Frame(o: DhcpOption, c: LabelCodec): (r: seq<uint8>)
    ensures |r| == 4 + |ValueBytes(o, c)|
    ensures r[..2] == BE16(o.Code())
    ensures r[2..4] == BE16(|ValueBytes(o, c)| % 0x1_0000)
    ensures r[4..] == ValueBytes(o, c)
  {
    BE16(o.Code()) + BE16(|ValueBytes(o, c)| % 0x1_0000) + ValueBytes(o, c)
  }

  /** The octets of an option list: its frames, concatenated in list order. */
  function EncodeOptions(opts: seq<DhcpOption>, c: LabelCodec): (r: seq<uint8>)
    ensures |r| >= 4 * |opts|
    ensures r == [] <==> opts == []
  {
    if opts == [] then [] else Frame(opts[0], c) + EncodeOptions(opts[1..], c)
  }

  /** An option whose encoding decodes back to itself: its value fits the
      16-bit length field, a raw option does not use a code that has a
      decoder of its own, and an FQDN option's name is one the label codec
      can encode. */
  predicate WellFormed(o: DhcpOption, c: LabelCodec)
  {
    |ValueBytes(o, c)| < 0x1_0000 &&
    (o.Generic? ==> o.code != OptionClientID && o.code != OptionFQDN) &&
    (o.ClientFQDN? ==> c.encodable(o.fqdn.domainName))
  }

  /** Every option of the list is well-formed. */
  predicate AllWellFormed(opts: seq<DhcpOption>, c: LabelCodec)
  {
    opts == [] || (WellFormed(opts[0], c) && AllWellFormed(opts[1..], c))
  }

  /** Decoding the value of a frame with code `code`. */
  function DecodeOption(code: uint16, v: seq<uint8>, c: LabelCodec): (r: Result<DhcpOption>)
    ensures r.Ok? ==> r.value.Code() == code
    ensures code == OptionClientID ==>
      (r.Ok? <==> DecodeDUID(v).Ok?) &&
      (r.Ok? ==> r.value == ClientIdentifier(DecodeDUID(v).value)) &&
      (r.Err? ==> r.error == DecodeDUID(v).error)
    ensures code == OptionFQDN ==>
      (r.Ok? <==> DecodeFQDN(v, c).Ok?) &&
      (r.Ok? ==> r.value == ClientFQDN(DecodeFQDN(v, c).value)) &&
      (r.Err? ==> r.error == DecodeFQDN(v, c).error)
    ensures code != OptionClientID && code != OptionFQDN ==> r == Ok(Generic(code, v))
  {
    if code == OptionClientID then
      match DecodeDUID(v)
      case Err(e) => Err(e)
      case Ok(d) => Ok(ClientIdentifier(d))
    else if code == OptionFQDN then
      match DecodeFQDN(v, c)
      case Err(e) => Err(e)
      case Ok(f) => Ok(ClientFQDN(f))
    else
      Ok(Generic(code, v))
  }

  /** `r` with `done` put in front of its options, when it has any. */
  function Prepend(done: seq<DhcpOption>, r: Result<seq<DhcpOption>>): (p: Result<seq<DhcpOption>>)
    ensures done == [] ==> p == r
  {
    if r.Ok? then assert [] + r.value == r.value; Ok(done + r.value) else r
  }

  lemma PrependTwice(done: seq<DhcpOption>, o: DhcpOption, r: Result<seq<DhcpOption>>)
    ensures Prepend(done, Prepend([o], r)) == Prepend(done + [o], r)
  {
    if r.Ok? {
      assert done + ([o] + r.value) == done + [o] + r.value;
    }
  }

  /** Decoding an option list: while octets remain, a 16-bit code, a 16-bit
      length and that many value octets; any of them missing is
      `BufferTooShort`. The first failure, of the framing or of an option's
      own decoder, is the result. */
  function DecodeOptions(data: seq<uint8>, c: LabelCodec): (r: Result<seq<DhcpOption>>)
    ensures r.Ok? ==> 4 * |r.value| <= |data|
    decreases |data|
  {
    if |data| == 0 then Ok([])
    else if |data| < 4 then Err(BufferTooShort)
    else
      var code := FromBE16(data[0], data[1]);
      var length := FromBE16(data[2], data[3]);
      if |data| - 4 < length then Err(BufferTooShort)
      else
        match DecodeOption(code, data[4..4 + length], c)
        case Err(e) => Err(e)
        case Ok(o) => Prepend([o], DecodeOptions(data[4 + length..], c))
  }

  /** The first option with code `code`, if any. */
  function GetOne(opts: seq<DhcpOption>, code: uint16): (r: Option<DhcpOption>)
    ensures r.None? <==> forall i | 0 <= i < |opts| :: opts[i].Code() != code
    ensures r.Some? ==> exists i | 0 <= i < |opts| ::
      opts[i] == r.value && opts[i].Code() == code && forall j | 0 <= j < i :: opts[j].Code() != code
  {
    if opts == [] then None
    else if opts[0].Code() == code then Some(opts[0])
    else GetOne(opts[1..], code)
  }

  /** The client identifier of an option list: the DUID of its first
      Client Identifier option, if it has one. */
  function ClientIDOf(opts: seq<DhcpOption>): (r: Option<DUID>)
    ensures r.Some? <==> GetOne(opts, OptionClientID).Some? && GetOne(opts, OptionClientID).value.ClientIdentifier?
    ensures r.Some? ==> GetOne(opts, OptionClientID) == Some(ClientIdentifier(r.value))
  {
    match GetOne(opts, OptionClientID)
    case Some(ClientIdentifier(d)) => Some(d)
    case _ => None
  }

  /** Each well-formed option decodes back from its own value octets, given
      that the label codec decodes its own output. */
  lemma DecodeOptionValue(o: DhcpOption, c: LabelCodec)
    requires DecodeInvertsEncode(c)
    requires WellFormed(o, c)
    ensures DecodeOption(o.Code(), ValueBytes(o, c), c) == Ok(o)
  {
    match o
    case ClientIdentifier(d) => DecodeEncodeDUID(d);
    case ClientFQDN(v) => DecodeEncodeFQDN(v, c);
    case Generic(_, _) =>
  }

  /** A well-formed option's frame: its code and its value's length as the
      two header fields, then the value. */
  lemma FrameOf(o: DhcpOption, c: LabelCodec)
    requires WellFormed(o, c)
    ensures Frame(o, c) == BE16(o.Code()) + BE16(|ValueBytes(o, c)|) + ValueBytes(o, c)
  {
    assert |ValueBytes(o, c)| % 0x1_0000 == |ValueBytes(o, c)|;
  }

  /** Decoding a list whose first frame is complete: that frame's option
      decoder runs first, and the rest is decoded only when it succeeds. */
  lemma DecodeFrameThen(code: uint16, v: seq<uint8>, rest: seq<uint8>, c: LabelCodec)
    requires |v| < 0x1_0000
    ensures var r := DecodeOption(code, v, c);
      DecodeOptions(BE16(code) + BE16(|v|) + v + rest, c) ==
        if r.Err? then Err(r.error) else Prepend([r.value], DecodeOptions(rest, c))
  {
    var s := BE16(code) + BE16(|v|) + v + rest;
    assert s == BE16(code) + BE16(|v|) + (v + rest);
    HeaderFieldsReadBack(code, |v|, v + rest);
    assert s[4..4 + |v|] == v;
    assert s[4 + |v|..] == rest;
  }

  /** The frame of a well-formed option, followed by any octets, decodes to
      that option in front of whatever those octets decode to, given that the
      label codec decodes its own output. */
  lemma DecodeFrameOf(o: DhcpOption, rest: seq<uint8>, c: LabelCodec)
    requires DecodeInvertsEncode(c)
    requires WellFormed(o, c)
    ensures DecodeOptions(Frame(o, c) + rest, c) == Prepend([o], DecodeOptions(rest, c))
  {
    FrameOf(o, c);
    DecodeOptionValue(o, c);
    DecodeFrameThen(o.Code(), ValueBytes(o, c), rest, c);
  }

  /** One step of the list round trip: a well-formed option in front of a
      tail that round-trips makes a list that round-trips. */
  lemma DecodeEncodeCons(opts: seq<DhcpOption>, c: LabelCodec)
    requires DecodeInvertsEncode(c)
    requires opts != [] && WellFormed(opts[0], c)
    requires DecodeOptions(EncodeOptions(opts[1..], c), c) == Ok(opts[1..])
    ensures DecodeOptions(EncodeOptions(opts, c), c) == Ok(opts)
  {
    var o, rest := opts[0], EncodeOptions(opts[1..], c);
    assert EncodeOptions(opts, c) == Frame(o, c) + rest;
    DecodeFrameOf(o, rest, c);
    assert [o] + opts[1..] == opts;
  }

  /** Decoding an encoded list of well-formed options gives the list back. */
  lemma {:induction false} DecodeEncodeOptions(opts: seq<DhcpOption>, c: LabelCodec)
    requires DecodeInvertsEncode(c)
    requires AllWellFormed(opts, c)
    ensures DecodeOptions(EncodeOptions(opts, c), c) == Ok(opts)
  {
    if opts != [] {
      DecodeEncodeOptions(opts[1..], c);
      DecodeEncodeCons(opts, c);
    }
  }

  /** A successfully decoded option value is well-formed and is written back
      as the same octets, given that the label codec re-encodes what it
      decoded. */
  lemma EncodeDecodeOption(code: uint16, v: seq<uint8>, c: LabelCodec)
    requires EncodeInvertsDecode(c)
    requires |v| < 0x1_0000
    requires DecodeOption(code, v, c).Ok?
    ensures ValueBytes(DecodeOption(code, v, c).value, c) == v
    ensures WellFormed(DecodeOption(code, v, c).value, c)
  {
    if code == OptionClientID {
      EncodeDecodeDUID(v);
    } else if code == OptionFQDN {
      EncodeDecodeFQDN(v, c);
    }
  }

  /** Octets that start with a header naming an option's code and its
      value's length, followed by that value, start with the option's frame. */
  lemma HeaderFrame(data: seq<uint8>, o: DhcpOption, c: LabelCodec)
    requires WellFormed(o, c)
    requires |data| >= 4 + |ValueBytes(o, c)|
    requires FromBE16(data[0], data[1]) == o.Code()
    requires FromBE16(data[2], data[3]) == |ValueBytes(o, c)|
    requires data[4..4 + |ValueBytes(o, c)|] == ValueBytes(o, c)
    ensures data[..4 + |ValueBytes(o, c)|] == Frame(o, c)
  {
    var h := data[..4 + |ValueBytes(o, c)|];
    OctetsAreTheirHeader(h);
    FrameOf(o, c);
  }

  /** A list that decodes starts with a whole frame: the frame of its first
      option, followed by octets that decode to the remaining options. */
  lemma DecodedHead(data: seq<uint8>, c: LabelCodec)
    requires EncodeInvertsDecode(c)
    requires DecodeOptions(data, c).Ok? && |data| > 0
    ensures var opts := DecodeOptions(data, c).value;
      var n := 4 + |ValueBytes(opts[0], c)|;
      |opts| > 0 && WellFormed(opts[0], c) && n <= |data| &&
      data[..n] == Frame(opts[0], c) && DecodeOptions(data[n..], c) == Ok(opts[1..])
  {
    var code: uint16, length: nat := FromBE16(data[0], data[1]), FromBE16(data[2], data[3]);
    assert |data| >= 4 + length;
    var v, tail := data[4..4 + length], data[4 + length..];
    var r := DecodeOption(code, v, c);
    assert r.Ok? && DecodeOptions(data, c) == Prepend([r.value], DecodeOptions(tail, c));
    EncodeDecodeOption(code, v, c);
    HeaderFrame(data, r.value, c);
  }

  /** Re-encoding a successfully decoded list reproduces the input octets,
      given that the label codec re-encodes what it decoded. */
  lemma {:induction false} EncodeDecodeOptions(data: seq<uint8>, c: LabelCodec)
    requires EncodeInvertsDecode(c)
    requires DecodeOptions(data, c).Ok?
    ensures EncodeOptions(DecodeOptions(data, c).value, c) == data
    decreases |data|
  {
    if |data| > 0 {
      var opts := DecodeOptions(data, c).value;
      DecodedHead(data, c);
      var n := 4 + |ValueBytes(opts[0], c)|;
      EncodeDecodeOptions(data[n..], c);
      assert EncodeOptions(opts, c) == Frame(opts[0], c) + EncodeOptions(opts[1..], c);
      assert data == data[..n] + data[n..];
    }
  }

  /** Every option of a successfully decoded list is well-formed, so the list
      survives another encode and decode, given that the label codec
      re-encodes what it decoded. */
  lemma {:induction false} DecodedOptionsWellFormed(data: seq<uint8>, c: LabelCodec)
    requires EncodeInvertsDecode(c)
    requires DecodeOptions(data, c).Ok?
    ensures AllWellFormed(DecodeOptions(data, c).value, c)
    decreases |data|
  {
    if |data| > 0 {
      var opts := DecodeOptions(data, c).value;
      DecodedHead(data, c);
      var n := 4 + |ValueBytes(opts[0], c)|;
      DecodedOptionsWellFormed(data[n..], c);
    }
  }

  /** Any non-empty strict prefix of a well-formed option's frame is reported
      as `BufferTooShort`, never as another error and never as a result. */
  lemma TruncatedFrame(o: DhcpOption, c: LabelCodec, k: nat)
    requires WellFormed(o, c)
    requires 0 < k < |Frame(o, c)|
    ensures DecodeOptions(Frame(o, c)[..k], c) == Err(BufferTooShort)
  {
    var v := ValueBytes(o, c);
    var p := Frame(o, c)[..k];
    if k >= 4 {
      FrameOf(o, c);
      HeaderFieldsReadBack(o.Code(), |v|, v);
      assert p[2] == Frame(o, c)[2] && p[3] == Frame(o, c)[3];
    }
  }

  /** A frame whose code has no decoder is kept as raw octets and is written
      back octet for octet. */
  lemma GenericPassthrough(code: uint16, v: seq<uint8>, c: LabelCodec)
    requires code != OptionClientID && code != OptionFQDN
    requires |v| < 0x1_0000
    ensures DecodeOptions(BE16(code) + BE16(|v|) + v, c) == Ok([Generic(code, v)])
    ensures EncodeOptions([Generic(code, v)], c) == BE16(code) + BE16(|v|) + v
  {
    var o := Generic(code, v);
    DecodeFrameThen(code, v, [], c);
    assert BE16(code) + BE16(|v|) + v + [] == BE16(code) + BE16(|v|) + v;
    assert [o] + [] == [o];
    FrameOf(o, c);
    assert EncodeOptions([o], c) == Frame(o, c) + EncodeOptions([], c);
  }

  /** A Client Identifier frame whose DUID does not decode fails the whole
      list with the DUID decoder's own error, whatever follows it. */
  lemma ClientIDErrorPropagates(v: seq<uint8>, rest: seq<uint8>, c: LabelCodec)
    requires |v| < 0x1_0000
    requires DecodeDUID(v).Err?
    ensures DecodeOptions(BE16(OptionClientID) + BE16(|v|) + v + rest, c) == Err(DecodeDUID(v).error)
  {
    DecodeFrameThen(OptionClientID, v, rest, c);
  }

  /** A failed list decode reports a short frame or DUID, an unknown DUID
      type or a malformed label sequence, given that the label codec reports
      only its own two errors. */
  lemma {:induction false} DecodeOptionsErrors(data: seq<uint8>, c: LabelCodec)
    requires ReportsLabelErrors(c)
    ensures var r := DecodeOptions(data, c);
      r.Err? ==> r.error == BufferTooShort || r.error.UnknownDUIDType? || r.error == MalformedLabels
    decreases |data|
  {
    if |data| >= 4 {
      var code: uint16, length: nat := FromBE16(data[0], data[1]), FromBE16(data[2], data[3]);
      if length <= |data| - 4 {
        var v := data[4..4 + length];
        DecodeFQDNErrors(v, c);
        DecodeOptionsErrors(data[4 + length..], c);
      }
    }
  }

  /** Decodes one frame's value with the decoder its code selects, filling a
      fresh option object; codes without a decoder keep the raw octets. */
  method ParseOption(code: uint16, value: seq<uint8>, c: LabelCodec) returns (r: Result<DhcpOption>)
    ensures r == DecodeOption(code, value, c)
  {
    if code == OptionClientID {
      var opt := new OptClientID.Empty();
      var e := opt.FromBytes(value);
      if e.Some? {
        return Err(e.value);
      }
      r := Ok(ClientIdentifier(opt.duid.value));
    } else if code == OptionFQDN {
      var opt := new OptFQDN.Empty();
      var e := opt.FromBytes(value, c);
      if e.Some? {
        return Err(e.value);
      }
      r := Ok(ClientFQDN(FQDN(opt.flags, opt.domainName.value)));
    } else {
      r := Ok(Generic(code, value));
    }
  }

  /** Octets whose header fields are `code` and `n`, with at least `n`
      octets after the header, are that header, `n` value octets and the rest. */
  lemma HeaderSplit(s: seq<uint8>, code: uint16, n: nat)
    requires |s| >= 4 + n && n < 0x1_0000
    requires code == FromBE16(s[0], s[1]) && n == FromBE16(s[2], s[3])
    ensures s == BE16(code) + BE16(n) + s[4..4 + n] + s[4 + n..]
  {
    OctetsAreTheirHeader(s);
    assert s[4..] == s[4..4 + n] + s[4 + n..];
  }

  /** Reads one frame (code, length, value) through the cursor. Either the
      cursor records an error because the remaining octets hold no whole
      frame, or the octets read are exactly the frame of `value` under `code`. */
  method ReadFrame(buf: Buffer) returns (code: uint16, value: seq<uint8>)
    requires buf.Valid() && buf.err == None
    modifies buf
    ensures buf.Valid() && buf.off >= old(buf.off)
    ensures buf.err.Some? ==>
      buf.err == Some(BufferTooShort) &&
      (old(buf.Len()) < 4 || old(buf.Len()) - 4 < FromBE16(buf.data[old(buf.off) + 2], buf.data[old(buf.off) + 3]))
    ensures buf.err.None? ==>
      |value| < 0x1_0000 && buf.off > old(buf.off) &&
      old(buf.data[buf.off..]) == BE16(code) + BE16(|value|) + value + buf.data[buf.off..]
  {
    ghost var rest := buf.data[buf.off..];
    code := buf.Read16();
    var length := buf.Read16();
    value := buf.Consume(length);
    if buf.err.None? {
      ghost var n: nat := length;
      assert |rest| >= 4 + n && value == rest[4..4 + n] && buf.data[buf.off..] == rest[4 + n..];
      HeaderSplit(rest, code, n);
    }
  }

  class MessageOptions {
    var options: seq<DhcpOption>

    /** An empty option list. */
    constructor ()
      ensures options == []
    {
      options := [];
    }

    /** The DUID of the first Client Identifier option, if any. */
    function ClientID(): (r: Option<DUID>)
      reads this
      ensures r == ClientIDOf(options)
    {
      ClientIDOf(options)
    }

    /** Replaces the list by the options decoded from `data`, reading the
        frames through a cursor; on any failure the list is left empty and
        the failure is returned. */
    method FromBytes(data: seq<uint8>, c: LabelCodec) returns (err: Option<Error>)
      modifies this
      ensures DecodeOptions(data, c).Ok? ==> err == None && options == DecodeOptions(data, c).value
      ensures DecodeOptions(data, c).Err? ==> err == Some(DecodeOptions(data, c).error) && options == []
    {
      options := [];
      var buf := new Buffer(data);
      assert data[buf.off..] == data;
      while buf.Len() > 0
        invariant fresh(buf)
        invariant buf.Valid() && buf.data == data && buf.err == None
        invariant DecodeOptions(data, c) == Prepend(options, DecodeOptions(data[buf.off..], c))
        decreases buf.Len()
      {
        ghost var rest := data[buf.off..];
        var code, value := ReadFrame(buf);
        if buf.err.Some? {
          assert DecodeOptions(rest, c) == Err(BufferTooShort);
          options := [];
          return buf.err;
        }
        DecodeFrameThen(code, value, data[buf.off..], c);
        var parsed := ParseOption(code, value, c);
        if parsed.Err? {
          options := [];
          return Some(parsed.error);
        }
        PrependTwice(options, parsed.value, DecodeOptions(data[buf.off..], c));
        options := options + [parsed.value];
      }
      err := buf.FinError();
    }
  }
}
