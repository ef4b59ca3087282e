/** The Client Identifier test vectors of the option codec, stated over the
    decoding functions and replayed on the option objects. */
module ClientIdVectors {
  import opened Wire
  import opened Rfc1035Label
  import opened Duid
  import opened ClientIdOption
  import opened Options

  /** One Client Identifier frame: code 1, length 10, a DUID-LL with hardware
      type Ethernet and address 00:01:02:03:04:05. */
  const ClientIDFrame: seq<uint8> := [0, 1, 0, 10, 0, 3, 0, 1, 0, 1, 2, 3, 4, 5]

  /** That frame's value: the DUID-LL on its own. */
  const DUIDLLBytes: seq<uint8> := [0, 3, 0, 1, 0, 1, 2, 3, 4, 5]

  /** A complete frame whose one-octet value is too short for a DUID. */
  const TruncatedDUIDFrame: seq<uint8> := [0, 1, 0, 1, 0]

  const EthernetDUID: DUID := DUIDLL(HWTypeEthernet, [0, 1, 2, 3, 4, 5])

  lemma DUIDLLVector()
    ensures DecodeDUID(DUIDLLBytes) == Ok(EthernetDUID)
    ensures DUIDToBytes(EthernetDUID) == DUIDLLBytes
  {
    assert DUIDLLBytes[4..] == [0, 1, 2, 3, 4, 5];
  }

  lemma TruncatedDUIDVectors()
    ensures DecodeDUID([]) == Err(BufferTooShort)
    ensures DecodeDUID([0]) == Err(BufferTooShort)
    ensures DecodeDUID([0, 3, 0]) == Err(BufferTooShort)
  {
  }

  /** The 14-octet vector is the Client Identifier header (code 1, length 10)
      followed by the DUID-LL octets. */
  lemma ClientIDFrameLayout()
    ensures ClientIDFrame == BE16(OptionClientID) + BE16(|DUIDLLBytes|) + DUIDLLBytes
  {
  }

  lemma ClientIDFrameVector(c: LabelCodec)
    ensures DecodeOptions(ClientIDFrame, c) == Ok([ClientIdentifier(EthernetDUID)])
  {
    var o := ClientIdentifier(EthernetDUID);
    DUIDLLVector();
    ClientIDFrameLayout();
    assert ClientIDFrame == BE16(OptionClientID) + BE16(|DUIDLLBytes|) + DUIDLLBytes + [];
    DecodeFrameThen(OptionClientID, DUIDLLBytes, [], c);
    assert [o] + [] == [o];
  }

  lemma ClientIDFrameGetter()
    ensures ClientIDOf([ClientIdentifier(EthernetDUID)]) == Some(EthernetDUID)
  {
  }

  lemma ClientIDFrameEncodeVector(c: LabelCodec)
    ensures EncodeOptions([ClientIdentifier(EthernetDUID)], c) == ClientIDFrame
  {
    var o := ClientIdentifier(EthernetDUID);
    DUIDLLVector();
    ClientIDFrameLayout();
    FrameOf(o, c);
    assert EncodeOptions([o], c) == Frame(o, c) + EncodeOptions([], c);
  }

  lemma TruncatedDUIDFrameVector(c: LabelCodec)
    ensures DecodeOptions(TruncatedDUIDFrame, c) == Err(BufferTooShort)
  {
    assert TruncatedDUIDFrame[4..5] == [0];
  }

  /** Decodes each vector into a fresh option list and reads its client
      identifier back, as a caller of the list does. */
  method ClientIDParseAndGetter(c: LabelCodec) returns (errs: seq<Option<Error>>, ids: seq<Option<DUID>>)
    ensures errs == [None, None, Some(BufferTooShort)]
    ensures ids == [Some(EthernetDUID), None, None]
  {
    ClientIDFrameVector(c);
    ClientIDFrameGetter();
    TruncatedDUIDFrameVector(c);
    errs, ids := [], [];
    var vectors := [ClientIDFrame, [], TruncatedDUIDFrame];
    for i := 0 to 3
      invariant |errs| == |ids| == i
      invariant i > 0 ==> errs[0] == None && ids[0] == Some(EthernetDUID)
      invariant i > 1 ==> errs[1] == None && ids[1] == None
      invariant i > 2 ==> errs[2] == Some(BufferTooShort) && ids[2] == None
    {
      var mo := new MessageOptions();
      var err := mo.FromBytes(vectors[i], c);
      errs, ids := errs + [err], ids + [mo.ClientID()];
    }
  }

  /** Fills a Client Identifier option from each vector and, where the
      decode succeeds, reports the DUID it holds and serialises it again. */
  method ClientIDFromBytesVectors() returns (errs: seq<Option<Error>>, filled: Option<DUID>, out: seq<uint8>)
    ensures errs == [None, Some(BufferTooShort), Some(BufferTooShort), Some(BufferTooShort)]
    ensures filled == Some(EthernetDUID)
    ensures out == DUIDLLBytes
  {
    DUIDLLVector();
    TruncatedDUIDVectors();
    var opt := new OptClientID.Empty();
    var e0 := opt.FromBytes(DUIDLLBytes);
    filled := opt.duid;
    out := opt.ToBytes();
    var e1 := opt.FromBytes([0]);
    var e2 := opt.FromBytes([0, 3, 0]);
    var e3 := opt.FromBytes([]);
    errs := [e0, e1, e2, e3];
  }
}
