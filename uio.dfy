/** The big-endian cursor buffer the option codecs read through.

    Only the part of its contract the codecs use is modelled: a read past the
    end records `BufferTooShort` in the buffer instead of failing the call, the
    first recorded error is kept ("sticky"), and `FinError` reports the
    recorded error, or `UnreadBytes` when input is left over. As a
    simplification, every read after an error yields a zero value without
    moving the cursor. */
module Uio {
  import opened Wire

  /** The error a failed read leaves recorded: the first one wins. */
  function Latch(recorded: Option<Error>): (r: Option<Error>)
    ensures r.Some?
    ensures recorded.Some? ==> r == recorded
  {
    if recorded.Some? then recorded else Some(BufferTooShort)
  }

  class Buffer {
    const data: seq<uint8>
    var off: nat
    var err: Option<Error>

    ghost predicate Valid()
      reads this
    {
      off <= |data|
    }

    constructor (data: seq<uint8>)
      ensures Valid()
      ensures this.data == data && off == 0 && err == None
    {
      this.data := data;
      off := 0;
      err := None;
    }

    /** Number of unread octets. */
    function Len(): (n: nat)
      reads this
      requires Valid()
      ensures off + n == |data|
    {
      |data| - off
    }

    /** Whether at least `n` octets are left to read. */
    predicate Has(n: nat): (b: bool)
      reads this
      requires Valid()
      ensures b <==> off + n <= |data|
    {
      n <= Len()
    }

    /** True when a read of `n` octets can succeed now. */
    predicate CanRead(n: nat)
      reads this
      requires Valid()
    {
      err.None? && Has(n)
    }

    method Read8() returns (b: uint8)
      requires Valid()
      modifies this
      ensures Valid()
      ensures old(CanRead(1)) ==> b == data[old(off)] && off == old(off) + 1 && err == None
      ensures !old(CanRead(1)) ==> b == 0 && off == old(off) && err == Latch(old(err))
    {
      if CanRead(1) {
        b := data[off];
        off := off + 1;
      } else {
        b := 0;
        err := Latch(err);
      }
    }

    method Read16() returns (v: uint16)
      requires Valid()
      modifies this
      ensures Valid()
      ensures old(CanRead(2)) ==>
        v == FromBE16(data[old(off)], data[old(off) + 1]) && off == old(off) + 2 && err == None
      ensures !old(CanRead(2)) ==> v == 0 && off == old(off) && err == Latch(old(err))
    {
      if CanRead(2) {
        v := FromBE16(data[off], data[off + 1]);
        off := off + 2;
      } else {
        v := 0;
        err := Latch(err);
      }
    }

    /** Takes the next `n` octets; on a short buffer records the error and
        yields nothing. */
    method Consume(n: nat) returns (s: seq<uint8>)
      requires Valid()
      modifies this
      ensures Valid()
      ensures old(CanRead(n)) ==> s == data[old(off)..old(off) + n] && off == old(off) + n && err == None
      ensures !old(CanRead(n)) ==> s == [] && off == old(off) && err == Latch(old(err))
    {
      if CanRead(n) {
        s := data[off..off + n];
        off := off + n;
      } else {
        s := [];
        err := Latch(err);
      }
    }

    /** Takes every remaining octet (nothing once an error is recorded). */
    method ReadAll() returns (s: seq<uint8>)
      requires Valid()
      modifies this
      ensures Valid() && err == old(err)
      ensures old(err).None? ==> s == data[old(off)..] && off == |data|
      ensures old(err).Some? ==> s == [] && off == old(off)
    {
      if err.None? {
        s := data[off..];
        off := |data|;
      } else {
        s := [];
      }
    }

    /** The final check of a decode: the recorded error if there is one,
        otherwise `UnreadBytes` when input is left over. */
    function FinError(): (r: Option<Error>)
      reads this
      requires Valid()
      ensures r.None? <==> err.None? && off == |data|
      ensures err.Some? ==> r == err
      ensures err.None? && off < |data| ==> r == Some(UnreadBytes)
    {
      if err.Some? then err
      else if off < |data| then Some(UnreadBytes)
      else None
    }
  }
}
