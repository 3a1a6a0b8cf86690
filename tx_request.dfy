/**
 * The outbound data encoder: a state machine that yields the content of a
 * transmit request one byte per call (type byte, frame id, destination
 * address most significant byte first, option byte, then the data) and
 * always knows how many bytes it has still to yield.
 */
module TxRequest {
  import opened Bytes
  import opened Wrappers
  import opened Flags
  import XBee
  import opened FrameContent

  datatype TxRequestState = FrameType | FrameId | Addr | Options | Data

  /** The record a transmit request to `addr` stands for: 64-bit or 16-bit addressing. */
  function RequestData(frameId: u8, addr: XBee.Addr, options: TxOptions, data: seq<u8>): (d: ApiData)
    ensures (d.TxRequest64Addr? || d.TxRequest16Addr?) && d.IsOutbound()
    ensures d.frameId == frameId && d.txOptions == options && d.data == data
    ensures addr.Long? <==> d.TxRequest64Addr?
    ensures addr.Long? ==> d.destAddr64 == addr.long
    ensures addr.Short? ==> d.TxRequest16Addr? && d.destAddr16 == addr.short
  {
    match addr
    case Long(a) => TxRequest64Addr(frameId, a, options, data)
    case Short(a) => TxRequest16Addr(frameId, a, options, data)
  }

  /** The number of address bytes a request to `addr` carries. */
  function AddrWidth(addr: XBee.Addr): (n: nat)
    ensures n == 8 || n == 2
    ensures n == 8 <==> addr.Long?
  {
    if addr.Long? then 8 else 2
  }

  /** The address as the iterator stores it: widened to a u64. */
  function AddrValue(addr: XBee.Addr): (a: u64)
    ensures a < Pow256(AddrWidth(addr))
  {
    assert Pow256(2) == 0x1_0000;
    assert Pow256(8) == 0x1_0000_0000_0000_0000;
    match addr
    case Long(a) => a
    case Short(a) => a
  }

  /**
   * The encoding of a transmit request, field by field: type byte 0x00 or
   * 0x01, frame id, the address big-endian in `width` bytes, the option
   * byte, then the data.
   */
  lemma RequestLayout(d: ApiData, width: nat, addr: u64)
    requires d.TxRequest64Addr? || d.TxRequest16Addr?
    requires width == (if d.TxRequest64Addr? then 8 else 2)
    requires addr == (if d.TxRequest64Addr? then d.destAddr64 else d.destAddr16)
    ensures |Encode(d)| == 3 + width + |d.data|
    ensures Encode(d)[0] == (if width == 8 then 0x00 else 0x01)
    ensures Encode(d)[1] == d.frameId
    ensures Encode(d)[2..2 + width] == BeBytes(addr, width)
    ensures Encode(d)[2 + width] == TxOptionsByte(d.txOptions)
    ensures Encode(d)[3 + width..] == d.data
  {
    var e := Encode(d);
    assert e == [if width == 8 then 0x00 else 0x01, d.frameId] + BeBytes(addr, width)
      + [TxOptionsByte(d.txOptions)] + d.data;
  }

  class TxRequestIter {
    var state: TxRequestState
    const frameId: u8
    const addr: u64
    /** How far right the next address byte sits, in bits: 56 or 8 at first, then down to 0. */
    var addrShift: nat
    const options: TxOptions
    /** What the wrapped data iterator has still to yield. */
    var data: seq<u8>

    /** The address width in bytes: 8 for a long address, 2 for a short one. */
    ghost const width: nat
    /** The data the request carries. */
    ghost const payload: seq<u8>
    /** The request's encoding: every byte `Next` is to return. */
    ghost const full: seq<u8>
    /** The bytes `Next` has returned so far. */
    ghost var emitted: seq<u8>

    /** The fixed shape of the encoding, over the fields that never change. */
    ghost predicate Layout() {
      && (width == 8 || width == 2)
      && addr < Pow256(width)
      && |full| == 3 + width + |payload|
      && full[0] == (if width == 8 then 0x00 else 0x01)
      && full[1] == frameId
      && full[2..2 + width] == BeBytes(addr, width)
      && full[2 + width] == TxOptionsByte(options)
      && full[3 + width..] == payload
    }

    ghost predicate Valid()
      reads this
    {
      && Layout()
      && addrShift % 8 == 0
      && addrShift <= 8 * (width - 1)
      && |emitted| <= |full|
      && emitted == full[..|emitted|]
      && match state
         case FrameType => emitted == [] && addrShift == 8 * (width - 1) && data == payload
         case FrameId => |emitted| == 1 && addrShift == 8 * (width - 1) && data == payload
         case Addr => |emitted| == 2 + (width - 1 - addrShift / 8) && data == payload
         case Options => |emitted| == 2 + width && data == payload
         case Data => |emitted| >= 3 + width && data == payload[|emitted| - 3 - width..]
    }

    /** The bytes `Next` has still to return. */
    ghost function Remaining(): (r: seq<u8>)
      reads this
      requires Valid()
      ensures emitted + r == full
    {
      full[|emitted|..]
    }

    /**
     * `TxRequestIter::new`: a long address is sent from bit 56 down, a
     * short one from bit 8 down.
     */
    constructor (frameId: u8, addr: XBee.Addr, options: TxOptions, data: seq<u8>)
      ensures Valid() && state == FrameType && emitted == []
      ensures full == Encode(RequestData(frameId, addr, options, data))
      ensures this.addr == AddrValue(addr) && addrShift == 8 * (AddrWidth(addr) - 1)
    {
      state := FrameType;
      this.frameId := frameId;
      this.addr := AddrValue(addr);
      addrShift := 8 * (AddrWidth(addr) - 1);
      this.options := options;
      this.data := data;
      width := AddrWidth(addr);
      payload := data;
      full := Encode(RequestData(frameId, addr, options, data));
      emitted := [];
      RequestLayout(RequestData(frameId, addr, options, data), AddrWidth(addr), AddrValue(addr));
    }

    /**
     * `ExactSizeIterator::len`: computed from the state, the address shift
     * and the data still to come, it is exactly the number of bytes `Next`
     * will still return.
     */
    function Len(): (r: nat)
      reads this
      requires Valid()
      ensures r == |Remaining()|
    {
      match state
      case FrameType => 2 + (addrShift / 8 + 1) + 1 + |data|
      case FrameId => 1 + (addrShift / 8 + 1) + 1 + |data|
      case Addr => (addrShift / 8 + 1) + 1 + |data|
      case Options => 1 + |data|
      case Data => |data|
    }

    /**
     * What one call of `Next` achieves: the iterator stays valid, and it
     * either returns the first remaining byte and moves past it, or
     * returns None when nothing remains.
     */
    twostate predicate Stepped(new b: Option<u8>)
      reads this
    {
      && old(Valid()) && Valid()
      && (b.None? <==> old(Remaining()) == [])
      && (b.None? ==> emitted == old(emitted))
      && (b.Some? ==> old(Remaining()) != [] && b.value == old(Remaining())[0])
      && (b.Some? ==> emitted == old(emitted) + [b.value] && Remaining() == old(Remaining())[1..])
    }

    /**
     * `Iterator::next`: the next byte of the request's encoding, or None
     * once it is all out.
     */
    method Next() returns (b: Option<u8>)
      requires Valid()
      modifies this
      ensures Valid()
      ensures b.None? <==> old(Remaining()) == []
      ensures b.None? ==> emitted == old(emitted)
      ensures b.Some? ==> old(Remaining()) != [] && b.value == old(Remaining())[0]
      ensures b.Some? ==> emitted == old(emitted) + [b.value] && Remaining() == old(Remaining())[1..]
    {
      match state {
        case FrameType => b := NextFrameType();
        case FrameId => b := NextFrameId();
        case Addr => b := NextAddr();
        case Options => b := NextOptions();
        case Data => b := NextData();
      }
    }

    /** Records `v` as emitted; it must be the next byte of the encoding. */
    method Emit(v: u8) returns (b: Option<u8>)
      requires Layout() && |emitted| < |full| && emitted == full[..|emitted|] && v == full[|emitted|]
      modifies this`emitted
      ensures b == Some(v) && emitted == old(emitted) + [v] && emitted == full[..|emitted|]
      ensures full[|emitted|..] == full[|old(emitted)|..][1..]
    {
      emitted := emitted + [v];
      b := Some(v);
    }

    /** The type byte: 0x00 for a 64-bit address (shift 56), 0x01 for a 16-bit one. */
    method NextFrameType() returns (b: Option<u8>)
      requires Valid() && state == FrameType
      modifies this
      ensures Stepped(b)
      ensures state == FrameId && b == Some(if addrShift == 56 then 0x00 else 0x01)
    {
      state := FrameId;
      if addrShift == 56 {
        b := Emit(0x00);
      } else {
        b := Emit(0x01);
      }
    }

    method NextFrameId() returns (b: Option<u8>)
      requires Valid() && state == FrameId
      modifies this
      ensures Stepped(b)
      ensures state == Addr && b == Some(frameId)
    {
      state := Addr;
      b := Emit(frameId);
    }

    /** One address byte: `(addr >> addrShift) as u8`, then the shift drops by 8 or the state moves on. */
    method NextAddr() returns (b: Option<u8>)
      requires Valid() && state == Addr
      modifies this
      ensures Stepped(b)
    {
      ghost var k := |emitted| - 2;
      assert addrShift == 8 * (width - 1 - k);
      BeBytesAt(addr, width, k);
      assert full[2 + k] == full[2..2 + width][k] == BeBytes(addr, width)[k];
      var v := ShiftRight(addr, addrShift) % 0x100;
      assert v == full[|emitted|];
      if addrShift == 0 {
        state := Options;
      } else {
        addrShift := addrShift - 8;
      }
      b := Emit(v);
    }

    method NextOptions() returns (b: Option<u8>)
      requires Valid() && state == Options
      modifies this
      ensures Stepped(b)
      ensures state == Data && b == Some(TxOptionsByte(options))
    {
      state := Data;
      b := Emit(TxOptionsByte(options));
    }

    /** The data bytes are passed through until the wrapped iterator is exhausted. */
    method NextData() returns (b: Option<u8>)
      requires Valid() && state == Data
      modifies this
      ensures Stepped(b)
      ensures state == Data
      ensures b.None? <==> old(data) == []
      ensures old(data) != [] ==> b == Some(old(data)[0]) && data == old(data)[1..]
    {
      if data != [] {
        var v := data[0];
        data := data[1..];
        b := Emit(v);
      } else {
        b := None;
      }
    }
  }

  /**
   * Drains a new iterator, as the packer does when it wraps one: the bytes
   * are the encoding of the transmit request.
   */
  method TxRequestBytes(frameId: u8, addr: XBee.Addr, options: TxOptions, data: seq<u8>)
    returns (out: seq<u8>)
    ensures out == Encode(RequestData(frameId, addr, options, data))
    ensures |out| == 3 + AddrWidth(addr) + |data|
  {
    var it := new TxRequestIter(frameId, addr, options, data);
    out := [];
    while true
      invariant it.Valid() && it.full == Encode(RequestData(frameId, addr, options, data))
      invariant out == it.emitted
      decreases |it.Remaining()|
    {
      var b := it.Next();
      if b.None? {
        break;
      }
      out := out + [b.value];
    }
  }
}
