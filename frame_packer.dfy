/**
 * The frame packer: a one-pass state machine that turns a payload of known
 * length into the framed byte stream
 *   0x7E | length (big-endian u16) | payload | 0xFF - wrapping sum of payload
 * one byte per call of `Next`.
 */
module FramePacking {
  import opened Bytes
  import opened Wrappers

  /** The start-of-frame marker. */
  const START: u8 := 0x7E

  datatype ApiPackError = TooShort | TooLong

  datatype FramePackingState = Start | LenH | LenL | Data | Done

  /** The checksum byte: it brings the wrapping sum of the payload up to 0xFF. */
  function Checksum(payload: seq<u8>): (c: u8)
    ensures WrappingAdd(c, WrappingSum(payload)) == 0xFF
  {
    0xFF - WrappingSum(payload)
  }

  /**
   * Every byte the packer emits for `payload`: start marker, the payload
   * length big-endian, the payload itself and the checksum.
   */
  function Frame(payload: seq<u8>): (f: seq<u8>)
    requires 1 <= |payload| <= 0xFFFF
    ensures |f| == |payload| + 4
    ensures f[0] == START && Be16(f[1], f[2]) == |payload|
    ensures f[3..|payload| + 3] == payload && f[|payload| + 3] == Checksum(payload)
  {
    [START, |payload| / 0x100, |payload| % 0x100] + payload + [Checksum(payload)]
  }

  class FramePacker {
    var state: FramePackingState
    const escaped: bool
    const encrypted: bool
    /** What the wrapped iterator has still to yield. */
    var data: seq<u8>
    var checksum: u8

    /** Everything the wrapped iterator yields, fixed at construction. */
    ghost const payload: seq<u8>
    /** The frame of `payload`: every byte `Next` is to return. */
    ghost const frame: seq<u8>
    /** The bytes `Next` has returned so far. */
    ghost var emitted: seq<u8>

    /** The fixed shape of the frame, over the fields that never change. */
    ghost predicate Layout() {
      && 1 <= |payload| <= 0xFFFF
      && |frame| == |payload| + 4
      && frame[0] == START
      && frame[1] == |payload| / 0x100
      && frame[2] == |payload| % 0x100
      && frame[3..|payload| + 3] == payload
      && frame[|payload| + 3] == Checksum(payload)
      && frame == Frame(payload)
    }

    ghost predicate Valid()
      reads this
    {
      && Layout()
      && |emitted| <= |frame|
      && emitted == frame[..|emitted|]
      && match state
         case Start => emitted == [] && data == payload && checksum == 0
         case LenH => |emitted| == 1 && data == payload && checksum == 0
         case LenL => |emitted| == 2 && data == payload && checksum == 0
         case Data =>
           && 3 <= |emitted| <= |payload| + 3
           && data == payload[|emitted| - 3..]
           && checksum == WrappingSum(payload[..|emitted| - 3])
         case Done => |emitted| == |frame| && data == []
    }

    /** The bytes `Next` has still to return. */
    ghost function Remaining(): (r: seq<u8>)
      reads this
      requires Valid()
      ensures emitted + r == Frame(payload)
      ensures r == [] <==> state == Done
    {
      frame[|emitted|..]
    }

    constructor Init(data: seq<u8>, escaped: bool, encrypted: bool)
      requires 1 <= |data| <= 0xFFFF
      ensures Valid() && state == Start && checksum == 0
      ensures payload == data && emitted == []
      ensures this.escaped == escaped && this.encrypted == encrypted
    {
      state := Start;
      this.escaped := escaped;
      this.encrypted := encrypted;
      this.data := data;
      checksum := 0;
      payload := data;
      frame := Frame(data);
      emitted := [];
    }

    /**
     * `FramePacker::new`: refuses an empty payload and one longer than a
     * u16 can state; otherwise a packer in state Start with checksum 0.
     */
    static method New(data: seq<u8>, escaped: bool, encrypted: bool)
      returns (r: Result<FramePacker, ApiPackError>)
      ensures |data| == 0 ==> r == Err(TooShort)
      ensures |data| > 0xFFFF ==> r == Err(TooLong)
      ensures 1 <= |data| <= 0xFFFF ==>
        && r.Ok? && fresh(r.value) && r.value.Valid()
        && r.value.state == Start && r.value.checksum == 0
        && r.value.payload == data && r.value.emitted == []
    {
      if |data| == 0 {
        return Err(TooShort);
      }
      if |data| > 0xFFFF {
        return Err(TooLong);
      }
      var p := new FramePacker.Init(data, escaped, encrypted);
      return Ok(p);
    }

    /** One call of `Next`: the first remaining byte is returned and consumed, or None at the end. */
    twostate predicate Stepped(new b: Option<u8>)
      reads this
    {
      && old(Valid()) && Valid()
      && (b.None? <==> old(state) == Done)
      && (b.None? ==> state == Done && emitted == old(emitted))
      && (b.Some? ==> old(Remaining()) != [] && b.value == old(Remaining())[0])
      && (b.Some? ==> emitted == old(emitted) + [b.value] && Remaining() == old(Remaining())[1..])
    }

    /**
     * `Iterator::next`: the next byte of `Frame(payload)`, or None once the
     * whole frame is out; Done is final.
     */
    method Next() returns (b: Option<u8>)
      requires Valid()
      modifies this
      ensures Valid()
      ensures b.None? <==> old(state) == Done
      ensures b.None? ==> state == Done && emitted == old(emitted)
      ensures b.Some? ==> old(Remaining()) != [] && b.value == old(Remaining())[0]
      ensures b.Some? ==> emitted == old(emitted) + [b.value] && Remaining() == old(Remaining())[1..]
    {
      match state {
        case Start =>
          b := NextHeader();
        case LenH =>
          b := NextHeader();
        case LenL =>
          b := NextHeader();
        case Data =>
          b := NextData();
        case Done =>
          b := None;
      }
    }

    /** Records `v`, the byte of the frame at the current position, as returned. */
    method Emit(v: u8) returns (b: Option<u8>)
      requires Layout() && |emitted| < |frame| && emitted == frame[..|emitted|] && v == frame[|emitted|]
      modifies this`emitted
      ensures b == Some(v) && emitted == old(emitted) + [v] && emitted == frame[..|emitted|]
      ensures frame[|emitted|..] == frame[|old(emitted)|..][1..]
    {
      emitted := emitted + [v];
      b := Some(v);
    }

    /** States Start, LenH and LenL: the marker, then the two length bytes. */
    method NextHeader() returns (b: Option<u8>)
      requires Valid() && (state == Start || state == LenH || state == LenL)
      modifies this
      ensures Stepped(b)
    {
      match state {
        case Start =>
          state := LenH;
          b := Emit(START);
        case LenH =>
          state := LenL;
          b := Emit(|data| / 0x100);
        case LenL =>
          state := Data;
          b := Emit(|data| % 0x100);
      }
    }

    /** State Data: the next payload byte, added to the checksum, then the checksum itself. */
    method NextData() returns (b: Option<u8>)
      requires Valid() && state == Data
      modifies this
      ensures Stepped(b)
    {
      ghost var k := |emitted| - 3;
      if data != [] {
        var v := data[0];
        assert v == frame[|emitted|] by {
          assert frame[3..|payload| + 3][k] == payload[k];
        }
        data := data[1..];
        assert payload[..k + 1] == payload[..k] + [v];
        checksum := WrappingAdd(checksum, v);
        b := Emit(v);
      } else {
        assert payload[..k] == payload;
        state := Done;
        b := Emit(0xFF - checksum);
      }
    }
  }

  /**
   * Drives a packer over `data` until it returns None, collecting every
   * byte, as a caller that writes the frame out byte by byte does.
   */
  method PackFrame(data: seq<u8>) returns (r: Result<seq<u8>, ApiPackError>)
    ensures |data| == 0 ==> r == Err(TooShort)
    ensures |data| > 0xFFFF ==> r == Err(TooLong)
    ensures 1 <= |data| <= 0xFFFF ==> r == Ok(Frame(data))
  {
    var p :- FramePacker.New(data, false, false);
    var out: seq<u8> := [];
    while true
      invariant fresh(p) && p.Valid() && p.payload == data
      invariant out == p.emitted
      decreases |p.Remaining()|
    {
      var b := p.Next();
      if b.None? {
        break;
      }
      out := out + [b.value];
    }
    assert p.emitted + p.Remaining() == p.emitted;
    return Ok(out);
  }
}
