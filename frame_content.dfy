/**
 * The frame content codec: a payload's leading type byte selects one of
 * thirteen record kinds; each kind has a length guard and a fixed layout of
 * big-endian fields, usually followed by a trailing data slice.
 */
module FrameContent {
  import opened Bytes
  import opened Wrappers
  import opened Flags
  import Status

  /** A two-character AT command name. */
  type AtCmd = s: seq<u8> | |s| == 2 witness [0, 0]

  /** The optional samples of analog channels A0, A1, A2 and A3, in that order. */
  type AnalogSamples = s: seq<Option<u16>> | |s| == 4 witness [None, None, None, None]

  datatype ApiData =
    | TxRequest64Addr(frameId: u8, destAddr64: u64, txOptions: TxOptions, data: seq<u8>)
    | TxRequest16Addr(frameId: u8, destAddr16: u16, txOptions: TxOptions, data: seq<u8>)
    | AtCommand(frameId: u8, atCmd: AtCmd, params: seq<u8>)
    | AtCommandQueueParam(frameId: u8, atCmd: AtCmd, params: seq<u8>)
    | RemoteAtCommand(frameId: u8, destAddr64: u64, destAddr16: u16, atCmd: AtCmd, params: seq<u8>)
    | RxPacket64Addr(sourceAddr64: u64, rssi: u8, rxOptions: RxOptions, data: seq<u8>)
    | RxPacket16Addr(sourceAddr16: u16, rssi: u8, rxOptions: RxOptions, data: seq<u8>)
    | RxPacketIo64Addr(sourceAddr64: u64, rssi: u8, rxOptions: RxOptions, samples: u8,
                       channelIndicator: ChannelIndicator, digitalSamples: Option<u16>,
                       analogSamples: AnalogSamples)
    | RxPacketIo16Addr(sourceAddr16: u16, rssi: u8, rxOptions: RxOptions, samples: u8,
                       channelIndicator: ChannelIndicator, digitalSamples: Option<u16>,
                       analogSamples: AnalogSamples)
    | AtCommandResponse(frameId: u8, atCmd: AtCmd, atStatus: Status.AtCommandStatus, data: seq<u8>)
    | TxStatus(frameId: u8, txStatus: Status.TxStatus)
    | ModemStatus(modemStatus: Status.ModemStatus)
    | RemoteAtCommandResponse(frameId: u8, sourceAddr64: u64, sourceAddr16: u16, atCmd: AtCmd,
                              atStatus: Status.AtCommandStatus, data: seq<u8>)
  {
    /** The kinds the host sends to the module; the others come from it. */
    predicate IsOutbound() {
      TxRequest64Addr? || TxRequest16Addr? || AtCommand? || AtCommandQueueParam? || RemoteAtCommand?
    }
  }

  /**
   * `parse` failures: `Rejected` is the source's `Err(())` (unknown type or
   * a length the guard refuses); `Panicked` stands for an `unwrap` on an
   * exhausted iterator, which the source does not return from.
   */
  datatype ParseError = Rejected | Panicked

  /** `frame_type`: the type byte of each kind; outbound kinds are below 0x80. */
  function FrameType(d: ApiData): (t: u8)
    ensures t < 0x80 <==> d.IsOutbound()
  {
    match d
    case TxRequest64Addr(_, _, _, _) => 0x00
    case TxRequest16Addr(_, _, _, _) => 0x01
    case AtCommand(_, _, _) => 0x08
    case AtCommandQueueParam(_, _, _) => 0x09
    case RemoteAtCommand(_, _, _, _, _) => 0x17
    case RxPacket64Addr(_, _, _, _) => 0x80
    case RxPacket16Addr(_, _, _, _) => 0x81
    case RxPacketIo64Addr(_, _, _, _, _, _, _) => 0x82
    case RxPacketIo16Addr(_, _, _, _, _, _, _) => 0x83
    case AtCommandResponse(_, _, _, _) => 0x88
    case TxStatus(_, _) => 0x89
    case ModemStatus(_) => 0x8A
    case RemoteAtCommandResponse(_, _, _, _, _, _) => 0x97
  }

  /** The length guard `parse` puts on each type byte; false for unknown types. */
  predicate LengthGuard(t: u8, len: nat) {
    match t
    case 0x00 => len > 10
    case 0x01 => len > 4
    case 0x08 => len > 3
    case 0x09 => len > 3
    case 0x17 => len > 13
    case 0x80 => len > 10
    case 0x81 => len > 4
    case 0x82 => len > 13
    case 0x83 => len > 7
    case 0x88 => len > 4
    case 0x89 => len == 3
    case 0x8A => len == 2
    case 0x97 => len > 14
    case _ => false
  }

  function U16At(d: seq<u8>, i: nat): u16
    requires i + 2 <= |d|
  {
    Be16(d[i], d[i + 1])
  }

  function U64At(d: seq<u8>, i: nat): u64
    requires i + 8 <= |d|
  {
    Be64(d[i..i + 8])
  }

  /** The flag of analog channel `k`: A0, A1, A2 or A3. */
  function AnalogBit(k: nat): bv16
    requires k < 4
  {
    [A0, A1, A2, A3][k]
  }

  /**
   * Whether sample slot `j` is present: slot 0 is the digital word, slots
   * 1 to 4 the analog channels A0 to A3.
   */
  predicate SlotPresent(c: ChannelIndicator, j: nat)
    requires j < 5
  {
    if j == 0 then ContainsDigital(c) else c.Contains(AnalogBit(j - 1))
  }

  /** Where slot `j` starts, counted from the first sample byte. */
  function SlotOffset(c: ChannelIndicator, j: nat): nat
    requires j <= 5
  {
    if j == 0 then 0 else SlotOffset(c, j - 1) + (if SlotPresent(c, j - 1) then 2 else 0)
  }

  /** How many sample bytes the indicator announces. */
  function SampleBytes(c: ChannelIndicator): nat {
    SlotOffset(c, 5)
  }

  /** One conditional 16-bit sample read at `pos`; reading past the end panics. */
  function ReadSample(data: seq<u8>, pos: nat, present: bool): (r: Result<(Option<u16>, nat), ParseError>)
    ensures r.Err? ==> r.error == Panicked
    ensures !present ==> r == Ok((None, pos))
    ensures present ==> (r.Ok? <==> pos + 2 <= |data|)
    ensures r.Ok? && present ==> r.value == (Some(U16At(data, pos)), pos + 2)
  {
    if !present then Ok((None, pos))
    else if pos + 2 > |data| then Err(Panicked)
    else Ok((Some(U16At(data, pos)), pos + 2))
  }

  /**
   * Slot `j` of the sample block at `pos` holds `o`: a sample exactly when
   * the indicator announces the slot, and then the big-endian word there.
   */
  predicate SlotHolds(data: seq<u8>, pos: nat, c: ChannelIndicator, j: nat, o: Option<u16>)
    requires j < 5
  {
    && (o.Some? <==> SlotPresent(c, j))
    && (o.Some? ==> pos + SlotOffset(c, j) + 2 <= |data| && o.value == U16At(data, pos + SlotOffset(c, j)))
  }

  /**
   * The conditional samples of an IO frame, read from `pos`: the digital
   * word iff `contains_digital`, then A0 to A3 each iff its bit is set.
   * It succeeds exactly when the announced bytes are there, and each
   * present sample is the big-endian word at its slot.
   */
  function ReadIoSamples(data: seq<u8>, pos: nat, c: ChannelIndicator)
    : (r: Result<(Option<u16>, AnalogSamples), ParseError>)
    requires pos <= |data|
    ensures r.Err? ==> r.error == Panicked
    ensures r.Ok? <==> pos + SampleBytes(c) <= |data|
    ensures r.Ok? ==> (r.value.0.Some? <==> SlotPresent(c, 0))
    ensures r.Ok? && r.value.0.Some? ==> r.value.0.value == U16At(data, pos)
    ensures r.Ok? ==> forall k :: 0 <= k < 4 ==>
      && (r.value.1[k].Some? <==> SlotPresent(c, k + 1))
      && (r.value.1[k].Some? ==> r.value.1[k].value == U16At(data, pos + SlotOffset(c, k + 1)))
  {
    var d :- ReadSample(data, pos, ContainsDigital(c));
    var an :- ReadAnalogSamples(data, pos, c, d.1);
    Ok((d.0, an))
  }

  /** The four analog reads of `ReadIoSamples`, starting at `at`, just past the digital slot. */
  function ReadAnalogSamples(data: seq<u8>, pos: nat, c: ChannelIndicator, at: nat)
    : (r: Result<AnalogSamples, ParseError>)
    requires at == pos + SlotOffset(c, 1) <= |data|
    ensures r.Err? ==> r.error == Panicked
    ensures r.Ok? <==> pos + SampleBytes(c) <= |data|
    ensures r.Ok? ==> forall k :: 0 <= k < 4 ==>
      && (r.value[k].Some? <==> SlotPresent(c, k + 1))
      && (r.value[k].Some? ==> r.value[k].value == U16At(data, pos + SlotOffset(c, k + 1)))
  {
    var a0 :- ReadSample(data, at, c.Contains(A0));
    assert a0.1 == pos + SlotOffset(c, 2);
    var a1 :- ReadSample(data, a0.1, c.Contains(A1));
    assert a1.1 == pos + SlotOffset(c, 3);
    var a2 :- ReadSample(data, a1.1, c.Contains(A2));
    assert a2.1 == pos + SlotOffset(c, 4);
    var a3 :- ReadSample(data, a2.1, c.Contains(A3));
    assert a3.1 == pos + SampleBytes(c);
    Ok([a0.0, a1.0, a2.0, a3.0])
  }

  /** The channel indicator an IO frame carries in the two bytes before `pos`. */
  function IndicatorBefore(data: seq<u8>, pos: nat): ChannelIndicator
    requires 2 <= pos <= |data|
  {
    ChannelIndicatorFromBitsTruncate(Word16(data[pos - 2], data[pos - 1]))
  }

  /** Whether the samples announced by the indicator before `pos` all fit in `data`. */
  predicate SamplesFit(data: seq<u8>, pos: nat)
    requires 2 <= pos <= |data|
  {
    pos + SampleBytes(IndicatorBefore(data, pos)) <= |data|
  }

  /** The 0x82 arm of `parse`: 64-bit source, samples from byte 14. */
  function ParseIo64(data: seq<u8>): (r: Result<ApiData, ParseError>)
    requires |data| > 13
    ensures r.Err? ==> r.error == Panicked
    ensures r.Ok? <==> SamplesFit(data, 14)
    ensures r.Ok? ==> r.value.RxPacketIo64Addr?
  {
    var c := IndicatorBefore(data, 14);
    var s :- ReadIoSamples(data, 14, c);
    Ok(RxPacketIo64Addr(U64At(data, 1), data[9], RxOptionsFromBitsTruncate(data[10]), data[11],
                        c, s.0, s.1))
  }

  /** The 0x83 arm of `parse`: 16-bit source, samples from byte 8. */
  function ParseIo16(data: seq<u8>): (r: Result<ApiData, ParseError>)
    requires |data| > 7
    ensures r.Err? ==> r.error == Panicked
    ensures r.Ok? <==> SamplesFit(data, 8)
    ensures r.Ok? ==> r.value.RxPacketIo16Addr?
  {
    var c := IndicatorBefore(data, 8);
    var s :- ReadIoSamples(data, 8, c);
    Ok(RxPacketIo16Addr(U16At(data, 1), data[3], RxOptionsFromBitsTruncate(data[4]), data[5],
                        c, s.0, s.1))
  }

  /** Whether an accepted payload is an IO frame whose announced samples are cut short. */
  predicate SamplesCutShort(data: seq<u8>)
    requires |data| > 0 && LengthGuard(data[0], |data|)
  {
    || (data[0] == 0x82 && !SamplesFit(data, 14))
    || (data[0] == 0x83 && !SamplesFit(data, 8))
  }

  /** The arms of `parse` for a type byte whose length guard holds. */
  function ParseAccepted(data: seq<u8>): (r: Result<ApiData, ParseError>)
    requires |data| > 0 && LengthGuard(data[0], |data|)
    ensures r.Err? ==> r.error == Panicked
    ensures r.Err? <==> SamplesCutShort(data)
    ensures r.Ok? ==> FrameType(r.value) == data[0]
  {
    if data[0] < 0x80 then Ok(ParseOutbound(data)) else ParseInbound(data)
  }

  /** The arms for the frames a host sends to the module; none of them can fail. */
  function ParseOutbound(data: seq<u8>): (d: ApiData)
    requires |data| > 0 && data[0] < 0x80 && LengthGuard(data[0], |data|)
    ensures FrameType(d) == data[0]
  {
    match data[0]
    case 0x00 =>
      TxRequest64Addr(data[1], U64At(data, 2), TxOptionsFromBitsTruncate(data[10]), data[11..])
    case 0x01 =>
      TxRequest16Addr(data[1], U16At(data, 2), TxOptionsFromBitsTruncate(data[4]), data[5..])
    case 0x08 => AtCommand(data[1], data[2..4], data[4..])
    case 0x09 => AtCommandQueueParam(data[1], data[2..4], data[4..])
    case 0x17 => RemoteAtCommand(data[1], U64At(data, 2), U16At(data, 10), data[12..14], data[14..])
  }

  /** The arms for the frames the module sends to a host; only the IO frames can fail. */
  function ParseInbound(data: seq<u8>): (r: Result<ApiData, ParseError>)
    requires |data| > 0 && data[0] >= 0x80 && LengthGuard(data[0], |data|)
    ensures r.Err? ==> r.error == Panicked
    ensures r.Err? <==> SamplesCutShort(data)
    ensures r.Ok? ==> FrameType(r.value) == data[0]
  {
    if data[0] <= 0x83 then ParseReceived(data) else Ok(ParseReply(data))
  }

  /** The arms for received data, plain (0x80, 0x81) or IO samples (0x82, 0x83). */
  function ParseReceived(data: seq<u8>): (r: Result<ApiData, ParseError>)
    requires |data| > 0 && 0x80 <= data[0] <= 0x83 && LengthGuard(data[0], |data|)
    ensures r.Err? ==> r.error == Panicked
    ensures r.Err? <==> SamplesCutShort(data)
    ensures r.Ok? ==> FrameType(r.value) == data[0]
  {
    match data[0]
    case 0x80 =>
      Ok(RxPacket64Addr(U64At(data, 1), data[9], RxOptionsFromBitsTruncate(data[10]), data[11..]))
    case 0x81 =>
      Ok(RxPacket16Addr(U16At(data, 1), data[3], RxOptionsFromBitsTruncate(data[4]), data[5..]))
    case 0x82 => ParseIo64(data)
    case 0x83 => ParseIo16(data)
  }

  /** The arms for status reports and AT command responses; none of them can fail. */
  function ParseReply(data: seq<u8>): (d: ApiData)
    requires |data| > 0 && data[0] > 0x83 && LengthGuard(data[0], |data|)
    ensures FrameType(d) == data[0]
  {
    match data[0]
    case 0x88 => AtCommandResponse(data[1], data[2..4], Status.LocalAtStatus(data[4]), data[5..])
    case 0x89 => TxStatus(data[1], Status.TxStatusFrom(data[2]))
    case 0x8A => ModemStatus(Status.ModemStatusFrom(data[1]))
    case 0x97 =>
      RemoteAtCommandResponse(data[1], U64At(data, 2), U16At(data, 10), data[12..14],
                              Status.RemoteAtStatus(data[14]), data[15..])
  }

  /**
   * `ApiData::parse`: an empty payload panics, a type byte whose length
   * guard fails is rejected, an IO frame whose samples run past the end
   * panics, and every other payload decodes to a record of its own type.
   */
  function Parse(data: seq<u8>): (r: Result<ApiData, ParseError>)
    ensures r == Err(Rejected) <==> |data| > 0 && !LengthGuard(data[0], |data|)
    ensures r == Err(Panicked) <==>
      |data| == 0 || (LengthGuard(data[0], |data|) && SamplesCutShort(data))
    ensures r.Ok? ==> FrameType(r.value) == data[0]
  {
    if |data| == 0 then Err(Panicked)
    else if !LengthGuard(data[0], |data|) then Err(Rejected)
    else ParseAccepted(data)
  }

  /*
   * A reference serializer for every record kind, the inverse of `parse`:
   * the type byte, then the fields in the order `parse` reads them, each
   * multi-byte field big-endian.
   */

  /** The bytes of one optional sample: none when absent, its big-endian word when present. */
  function SampleEncoding(o: Option<u16>): (s: seq<u8>)
    ensures |s| == if o.Some? then 2 else 0
  {
    if o.Some? then BeBytes(o.value, 2) else []
  }

  /** The sample bytes of an IO frame: the digital word, then A0 to A3. */
  function SamplesEncoding(digital: Option<u16>, analog: AnalogSamples): seq<u8> {
    SampleEncoding(digital) + SampleEncoding(analog[0]) + SampleEncoding(analog[1])
      + SampleEncoding(analog[2]) + SampleEncoding(analog[3])
  }

  function IndicatorBytes(c: ChannelIndicator): seq<u8> {
    [HighByte(c.bits), LowByte(c.bits)]
  }

  /** The payload that `parse` decodes to `d`; every one passes its type's length guard. */
  function Encode(d: ApiData): (s: seq<u8>)
    ensures |s| > 0 && s[0] == FrameType(d) && LengthGuard(s[0], |s|)
  {
    if d.IsOutbound() then EncodeOutbound(d) else EncodeInbound(d)
  }

  /** The encodings of the frames a host sends to the module. */
  function EncodeOutbound(d: ApiData): (s: seq<u8>)
    requires d.IsOutbound()
    ensures |s| > 0 && s[0] == FrameType(d) && LengthGuard(s[0], |s|)
  {
    match d
    case TxRequest64Addr(id, a, o, p) => [0x00, id] + BeBytes(a, 8) + [TxOptionsByte(o)] + p
    case TxRequest16Addr(id, a, o, p) => [0x01, id] + BeBytes(a, 2) + [TxOptionsByte(o)] + p
    case AtCommand(id, cmd, p) => [0x08, id] + cmd + p
    case AtCommandQueueParam(id, cmd, p) => [0x09, id] + cmd + p
    case RemoteAtCommand(id, a64, a16, cmd, p) => [0x17, id] + BeBytes(a64, 8) + BeBytes(a16, 2) + cmd + p
  }

  /** The encodings of the frames the module sends to a host. */
  function EncodeInbound(d: ApiData): (s: seq<u8>)
    requires !d.IsOutbound()
    ensures |s| > 0 && s[0] == FrameType(d) && LengthGuard(s[0], |s|)
  {
    match d
    case RxPacket64Addr(a, rssi, o, p) => [0x80] + BeBytes(a, 8) + [rssi, RxOptionsByte(o)] + p
    case RxPacket16Addr(a, rssi, o, p) => [0x81] + BeBytes(a, 2) + [rssi, RxOptionsByte(o)] + p
    case RxPacketIo64Addr(a, rssi, o, n, c, dig, an) =>
      [0x82] + BeBytes(a, 8) + [rssi, RxOptionsByte(o), n] + IndicatorBytes(c) + SamplesEncoding(dig, an)
    case RxPacketIo16Addr(a, rssi, o, n, c, dig, an) =>
      [0x83] + BeBytes(a, 2) + [rssi, RxOptionsByte(o), n] + IndicatorBytes(c) + SamplesEncoding(dig, an)
    case AtCommandResponse(id, cmd, st, p) => [0x88, id] + cmd + [Status.AtCommandStatusCode(st)] + p
    case TxStatus(id, st) => [0x89, id, Status.TxStatusCode(st)]
    case ModemStatus(st) => [0x8A, Status.ModemStatusCode(st)]
    case RemoteAtCommandResponse(id, a64, a16, cmd, st, p) =>
      [0x97, id] + BeBytes(a64, 8) + BeBytes(a16, 2) + cmd + [Status.AtCommandStatusCode(st)] + p
  }

  /** The samples an IO record carries are exactly the ones its indicator announces. */
  predicate SamplesMatch(c: ChannelIndicator, digital: Option<u16>, analog: AnalogSamples) {
    && (digital.Some? <==> ContainsDigital(c))
    && forall k :: 0 <= k < 4 ==> (analog[k].Some? <==> c.Contains(AnalogBit(k)))
  }

  /**
   * The records `parse` can produce: IO samples agree with the indicator,
   * and a local AT response never carries `NoResponse`, which the 0x88 arm
   * cannot decode.
   */
  predicate WellFormed(d: ApiData) {
    match d
    case RxPacketIo64Addr(_, _, _, _, c, dig, an) => SamplesMatch(c, dig, an)
    case RxPacketIo16Addr(_, _, _, _, c, dig, an) => SamplesMatch(c, dig, an)
    case AtCommandResponse(_, _, st, _) => st != Status.AtCommandStatus.NoResponse
    case _ => true
  }
}
