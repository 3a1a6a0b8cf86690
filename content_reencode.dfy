/**
 * `parse` against the reference serializer, the other way round: a record
 * that `parse` accepts re-encodes to the payload it was read from, except
 * for the bytes `parse` normalises:
 * - an option byte comes back masked to its known flags;
 * - the high byte of a channel indicator loses its three reserved bits;
 * - a status byte comes back as the code of the status it decodes to.
 * The samples of an IO frame take as many bytes as the indicator announces;
 * bytes after them are not part of the record.
 */
module ContentReencode {
  import opened Bytes
  import opened Wrappers
  import opened Flags
  import Status
  import opened FrameContent

  /** The channel bits of an indicator's high byte: A3..A0 and D8. */
  const INDICATOR_HIGH: bv8 := 0x1F

  /** A byte with only the bits of `known` kept. */
  function MaskByte(b: u8, known: bv8): u8 {
    ((b as bv8) & known) as int
  }

  /**
   * The payload as its record keeps it: every byte as it is, except the
   * option, indicator-high and status bytes of its type, which are replaced
   * by what `parse` makes of them.
   */
  function Normalised(data: seq<u8>): (n: seq<u8>)
    requires |data| > 0 && LengthGuard(data[0], |data|)
    ensures |n| == |data| && n[0] == data[0]
  {
    match data[0]
    case 0x00 => data[10 := MaskByte(data[10], TX_KNOWN)]
    case 0x01 => data[4 := MaskByte(data[4], TX_KNOWN)]
    case 0x80 => data[10 := MaskByte(data[10], RX_KNOWN)]
    case 0x81 => data[4 := MaskByte(data[4], RX_KNOWN)]
    case 0x82 => data[10 := MaskByte(data[10], RX_KNOWN)][12 := MaskByte(data[12], INDICATOR_HIGH)]
    case 0x83 => data[4 := MaskByte(data[4], RX_KNOWN)][6 := MaskByte(data[6], INDICATOR_HIGH)]
    case 0x88 => data[4 := Status.AtCommandStatusCode(Status.LocalAtStatus(data[4]))]
    case 0x89 => data[2 := Status.TxStatusCode(Status.TxStatusFrom(data[2]))]
    case 0x8A => data[1 := Status.ModemStatusCode(Status.ModemStatusFrom(data[1]))]
    case 0x97 => data[14 := Status.AtCommandStatusCode(Status.RemoteAtStatus(data[14]))]
    case _ => data
  }

  /** How many bytes of an accepted payload its record covers. */
  function RecordLength(data: seq<u8>): (n: nat)
    requires |data| > 0 && LengthGuard(data[0], |data|) && !SamplesCutShort(data)
    ensures n <= |data|
  {
    if data[0] == 0x82 then 14 + SampleBytes(IndicatorBefore(data, 14))
    else if data[0] == 0x83 then 8 + SampleBytes(IndicatorBefore(data, 8))
    else |data|
  }

  /** The two bytes a 16-bit field was read from are its big-endian encoding. */
  lemma BeBytesOfU16At(data: seq<u8>, p: nat)
    requires p + 2 <= |data|
    ensures BeBytes(U16At(data, p), 2) == data[p..p + 2]
  {
    Be16IsBeValue(data[p..p + 2]);
    BeBytesBeValue(data[p..p + 2]);
  }

  /** The eight bytes a 64-bit field was read from are its big-endian encoding. */
  lemma BeBytesOfU64At(data: seq<u8>, p: nat)
    requires p + 8 <= |data|
    ensures BeBytes(U64At(data, p), 8) == data[p..p + 8]
  {
    BeBytesBeValue(data[p..p + 8]);
  }

  /** The indicator read from the two bytes before `pos` re-encodes to them, reserved bits cleared. */
  lemma IndicatorBytesBefore(data: seq<u8>, pos: nat)
    requires 2 <= pos <= |data|
    ensures IndicatorBytes(IndicatorBefore(data, pos))
      == [MaskByte(data[pos - 2], INDICATOR_HIGH), data[pos - 1]]
  {
    IndicatorBytesOfWord(data[pos - 2], data[pos - 1]);
  }

  /** Replacing byte `k` leaves the bytes before and after it as they were. */
  lemma ReplaceByte(data: seq<u8>, k: nat, m: u8)
    requires k < |data|
    ensures data[k := m] == data[..k] + [m] + data[k + 1..]
  {
  }

  /** A sample slot from `p` to `q` re-encodes to its bytes: none when absent, the word read there when present. */
  lemma SlotEncoding(data: seq<u8>, p: nat, q: nat, present: bool, o: Option<u16>)
    requires q == p + (if present then 2 else 0) <= |data|
    requires o.Some? <==> present
    requires o.Some? ==> o.value == U16At(data, p)
    ensures SampleEncoding(o) == data[p..q]
  {
    if o.Some? {
      BeBytesOfU16At(data, p);
    }
  }

  lemma SliceJoin(data: seq<u8>, a: nat, b: nat, c: nat)
    requires a <= b <= c <= |data|
    ensures data[a..b] + data[b..c] == data[a..c]
  {
  }

  /** Five encodings of adjacent slices join into the slice they cover. */
  lemma SamplesJoin(data: seq<u8>, q0: nat, q1: nat, q2: nat, q3: nat, q4: nat, q5: nat,
                    dig: Option<u16>, an: AnalogSamples)
    requires q0 <= q1 <= q2 <= q3 <= q4 <= q5 <= |data|
    requires SampleEncoding(dig) == data[q0..q1] && SampleEncoding(an[0]) == data[q1..q2]
    requires SampleEncoding(an[1]) == data[q2..q3] && SampleEncoding(an[2]) == data[q3..q4]
    requires SampleEncoding(an[3]) == data[q4..q5]
    ensures SamplesEncoding(dig, an) == data[q0..q5]
  {
    SliceJoin(data, q0, q1, q2);
    SliceJoin(data, q0, q2, q3);
    SliceJoin(data, q0, q3, q4);
    SliceJoin(data, q0, q4, q5);
  }

  /** Five slots that hold what the indicator announces re-encode to the sample bytes. */
  lemma SamplesEncodingOf(data: seq<u8>, pos: nat, c: ChannelIndicator, dig: Option<u16>, an: AnalogSamples)
    requires pos + SampleBytes(c) <= |data|
    requires SlotHolds(data, pos, c, 0, dig) && SlotHolds(data, pos, c, 1, an[0])
    requires SlotHolds(data, pos, c, 2, an[1]) && SlotHolds(data, pos, c, 3, an[2])
    requires SlotHolds(data, pos, c, 4, an[3])
    ensures SamplesEncoding(dig, an) == data[pos..pos + SampleBytes(c)]
  {
    var q1, q2 := pos + SlotOffset(c, 1), pos + SlotOffset(c, 2);
    var q3, q4, q5 := pos + SlotOffset(c, 3), pos + SlotOffset(c, 4), pos + SlotOffset(c, 5);
    assert pos + SlotOffset(c, 0) == pos <= q1 <= q2 <= q3 <= q4 <= q5;
    SlotEncoding(data, pos, q1, SlotPresent(c, 0), dig);
    SlotEncoding(data, q1, q2, SlotPresent(c, 1), an[0]);
    SlotEncoding(data, q2, q3, SlotPresent(c, 2), an[1]);
    SlotEncoding(data, q3, q4, SlotPresent(c, 3), an[2]);
    SlotEncoding(data, q4, q5, SlotPresent(c, 4), an[3]);
    SamplesJoin(data, pos, q1, q2, q3, q4, q5, dig, an);
  }

  /** The samples `ReadIoSamples` returns re-encode to exactly the bytes it read. */
  lemma SamplesEncodingRead(data: seq<u8>, pos: nat, c: ChannelIndicator)
    requires pos <= |data| && ReadIoSamples(data, pos, c).Ok?
    ensures var s := ReadIoSamples(data, pos, c).value;
      SamplesEncoding(s.0, s.1) == data[pos..pos + SampleBytes(c)]
  {
    var s := ReadIoSamples(data, pos, c).value;
    assert SlotHolds(data, pos, c, 0, s.0);
    assert SlotHolds(data, pos, c, 1, s.1[0]);
    assert SlotHolds(data, pos, c, 2, s.1[1]);
    assert SlotHolds(data, pos, c, 3, s.1[2]);
    assert SlotHolds(data, pos, c, 4, s.1[3]);
    SamplesEncodingOf(data, pos, c, s.0, s.1);
  }

  lemma ReencodeTx64(data: seq<u8>)
    requires |data| > 10 && data[0] == 0x00
    ensures Encode(ParseOutbound(data)) == Normalised(data)
  {
    BeBytesOfU64At(data, 2);
    assert [0x00, data[1]] + data[2..10] == data[..10];
    ReplaceByte(data, 10, MaskByte(data[10], TX_KNOWN));
  }

  lemma ReencodeTx16(data: seq<u8>)
    requires |data| > 4 && data[0] == 0x01
    ensures Encode(ParseOutbound(data)) == Normalised(data)
  {
    BeBytesOfU16At(data, 2);
    assert [0x01, data[1]] + data[2..4] == data[..4];
    ReplaceByte(data, 4, MaskByte(data[4], TX_KNOWN));
  }

  lemma ReencodeAtCommand(data: seq<u8>)
    requires |data| > 3 && (data[0] == 0x08 || data[0] == 0x09)
    ensures Encode(ParseOutbound(data)) == Normalised(data)
  {
    assert [data[0], data[1]] + data[2..4] == data[..4];
    assert data[..4] + data[4..] == data;
  }

  lemma ReencodeRemoteAtCommand(data: seq<u8>)
    requires |data| > 13 && data[0] == 0x17
    ensures Encode(ParseOutbound(data)) == Normalised(data)
  {
    var d := RemoteAtCommand(data[1], U64At(data, 2), U16At(data, 10), data[12..14], data[14..]);
    assert ParseOutbound(data) == d;
    BeBytesOfU64At(data, 2);
    BeBytesOfU16At(data, 10);
    assert [0x17, data[1]] + data[2..10] + data[10..12] + data[12..14] == data[..14];
    assert data[..14] + data[14..] == data;
  }

  lemma ReencodeRx64(data: seq<u8>)
    requires |data| > 10 && data[0] == 0x80
    ensures ParseReceived(data).Ok? && Encode(ParseReceived(data).value) == Normalised(data)
  {
    var d := RxPacket64Addr(U64At(data, 1), data[9], RxOptionsFromBitsTruncate(data[10]), data[11..]);
    assert ParseReceived(data) == Ok(d);
    BeBytesOfU64At(data, 1);
    assert [0x80] + data[1..9] + [data[9]] == data[..10];
    ReplaceByte(data, 10, MaskByte(data[10], RX_KNOWN));
  }

  lemma ReencodeRx16(data: seq<u8>)
    requires |data| > 4 && data[0] == 0x81
    ensures ParseReceived(data).Ok? && Encode(ParseReceived(data).value) == Normalised(data)
  {
    var d := RxPacket16Addr(U16At(data, 1), data[3], RxOptionsFromBitsTruncate(data[4]), data[5..]);
    assert ParseReceived(data) == Ok(d);
    BeBytesOfU16At(data, 1);
    assert [0x81] + data[1..3] + [data[3]] == data[..4];
    ReplaceByte(data, 4, MaskByte(data[4], RX_KNOWN));
  }

  /** Bytes 0 to `n` of an IO payload whose option byte at `o` and indicator-high byte at `o + 2` are replaced. */
  lemma IoPrefix(data: seq<u8>, o: nat, m: u8, h: u8, n: nat)
    requires 1 <= o && o + 4 <= n <= |data|
    ensures data[o := m][o + 2 := h][..n]
      == data[..o - 1] + [data[o - 1], m, data[o + 1]] + [h, data[o + 3]] + data[o + 4..n]
  {
  }

  /** An IO record with a 64-bit source whose fields re-encode to the bytes of `data` they came from. */
  lemma EncodeIo64At(data: seq<u8>, d: ApiData, n: nat)
    requires d.RxPacketIo64Addr? && 14 <= n <= |data| && data[0] == 0x82
    requires BeBytes(d.sourceAddr64, 8) == data[1..9] && d.rssi == data[9] && d.samples == data[11]
    requires RxOptionsByte(d.rxOptions) == MaskByte(data[10], RX_KNOWN)
    requires IndicatorBytes(d.channelIndicator) == [MaskByte(data[12], INDICATOR_HIGH), data[13]]
    requires SamplesEncoding(d.digitalSamples, d.analogSamples) == data[14..n]
    ensures Encode(d) == data[10 := MaskByte(data[10], RX_KNOWN)][12 := MaskByte(data[12], INDICATOR_HIGH)][..n]
  {
    assert [0x82] + data[1..9] == data[..9];
    IoPrefix(data, 10, MaskByte(data[10], RX_KNOWN), MaskByte(data[12], INDICATOR_HIGH), n);
  }

  /** An IO record with a 16-bit source whose fields re-encode to the bytes of `data` they came from. */
  lemma EncodeIo16At(data: seq<u8>, d: ApiData, n: nat)
    requires d.RxPacketIo16Addr? && 8 <= n <= |data| && data[0] == 0x83
    requires BeBytes(d.sourceAddr16, 2) == data[1..3] && d.rssi == data[3] && d.samples == data[5]
    requires RxOptionsByte(d.rxOptions) == MaskByte(data[4], RX_KNOWN)
    requires IndicatorBytes(d.channelIndicator) == [MaskByte(data[6], INDICATOR_HIGH), data[7]]
    requires SamplesEncoding(d.digitalSamples, d.analogSamples) == data[8..n]
    ensures Encode(d) == data[4 := MaskByte(data[4], RX_KNOWN)][6 := MaskByte(data[6], INDICATOR_HIGH)][..n]
  {
    assert [0x83] + data[1..3] == data[..3];
    IoPrefix(data, 4, MaskByte(data[4], RX_KNOWN), MaskByte(data[6], INDICATOR_HIGH), n);
  }

  lemma ReencodeIo64(data: seq<u8>)
    requires |data| > 13 && data[0] == 0x82 && SamplesFit(data, 14)
    ensures ParseIo64(data).Ok?
    ensures Encode(ParseIo64(data).value) == Normalised(data)[..14 + SampleBytes(IndicatorBefore(data, 14))]
  {
    var c := IndicatorBefore(data, 14);
    var s := ReadIoSamples(data, 14, c).value;
    var d := RxPacketIo64Addr(U64At(data, 1), data[9], RxOptionsFromBitsTruncate(data[10]), data[11], c, s.0, s.1);
    assert ParseIo64(data) == Ok(d);
    BeBytesOfU64At(data, 1);
    IndicatorBytesBefore(data, 14);
    SamplesEncodingRead(data, 14, c);
    EncodeIo64At(data, d, 14 + SampleBytes(c));
  }

  lemma ReencodeIo16(data: seq<u8>)
    requires |data| > 7 && data[0] == 0x83 && SamplesFit(data, 8)
    ensures ParseIo16(data).Ok?
    ensures Encode(ParseIo16(data).value) == Normalised(data)[..8 + SampleBytes(IndicatorBefore(data, 8))]
  {
    var c := IndicatorBefore(data, 8);
    var s := ReadIoSamples(data, 8, c).value;
    var d := RxPacketIo16Addr(U16At(data, 1), data[3], RxOptionsFromBitsTruncate(data[4]), data[5], c, s.0, s.1);
    assert ParseIo16(data) == Ok(d);
    BeBytesOfU16At(data, 1);
    IndicatorBytesBefore(data, 8);
    SamplesEncodingRead(data, 8, c);
    EncodeIo16At(data, d, 8 + SampleBytes(c));
  }

  lemma ReencodeAtResponse(data: seq<u8>)
    requires |data| > 4 && data[0] == 0x88
    ensures Encode(ParseReply(data)) == Normalised(data)
  {
    assert [0x88, data[1]] + data[2..4] == data[..4];
    ReplaceByte(data, 4, Status.AtCommandStatusCode(Status.LocalAtStatus(data[4])));
  }

  lemma ReencodeStatus(data: seq<u8>)
    requires (|data| == 3 && data[0] == 0x89) || (|data| == 2 && data[0] == 0x8A)
    ensures Encode(ParseReply(data)) == Normalised(data)
  {
  }

  lemma ReencodeRemoteAtResponse(data: seq<u8>)
    requires |data| > 14 && data[0] == 0x97
    ensures Encode(ParseReply(data)) == Normalised(data)
  {
    var d := RemoteAtCommandResponse(data[1], U64At(data, 2), U16At(data, 10), data[12..14],
                                     Status.RemoteAtStatus(data[14]), data[15..]);
    assert ParseReply(data) == d;
    BeBytesOfU64At(data, 2);
    BeBytesOfU16At(data, 10);
    assert [0x97, data[1]] + data[2..10] + data[10..12] + data[12..14] == data[..14];
    ReplaceByte(data, 14, Status.AtCommandStatusCode(Status.RemoteAtStatus(data[14])));
  }

  /**
   * Every record `parse` returns re-encodes to the bytes it was read from:
   * the whole payload, or for an IO frame the payload up to the last
   * announced sample, with option, indicator and status bytes normalised.
   */
  lemma EncodeParse(data: seq<u8>)
    requires Parse(data).Ok?
    ensures |data| > 0 && LengthGuard(data[0], |data|) && !SamplesCutShort(data)
    ensures Encode(Parse(data).value) == Normalised(data)[..RecordLength(data)]
  {
    var t := data[0];
    if t < 0x80 {
      if t == 0x00 { ReencodeTx64(data); }
      else if t == 0x01 { ReencodeTx16(data); }
      else if t == 0x17 { ReencodeRemoteAtCommand(data); }
      else { ReencodeAtCommand(data); }
    } else if t <= 0x81 {
      if t == 0x80 { ReencodeRx64(data); } else { ReencodeRx16(data); }
    } else if t <= 0x83 {
      if t == 0x82 { ReencodeIo64(data); } else { ReencodeIo16(data); }
    } else if t == 0x88 {
      ReencodeAtResponse(data);
    } else if t == 0x97 {
      ReencodeRemoteAtResponse(data);
    } else {
      ReencodeStatus(data);
    }
  }
}
