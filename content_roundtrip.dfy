/**
 * `parse` against the reference serializer: every well-formed record is
 * decoded back from its encoding, and every record `parse` produces is
 * well-formed.
 */
module ContentRoundTrip {
  import opened Bytes
  import opened Wrappers
  import opened Flags
  import Status
  import opened FrameContent

  /** One sample slot reads back the sample whose bytes stand at `pos`. */
  lemma ReadSampleOf(data: seq<u8>, pos: nat, o: Option<u16>, present: bool)
    requires present == o.Some?
    requires o.Some? ==> && pos + 2 <= |data|
                         && data[pos] == BeBytes(o.value, 2)[0]
                         && data[pos + 1] == BeBytes(o.value, 2)[1]
    ensures ReadSample(data, pos, present) == Ok((o, pos + |SampleEncoding(o)|))
  {
    if o.Some? {
      Be16BeBytes(o.value);
    }
  }

  /** The sample block of an IO frame reads back the samples it was encoded from. */
  lemma ReadIoSamplesOf(pre: seq<u8>, c: ChannelIndicator, dig: Option<u16>, an: AnalogSamples)
    requires SamplesMatch(c, dig, an)
    ensures ReadIoSamples(pre + SamplesEncoding(dig, an), |pre|, c) == Ok((dig, an))
  {
    var p1 := ReadDigitalSlotOf(pre, c, dig, an);
    var p2, p3 := ReadMiddleSlotsOf(pre, c, dig, an, p1);
    var p4 := ReadThirdAnalogOf(pre, c, dig, an, p3);
    ReadFourthAnalogOf(pre, c, dig, an, p4);
    ReadIoSamplesSteps(pre + SamplesEncoding(dig, an), |pre|, c, dig, an, p1, p2, p3, p4);
  }

  /** The digital word reads back from the first slot. */
  lemma ReadDigitalSlotOf(pre: seq<u8>, c: ChannelIndicator, dig: Option<u16>, an: AnalogSamples)
    returns (p1: nat)
    requires SamplesMatch(c, dig, an)
    ensures ReadSample(pre + SamplesEncoding(dig, an), |pre|, ContainsDigital(c)) == Ok((dig, p1))
    ensures p1 == |pre| + |SampleEncoding(dig)|
  {
    var e0 := SampleEncoding(dig);
    var data := pre + SamplesEncoding(dig, an);
    p1 := |pre| + |e0|;
    if dig.Some? {
      assert data[|pre|] == e0[0];
      assert data[|pre| + 1] == e0[1];
    }
    ReadSampleOf(data, |pre|, dig, ContainsDigital(c));
  }

  /** A0 and A1 read back from their slots, which start at `p1`. */
  lemma ReadMiddleSlotsOf(pre: seq<u8>, c: ChannelIndicator, dig: Option<u16>, an: AnalogSamples, p1: nat)
    returns (p2: nat, p3: nat)
    requires SamplesMatch(c, dig, an)
    requires p1 == |pre| + |SampleEncoding(dig)|
    ensures var data := pre + SamplesEncoding(dig, an);
      && ReadSample(data, p1, c.Contains(A0)) == Ok((an[0], p2))
      && ReadSample(data, p2, c.Contains(A1)) == Ok((an[1], p3))
    ensures p3 == |pre| + |SampleEncoding(dig)| + |SampleEncoding(an[0])| + |SampleEncoding(an[1])|
  {
    var e0, e1, e2, e3, e4 := SampleEncoding(dig), SampleEncoding(an[0]), SampleEncoding(an[1]),
                              SampleEncoding(an[2]), SampleEncoding(an[3]);
    var data := pre + SamplesEncoding(dig, an);
    p2, p3 := p1 + |e1|, p1 + |e1| + |e2|;
    if an[0].Some? {
      assert data[p1] == (e0 + e1)[p1 - |pre|] == e1[0];
      assert data[p1 + 1] == (e0 + e1)[p1 + 1 - |pre|] == e1[1];
    }
    if an[1].Some? {
      assert data[p2] == (e0 + e1 + e2)[p2 - |pre|] == e2[0];
      assert data[p2 + 1] == (e0 + e1 + e2)[p2 + 1 - |pre|] == e2[1];
    }
    assert an[0].Some? <==> c.Contains(AnalogBit(0));
    assert an[1].Some? <==> c.Contains(AnalogBit(1));
    ReadSampleOf(data, p1, an[0], c.Contains(A0));
    ReadSampleOf(data, p2, an[1], c.Contains(A1));
  }

  /** A2 reads back from its slot, which starts at `p3`. */
  lemma ReadThirdAnalogOf(pre: seq<u8>, c: ChannelIndicator, dig: Option<u16>, an: AnalogSamples, p3: nat)
    returns (p4: nat)
    requires SamplesMatch(c, dig, an)
    requires p3 == |pre| + |SampleEncoding(dig)| + |SampleEncoding(an[0])| + |SampleEncoding(an[1])|
    ensures ReadSample(pre + SamplesEncoding(dig, an), p3, c.Contains(A2)) == Ok((an[2], p4))
    ensures p4 == p3 + |SampleEncoding(an[2])|
  {
    var e0, e1, e2, e3, e4 := SampleEncoding(dig), SampleEncoding(an[0]), SampleEncoding(an[1]),
                              SampleEncoding(an[2]), SampleEncoding(an[3]);
    var data := pre + SamplesEncoding(dig, an);
    p4 := p3 + |e3|;
    if an[2].Some? {
      assert data[p3] == (e0 + e1 + e2 + e3)[p3 - |pre|] == e3[0];
      assert data[p3 + 1] == (e0 + e1 + e2 + e3)[p3 + 1 - |pre|] == e3[1];
    }
    assert an[2].Some? <==> c.Contains(AnalogBit(2));
    ReadSampleOf(data, p3, an[2], c.Contains(A2));
  }

  /** A3 reads back from the last slot, which starts at `p4`. */
  lemma ReadFourthAnalogOf(pre: seq<u8>, c: ChannelIndicator, dig: Option<u16>, an: AnalogSamples, p4: nat)
    requires SamplesMatch(c, dig, an)
    requires p4 == |pre| + |SampleEncoding(dig)| + |SampleEncoding(an[0])| + |SampleEncoding(an[1])|
                    + |SampleEncoding(an[2])|
    ensures var r := ReadSample(pre + SamplesEncoding(dig, an), p4, c.Contains(A3));
      r.Ok? && r.value.0 == an[3]
  {
    var e0, e1, e2, e3, e4 := SampleEncoding(dig), SampleEncoding(an[0]), SampleEncoding(an[1]),
                              SampleEncoding(an[2]), SampleEncoding(an[3]);
    var data := pre + SamplesEncoding(dig, an);
    if an[3].Some? {
      assert data[p4] == e4[0];
      assert data[p4 + 1] == e4[1];
    }
    assert an[3].Some? <==> c.Contains(AnalogBit(3));
    ReadSampleOf(data, p4, an[3], c.Contains(A3));
  }

  /** `ReadIoSamples` chains its five slot reads. */
  lemma ReadIoSamplesSteps(data: seq<u8>, pos: nat, c: ChannelIndicator, dig: Option<u16>,
                           an: AnalogSamples, p1: nat, p2: nat, p3: nat, p4: nat)
    requires pos <= |data|
    requires ReadSample(data, pos, ContainsDigital(c)) == Ok((dig, p1))
    requires ReadSample(data, p1, c.Contains(A0)) == Ok((an[0], p2))
    requires ReadSample(data, p2, c.Contains(A1)) == Ok((an[1], p3))
    requires ReadSample(data, p3, c.Contains(A2)) == Ok((an[2], p4))
    requires ReadSample(data, p4, c.Contains(A3)).Ok? && ReadSample(data, p4, c.Contains(A3)).value.0 == an[3]
    ensures ReadIoSamples(data, pos, c) == Ok((dig, an))
  {
    assert [an[0], an[1], an[2], an[3]] == an;
  }

  lemma ParseEncodeTx64(d: ApiData)
    requires d.TxRequest64Addr?
    ensures Parse(Encode(d)) == Ok(d)
  {
    var data := Encode(d);
    assert data[2..10] == BeBytes(d.destAddr64, 8);
    Be64BeBytes(d.destAddr64);
    TxOptionsRoundTrip(d.txOptions);
    assert data[11..] == d.data;
  }

  lemma ParseEncodeTx16(d: ApiData)
    requires d.TxRequest16Addr?
    ensures Parse(Encode(d)) == Ok(d)
  {
    var data := Encode(d);
    assert data[2] == BeBytes(d.destAddr16, 2)[0] && data[3] == BeBytes(d.destAddr16, 2)[1];
    Be16BeBytes(d.destAddr16);
    TxOptionsRoundTrip(d.txOptions);
    assert data[5..] == d.data;
  }

  lemma ParseEncodeAtCommand(d: ApiData)
    requires d.AtCommand? || d.AtCommandQueueParam?
    ensures Parse(Encode(d)) == Ok(d)
  {
    var data := Encode(d);
    assert data[2..4] == d.atCmd;
    assert data[4..] == d.params;
  }

  lemma ParseEncodeRemoteAtCommand(d: ApiData)
    requires d.RemoteAtCommand?
    ensures Parse(Encode(d)) == Ok(d)
  {
    var data := Encode(d);
    assert data[2..10] == BeBytes(d.destAddr64, 8);
    Be64BeBytes(d.destAddr64);
    assert data[10] == BeBytes(d.destAddr16, 2)[0] && data[11] == BeBytes(d.destAddr16, 2)[1];
    Be16BeBytes(d.destAddr16);
    assert data[12..14] == d.atCmd;
    assert data[14..] == d.params;
  }

  lemma ParseEncodeRx64(d: ApiData)
    requires d.RxPacket64Addr?
    ensures Parse(Encode(d)) == Ok(d)
  {
    var data := Encode(d);
    assert data[1..9] == BeBytes(d.sourceAddr64, 8);
    Be64BeBytes(d.sourceAddr64);
    RxOptionsRoundTrip(d.rxOptions);
    assert data[11..] == d.data;
  }

  lemma ParseEncodeRx16(d: ApiData)
    requires d.RxPacket16Addr?
    ensures Parse(Encode(d)) == Ok(d)
  {
    var data := Encode(d);
    assert data[1] == BeBytes(d.sourceAddr16, 2)[0] && data[2] == BeBytes(d.sourceAddr16, 2)[1];
    Be16BeBytes(d.sourceAddr16);
    RxOptionsRoundTrip(d.rxOptions);
    assert data[5..] == d.data;
  }

  lemma ParseEncodeIo64(d: ApiData)
    requires d.RxPacketIo64Addr? && WellFormed(d)
    ensures Parse(Encode(d)) == Ok(d)
  {
    var data := Encode(d);
    var pre := [0x82] + BeBytes(d.sourceAddr64, 8)
      + [d.rssi, RxOptionsByte(d.rxOptions), d.samples] + IndicatorBytes(d.channelIndicator);
    assert data == pre + SamplesEncoding(d.digitalSamples, d.analogSamples);
    assert data[1..9] == BeBytes(d.sourceAddr64, 8);
    Be64BeBytes(d.sourceAddr64);
    RxOptionsRoundTrip(d.rxOptions);
    ChannelIndicatorRoundTrip(d.channelIndicator);
    assert IndicatorBefore(data, 14) == d.channelIndicator;
    ReadIoSamplesOf(pre, d.channelIndicator, d.digitalSamples, d.analogSamples);
  }

  lemma ParseEncodeIo16(d: ApiData)
    requires d.RxPacketIo16Addr? && WellFormed(d)
    ensures Parse(Encode(d)) == Ok(d)
  {
    var data := Encode(d);
    var pre := [0x83] + BeBytes(d.sourceAddr16, 2)
      + [d.rssi, RxOptionsByte(d.rxOptions), d.samples] + IndicatorBytes(d.channelIndicator);
    assert data == pre + SamplesEncoding(d.digitalSamples, d.analogSamples);
    assert data[1] == BeBytes(d.sourceAddr16, 2)[0] && data[2] == BeBytes(d.sourceAddr16, 2)[1];
    Be16BeBytes(d.sourceAddr16);
    RxOptionsRoundTrip(d.rxOptions);
    ChannelIndicatorRoundTrip(d.channelIndicator);
    assert IndicatorBefore(data, 8) == d.channelIndicator;
    ReadIoSamplesOf(pre, d.channelIndicator, d.digitalSamples, d.analogSamples);
  }

  lemma ParseEncodeAtResponse(d: ApiData)
    requires d.AtCommandResponse? && WellFormed(d)
    ensures Parse(Encode(d)) == Ok(d)
  {
    var data := Encode(d);
    assert data[2..4] == d.atCmd;
    Status.AtStatusRoundTrip(d.atStatus);
    assert data[5..] == d.data;
  }

  lemma ParseEncodeRemoteAtResponse(d: ApiData)
    requires d.RemoteAtCommandResponse?
    ensures Parse(Encode(d)) == Ok(d)
  {
    var data := Encode(d);
    assert data[2..10] == BeBytes(d.sourceAddr64, 8);
    Be64BeBytes(d.sourceAddr64);
    assert data[10] == BeBytes(d.sourceAddr16, 2)[0] && data[11] == BeBytes(d.sourceAddr16, 2)[1];
    Be16BeBytes(d.sourceAddr16);
    assert data[12..14] == d.atCmd;
    Status.AtStatusRoundTrip(d.atStatus);
    assert data[15..] == d.data;
  }

  /** Every well-formed record is decoded back from its encoding. */
  lemma ParseEncode(d: ApiData)
    requires WellFormed(d)
    ensures Parse(Encode(d)) == Ok(d)
  {
    match d
    case TxRequest64Addr(_, _, _, _) => ParseEncodeTx64(d);
    case TxRequest16Addr(_, _, _, _) => ParseEncodeTx16(d);
    case AtCommand(_, _, _) => ParseEncodeAtCommand(d);
    case AtCommandQueueParam(_, _, _) => ParseEncodeAtCommand(d);
    case RemoteAtCommand(_, _, _, _, _) => ParseEncodeRemoteAtCommand(d);
    case RxPacket64Addr(_, _, _, _) => ParseEncodeRx64(d);
    case RxPacket16Addr(_, _, _, _) => ParseEncodeRx16(d);
    case RxPacketIo64Addr(_, _, _, _, _, _, _) => ParseEncodeIo64(d);
    case RxPacketIo16Addr(_, _, _, _, _, _, _) => ParseEncodeIo16(d);
    case AtCommandResponse(_, _, _, _) => ParseEncodeAtResponse(d);
    case TxStatus(_, st) => Status.TxStatusRoundTrip(st);
    case ModemStatus(st) => Status.ModemStatusRoundTrip(st);
    case RemoteAtCommandResponse(_, _, _, _, _, _) => ParseEncodeRemoteAtResponse(d);
  }

  /** Every record `parse` produces is well-formed, so it survives re-encoding. */
  lemma ParseWellFormed(data: seq<u8>)
    requires Parse(data).Ok?
    ensures WellFormed(Parse(data).value)
    ensures Parse(Encode(Parse(data).value)) == Parse(data)
  {
    var d := Parse(data).value;
    if d.RxPacketIo64Addr? || d.RxPacketIo16Addr? {
      var pos := if d.RxPacketIo64Addr? then 14 else 8;
      var s := ReadIoSamples(data, pos, IndicatorBefore(data, pos));
      assert s.Ok? && s.value == (d.digitalSamples, d.analogSamples);
    }
    ParseEncode(d);
  }

  /** A record with nothing past its fixed fields: no data, no parameters and no samples. */
  predicate FixedFieldsOnly(d: ApiData) {
    match d
    case AtCommand(_, _, p) => p == []
    case AtCommandQueueParam(_, _, p) => p == []
    case RemoteAtCommand(_, _, _, _, p) => p == []
    case RxPacketIo64Addr(_, _, _, _, _, dig, an) => SamplesEncoding(dig, an) == []
    case RxPacketIo16Addr(_, _, _, _, _, dig, an) => SamplesEncoding(dig, an) == []
    case TxStatus(_, _) => true
    case ModemStatus(_) => true
    case _ => d.data == []
  }

  /**
   * Each arm's length guard admits exactly the payloads long enough for the
   * fields the arm reads unconditionally: the shortest encoding of its kind
   * and anything longer, or for the two status kinds that length only.
   */
  lemma LengthGuardIsFixedLength(d: ApiData)
    requires FixedFieldsOnly(d)
    ensures forall n: nat :: LengthGuard(FrameType(d), n) <==>
      if d.TxStatus? || d.ModemStatus? then n == |Encode(d)| else n >= |Encode(d)|
  {
    match d
    case TxRequest64Addr(_, _, _, _) => assert |Encode(d)| == 11;
    case TxRequest16Addr(_, _, _, _) => assert |Encode(d)| == 5;
    case AtCommand(_, _, _) => assert |Encode(d)| == 4;
    case AtCommandQueueParam(_, _, _) => assert |Encode(d)| == 4;
    case RemoteAtCommand(_, _, _, _, _) => assert |Encode(d)| == 14;
    case RxPacket64Addr(_, _, _, _) => assert |Encode(d)| == 11;
    case RxPacket16Addr(_, _, _, _) => assert |Encode(d)| == 5;
    case RxPacketIo64Addr(_, _, _, _, _, _, _) => assert |Encode(d)| == 14;
    case RxPacketIo16Addr(_, _, _, _, _, _, _) => assert |Encode(d)| == 8;
    case AtCommandResponse(_, _, _, _) => assert |Encode(d)| == 5;
    case TxStatus(_, _) => assert |Encode(d)| == 3;
    case ModemStatus(_) => assert |Encode(d)| == 2;
    case RemoteAtCommandResponse(_, _, _, _, _, _) => assert |Encode(d)| == 15;
  }
}
