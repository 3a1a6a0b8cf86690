/** The parse vectors of the crate's own tests, plus the edge cases the guards create. */
module ParseExamples {
  import opened Bytes
  import opened Wrappers
  import opened Flags
  import Status
  import opened FrameContent

  /** `ATNH` with frame id 0x52 and no parameter. */
  lemma ParseAtCommandNh()
    ensures Parse([0x08, 0x52, 0x4E, 0x48]) == Ok(AtCommand(0x52, [0x4E, 0x48], []))
  {
    var data: seq<u8> := [0x08, 0x52, 0x4E, 0x48];
    assert data[2..4] == [0x4E, 0x48];
    assert data[4..] == [];
  }

  /** `ATDL` with frame id 0x4D and a four-byte parameter. */
  lemma ParseAtCommandDl()
    ensures Parse([0x08, 0x4D, 0x44, 0x4C, 0x00, 0x00, 0x0F, 0xFF])
         == Ok(AtCommand(0x4D, [0x44, 0x4C], [0x00, 0x00, 0x0F, 0xFF]))
  {
    var data: seq<u8> := [0x08, 0x4D, 0x44, 0x4C, 0x00, 0x00, 0x0F, 0xFF];
    assert data[2..4] == [0x44, 0x4C];
    assert data[4..] == [0x00, 0x00, 0x0F, 0xFF];
  }

  /** A local `ATBD` response with status OK and no data. */
  lemma ParseAtResponseBd()
    ensures Parse([0x88, 0x01, 0x42, 0x44, 0x00])
         == Ok(AtCommandResponse(0x01, [0x42, 0x44], Status.AtCommandStatus.Ok, []))
  {
    var data: seq<u8> := [0x88, 0x01, 0x42, 0x44, 0x00];
    assert data[2..4] == [0x42, 0x44];
    assert data[5..] == [];
    assert Status.LocalAtStatus(0x00) == Status.AtCommandStatus.Ok;
  }

  lemma ParseTxStatusStandard()
    ensures Parse([0x89, 0x01, 0x00]) == Ok(TxStatus(0x01, Status.TxStatus.Standard))
  {
  }

  lemma ParseModemStatusHardwareReset()
    ensures Parse([0x8A, 0x00]) == Ok(ModemStatus(Status.ModemStatus.HardwareReset))
  {
  }

  /** The exact-length kinds reject one byte more or less. */
  lemma ParseStatusLengthsAreExact()
    ensures Parse([0x89, 0x01]) == Err(Rejected)
    ensures Parse([0x89, 0x01, 0x00, 0x00]) == Err(Rejected)
    ensures Parse([0x8A]) == Err(Rejected)
    ensures Parse([0x8A, 0x00, 0x00]) == Err(Rejected)
  {
  }

  /** Status code 4 is `NoResponse` only in a remote response; locally it is `Unknown`. */
  lemma StatusFourDependsOnFrameType()
    ensures Parse([0x88, 0x01, 0x42, 0x44, 0x04]).Ok?
    ensures Parse([0x88, 0x01, 0x42, 0x44, 0x04]).value.atStatus == Status.AtCommandStatus.Unknown
    ensures var data: seq<u8> := [0x97, 0x01, 0, 0, 0, 0, 0, 0, 0, 0, 0, 0, 0x42, 0x44, 0x04];
      Parse(data).Ok? && Parse(data).value.atStatus == Status.AtCommandStatus.NoResponse
  {
  }

  /**
   * An IO frame whose indicator announces A0 (0x0200) but whose payload
   * stops before the sample panics rather than returning an error.
   */
  lemma ParseShortIoFramePanics()
    ensures Parse([0x83, 0x00, 0x01, 0x28, 0x00, 0x01, 0x02, 0x00]) == Err(Panicked)
  {
    var data: seq<u8> := [0x83, 0x00, 0x01, 0x28, 0x00, 0x01, 0x02, 0x00];
    assert Word16(0x02, 0x00) == 0x0200;
    var c := IndicatorBefore(data, 8);
    assert c.bits == 0x0200;
    assert SlotPresent(c, 1);
    assert SampleBytes(c) >= 2;
  }

  /**
   * With only D0 enabled no digital word is read, because the digital
   * word needs all nine digital channels: the D0 sample that follows the
   * indicator is dropped.
   */
  lemma ParseSingleDigitalChannel()
    ensures var data: seq<u8> := [0x83, 0x00, 0x01, 0x28, 0x00, 0x01, 0x00, 0x01, 0x00, 0x01];
      Parse(data) == Ok(RxPacketIo16Addr(0x0001, 0x28, RxOptions(0), 0x01, ChannelIndicator(0x0001),
                                         None, [None, None, None, None]))
  {
    var data: seq<u8> := [0x83, 0x00, 0x01, 0x28, 0x00, 0x01, 0x00, 0x01, 0x00, 0x01];
    assert Word16(0x00, 0x01) == 0x0001;
    var c := IndicatorBefore(data, 8);
    assert c == ChannelIndicator(0x0001);
    assert !ContainsDigital(c);
  }

  /** The record above re-encodes to the first eight bytes only: the trailing sample is not part of it. */
  lemma ReencodeSingleDigitalChannel()
    ensures Encode(RxPacketIo16Addr(0x0001, 0x28, RxOptions(0), 0x01, ChannelIndicator(0x0001),
                                    None, [None, None, None, None]))
         == [0x83, 0x00, 0x01, 0x28, 0x00, 0x01, 0x00, 0x01]
  {
    assert IndicatorBytes(ChannelIndicator(0x0001)) == [0x00, 0x01];
    assert BeBytes(0x0001, 2) == [0x00, 0x01];
    assert SamplesEncoding(None, [None, None, None, None]) == [];
  }

  /**
   * Option bits the crate does not name are dropped: 0xFF keeps only
   * DISABLE_ACK and PAN broadcast, and re-encoding gives 0x05 back.
   */
  lemma ParseMasksReservedOptionBits()
    ensures Parse([0x01, 0x05, 0x12, 0x34, 0xFF, 0xAA])
         == Ok(TxRequest16Addr(0x05, 0x1234, TxOptions(0x05), [0xAA]))
    ensures Encode(TxRequest16Addr(0x05, 0x1234, TxOptions(0x05), [0xAA]))
         == [0x01, 0x05, 0x12, 0x34, 0x05, 0xAA]
  {
    var data: seq<u8> := [0x01, 0x05, 0x12, 0x34, 0xFF, 0xAA];
    assert data[5..] == [0xAA];
    assert BeBytes(0x1234, 2) == [0x12, 0x34];
  }

  /** An unlisted transmit status decodes to `Unknown`, which re-encodes as its own code 0x75. */
  lemma ParseUnknownTxStatus()
    ensures Parse([0x89, 0x01, 0x50]) == Ok(TxStatus(0x01, Status.TxStatus.Unknown))
    ensures Encode(TxStatus(0x01, Status.TxStatus.Unknown)) == [0x89, 0x01, 0x75]
  {
  }

  /** The three reserved bits of an indicator are dropped, so 0xE000 announces no channel. */
  lemma ParseDropsReservedIndicatorBits()
    ensures var data: seq<u8> := [0x83, 0x00, 0x01, 0x28, 0x00, 0x01, 0xE0, 0x00];
      Parse(data) == Ok(RxPacketIo16Addr(0x0001, 0x28, RxOptions(0), 0x01, ChannelIndicator(0),
                                         None, [None, None, None, None]))
  {
    var data: seq<u8> := [0x83, 0x00, 0x01, 0x28, 0x00, 0x01, 0xE0, 0x00];
    assert Word16(0xE0, 0x00) == 0xE000;
    var c := IndicatorBefore(data, 8);
    assert c == ChannelIndicator(0);
    assert !ContainsDigital(c);
  }

  /** The record above re-encodes with the reserved indicator bits cleared. */
  lemma ReencodeClearedIndicator()
    ensures Encode(RxPacketIo16Addr(0x0001, 0x28, RxOptions(0), 0x01, ChannelIndicator(0),
                                    None, [None, None, None, None]))
         == [0x83, 0x00, 0x01, 0x28, 0x00, 0x01, 0x00, 0x00]
  {
    assert IndicatorBytes(ChannelIndicator(0)) == [0x00, 0x00];
    assert BeBytes(0x0001, 2) == [0x00, 0x01];
    assert SamplesEncoding(None, [None, None, None, None]) == [];
  }
}
