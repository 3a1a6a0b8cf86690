/**
 * The three bit-flag sets of the frame grammar. Each keeps its raw bits;
 * decoding truncates to the known bits rather than rejecting unknown ones,
 * and "contains" means every bit of the argument is set.
 */
module Flags {
  import opened Bytes

  const DISABLE_ACK: bv8 := 0x01
  const TX_PAN_BROADCAST: bv8 := 0x04
  /** Every bit a TxOptions value may hold. */
  const TX_KNOWN: bv8 := 0x05

  const ADDR_BROADCAST: bv8 := 0x02
  const RX_PAN_BROADCAST: bv8 := 0x04
  /** Every bit an RxOptions value may hold. */
  const RX_KNOWN: bv8 := 0x06

  const A3: bv16 := 0x1000
  const A2: bv16 := 0x0800
  const A1: bv16 := 0x0400
  const A0: bv16 := 0x0200
  const D8: bv16 := 0x0100
  const D7: bv16 := 0x0080
  const D6: bv16 := 0x0040
  const D5: bv16 := 0x0020
  const D4: bv16 := 0x0010
  const D3: bv16 := 0x0008
  const D2: bv16 := 0x0004
  const D1: bv16 := 0x0002
  const D0: bv16 := 0x0001
  /** D0 | D1 | ... | D8. */
  const DIGITAL: bv16 := 0x01FF
  /** Every bit a ChannelIndicator value may hold; the top three are reserved. */
  const INDICATOR_KNOWN: bv16 := 0x1FFF

  type TxBits = b: bv8 | b & !TX_KNOWN == 0
  type RxBits = b: bv8 | b & !RX_KNOWN == 0
  type IndicatorBits = b: bv16 | b & !INDICATOR_KNOWN == 0

  datatype TxOptions = TxOptions(bits: TxBits) {
    predicate Contains(flags: bv8) { bits & flags == flags }
  }

  datatype RxOptions = RxOptions(bits: RxBits) {
    predicate Contains(flags: bv8) { bits & flags == flags }
  }

  datatype ChannelIndicator = ChannelIndicator(bits: IndicatorBits) {
    predicate Contains(flags: bv16) { bits & flags == flags }
  }

  /** The byte value of a bit set, as emitted on the wire. */
  function TxOptionsByte(o: TxOptions): u8 {
    o.bits as int
  }

  /**
   * `TxOptions::from_bits_truncate`: each known flag is set iff the byte
   * has it; a byte with only known bits is kept as it is.
   */
  function TxOptionsFromBitsTruncate(b: u8): (o: TxOptions)
    ensures o.Contains(DISABLE_ACK) <==> (b as bv8) & DISABLE_ACK != 0
    ensures o.Contains(TX_PAN_BROADCAST) <==> (b as bv8) & TX_PAN_BROADCAST != 0
    ensures (b as bv8) & !TX_KNOWN == 0 ==> TxOptionsByte(o) == b
  {
    TxOptions((b as bv8) & TX_KNOWN)
  }

  /** `RxOptions::from_bits_truncate`, as for TxOptions. */
  function RxOptionsFromBitsTruncate(b: u8): (o: RxOptions)
    ensures o.Contains(ADDR_BROADCAST) <==> (b as bv8) & ADDR_BROADCAST != 0
    ensures o.Contains(RX_PAN_BROADCAST) <==> (b as bv8) & RX_PAN_BROADCAST != 0
    ensures (b as bv8) & !RX_KNOWN == 0 ==> o.bits as int == b
  {
    RxOptions((b as bv8) & RX_KNOWN)
  }

  function RxOptionsByte(o: RxOptions): u8 {
    o.bits as int
  }

  /** Emitting an option set as a byte and truncating it back gives the same set. */
  lemma TxOptionsRoundTrip(o: TxOptions)
    ensures TxOptionsFromBitsTruncate(TxOptionsByte(o)) == o
  {
    ByteBitsRoundTrip(o.bits);
  }

  lemma RxOptionsRoundTrip(o: RxOptions)
    ensures RxOptionsFromBitsTruncate(RxOptionsByte(o)) == o
  {
    ByteBitsRoundTrip(o.bits);
  }

  /** `((hi as u16) << 8) | (lo as u16)`, as a bit vector. */
  function Word16(hi: u8, lo: u8): bv16 {
    (((hi as bv8) as bv16) << 8) | ((lo as bv8) as bv16)
  }

  /** The high and the low byte of a 16-bit word. */
  function HighByte(w: bv16): u8 {
    ((w >> 8) as bv8) as int
  }

  function LowByte(w: bv16): u8 {
    ((w & 0xFF) as bv8) as int
  }

  lemma ByteBitsRoundTrip(b: bv8)
    ensures (b as int) as bv8 == b
  {
  }

  /** Splitting a word into its bytes and joining them again gives it back. */
  lemma Word16RoundTrip(w: bv16)
    ensures Word16(HighByte(w), LowByte(w)) == w
  {
    Word16OfBits((w >> 8) as bv8, (w & 0xFF) as bv8);
  }

  /**
   * A byte value survives the trip through `bv8`. The empty case split on the
   * highest set bit is only a hint to the solver, which otherwise proves this
   * conversion slowly and unevenly.
   */
  lemma IntByteRoundTrip(x: nat)
    requires x < 0x100
    ensures (x as bv8) as int == x
  {
    if x < 0x10 { } else if x < 0x20 { } else if x < 0x40 { } else if x < 0x80 { } else { }
  }

  /** `Word16` is `Be16` on bit vectors: both read `hi` as the more significant byte. */
  lemma Word16IsBe16(hi: u8, lo: u8)
    ensures Word16(hi, lo) as int == Be16(hi, lo)
  {
    var h, l := hi as bv8, lo as bv8;
    Word16Of(hi, lo, h, l);
    ShiftOrIsSum(h, l);
    WideSumAsInt(h, l);
    IntByteRoundTrip(hi);
    IntByteRoundTrip(lo);
  }

  /** `HighByte` and `LowByte` are the two big-endian bytes of the word's value. */
  lemma WordBytesAreBeBytes(w: bv16)
    ensures [HighByte(w), LowByte(w)] == BeBytes(w as int, 2)
  {
    Word16RoundTrip(w);
    Word16IsBe16(HighByte(w), LowByte(w));
    Be16IsBeValue([HighByte(w), LowByte(w)]);
    BeBytesBeValue([HighByte(w), LowByte(w)]);
  }

  lemma ShiftOrIsSum(h: bv8, l: bv8)
    ensures ((h as bv16) << 8) | (l as bv16) == (h as bv16) * 0x100 + (l as bv16)
  {
  }

  lemma WideSumAsInt(h: bv8, l: bv8)
    ensures ((h as bv16) * 0x100 + (l as bv16)) as int == (h as int) * 0x100 + (l as int)
  {
    assert (h as bv16) as int == h as int;
    assert (l as bv16) as int == l as int;
  }

  lemma Word16OfBits(h: bv8, l: bv8)
    ensures Word16(h as int, l as int) == ((h as bv16) << 8) | (l as bv16)
  {
    ByteBitsRoundTrip(h);
    ByteBitsRoundTrip(l);
    Word16Of(h as int, l as int, h, l);
  }

  lemma Word16Of(hi: u8, lo: u8, h: bv8, l: bv8)
    requires hi as bv8 == h && lo as bv8 == l
    ensures Word16(hi, lo) == ((h as bv16) << 8) | (l as bv16)
  {
  }

  /**
   * `ChannelIndicator::from_bits_truncate`: the reserved top three bits are
   * dropped and the thirteen channel bits kept.
   */
  function ChannelIndicatorFromBitsTruncate(w: bv16): (c: ChannelIndicator)
    ensures c.bits & INDICATOR_KNOWN == w & INDICATOR_KNOWN
    ensures w & !INDICATOR_KNOWN == 0 ==> c.bits == w
  {
    MaskKeepsKnownBits(w);
    ChannelIndicator(w & INDICATOR_KNOWN)
  }

  /** Masking with the known bits keeps them, clears the reserved ones, and changes nothing already clear. */
  lemma MaskKeepsKnownBits(w: bv16)
    ensures (w & INDICATOR_KNOWN) & INDICATOR_KNOWN == w & INDICATOR_KNOWN
    ensures (w & INDICATOR_KNOWN) & !INDICATOR_KNOWN == 0
    ensures w & !INDICATOR_KNOWN == 0 ==> w & INDICATOR_KNOWN == w
  {
  }

  /**
   * The converse: an indicator read from two wire bytes gives back its low
   * byte unchanged and its high byte without the three reserved bits.
   */
  lemma IndicatorBytesOfWord(hi: u8, lo: u8)
    ensures HighByte(ChannelIndicatorFromBitsTruncate(Word16(hi, lo)).bits) == ((hi as bv8) & 0x1F) as int
    ensures LowByte(ChannelIndicatorFromBitsTruncate(Word16(hi, lo)).bits) == lo
  {
    Word16Of(hi, lo, hi as bv8, lo as bv8);
    MaskedWordBytes(hi as bv8, lo as bv8);
    IntByteRoundTrip(lo);
  }

  lemma MaskedWordBytes(h: bv8, l: bv8)
    ensures var m := (((h as bv16) << 8) | (l as bv16)) & INDICATOR_KNOWN;
      (m >> 8) as bv8 == h & 0x1F && (m & 0xFF) as bv8 == l
  {
  }

  /** An indicator sent as its two bytes and truncated back is the same indicator. */
  lemma ChannelIndicatorRoundTrip(c: ChannelIndicator)
    ensures ChannelIndicatorFromBitsTruncate(Word16(HighByte(c.bits), LowByte(c.bits))) == c
  {
    Word16RoundTrip(c.bits);
  }

  /**
   * `contains_digital`: uses `contains` on the union of D0..D8, so it holds
   * only when all nine digital channels are enabled, not when any one is.
   */
  function ContainsDigital(c: ChannelIndicator): (r: bool)
    ensures r <==>
      && c.bits & D0 != 0 && c.bits & D1 != 0 && c.bits & D2 != 0
      && c.bits & D3 != 0 && c.bits & D4 != 0 && c.bits & D5 != 0
      && c.bits & D6 != 0 && c.bits & D7 != 0 && c.bits & D8 != 0
  {
    c.Contains(D0 | D1 | D2 | D3 | D4 | D5 | D6 | D7 | D8)
  }

  /** An indicator with some but not all digital channels enabled announces no digital word. */
  lemma ContainsDigitalNeedsAllNine(c: ChannelIndicator)
    requires c.bits & DIGITAL != 0 && c.bits & DIGITAL != DIGITAL
    ensures !ContainsDigital(c)
  {
  }
}
