/** The crate's transmit-request and packing vectors, end to end through both state machines. */
module TxExamples {
  import opened Bytes
  import opened Wrappers
  import opened Flags
  import XBee
  import opened FrameContent
  import ContentRoundTrip
  import opened FramePacking
  import opened TxRequest

  /** The ASCII bytes of "Testing". */
  const TESTING: seq<u8> := [0x54, 0x65, 0x73, 0x74, 0x69, 0x6E, 0x67]

  /** The transmit request of the tests: frame id 1, a long address, no options, "Testing". */
  const REQUEST: seq<u8> := HEADER + TESTING

  /** Type 0x00, frame id 1, the long address 0x0013A200415D1DBB and option byte 0. */
  const HEADER: seq<u8> := [0x00, 0x01, 0x00, 0x13, 0xA2, 0x00, 0x41, 0x5D, 0x1D, 0xBB, 0x00]

  /** The long address of the tests, sent most significant byte first. */
  lemma TestAddressBytes()
    ensures BeBytes(0x0013_A200_415D_1DBB, 8) == [0x00, 0x13, 0xA2, 0x00, 0x41, 0x5D, 0x1D, 0xBB]
  {
    assert BeBytes(0x0013, 2) == [0x00, 0x13];
    assert BeBytes(0x0013_A2, 3) == [0x00, 0x13, 0xA2];
    assert BeBytes(0x0013_A200, 4) == [0x00, 0x13, 0xA2, 0x00];
    assert BeBytes(0x0013_A200_41, 5) == [0x00, 0x13, 0xA2, 0x00, 0x41];
    assert BeBytes(0x0013_A200_415D, 6) == [0x00, 0x13, 0xA2, 0x00, 0x41, 0x5D];
    assert BeBytes(0x0013_A200_415D_1D, 7) == [0x00, 0x13, 0xA2, 0x00, 0x41, 0x5D, 0x1D];
  }

  /** Draining the encoder for the test request yields the bytes the test expects. */
  method CreateTxRequest() returns (out: seq<u8>)
    ensures out == REQUEST
  {
    out := TxRequestBytes(0x01, XBee.Long(0x0013_A200_415D_1DBB), TxOptions(0), TESTING);
    TestAddressBytes();
  }

  /** The checksum of the test request: its bytes add up to 1290, which is 0x0A modulo 256. */
  lemma RequestChecksum()
    ensures Checksum(REQUEST) == 0xF5
  {
    SumOfHeader();
    SumOfTesting();
    ChecksumOfParts(HEADER, TESTING);
  }

  /** A payload made of a part summing to 556 and one summing to 734 has checksum 0xF5. */
  lemma ChecksumOfParts(h: seq<u8>, t: seq<u8>)
    requires Sum(h) == 556 && Sum(t) == 734
    ensures Checksum(h + t) == 0xF5
  {
    SumAppend(h, t);
  }

  lemma SumOfHeader()
    ensures Sum(HEADER) == 556
  {
    var h1: seq<u8> := [0x00, 0x01, 0x00, 0x13, 0xA2, 0x00];
    var h2: seq<u8> := [0x41, 0x5D, 0x1D, 0xBB, 0x00];
    assert Sum(h1) == 182;
    assert Sum(h2) == 374;
    assert HEADER == h1 + h2;
    SumAppend(h1, h2);
  }

  lemma SumOfTesting()
    ensures Sum(TESTING) == 734
  {
    var t1: seq<u8> := [0x54, 0x65, 0x73];
    var t2: seq<u8> := [0x74, 0x69, 0x6E, 0x67];
    assert Sum(t1) == 300;
    assert Sum(t2) == 434;
    assert TESTING == t1 + t2;
    SumAppend(t1, t2);
  }

  /** Packing the test request gives the test's frame: length 0x0012 and checksum 0xF5. */
  method PackTxRequest() returns (r: Result<seq<u8>, ApiPackError>)
    ensures r == Ok([0x7E, 0x00, 0x12] + REQUEST + [0xF5])
  {
    var content := CreateTxRequest();
    r := PackFrame(content);
    RequestChecksum();
  }

  /** Every transmit request the encoder produces parses back to the request it was built from. */
  lemma TxRequestParses(frameId: u8, addr: XBee.Addr, options: TxOptions, data: seq<u8>)
    ensures Parse(Encode(RequestData(frameId, addr, options, data))) == Ok(RequestData(frameId, addr, options, data))
  {
    ContentRoundTrip.ParseEncode(RequestData(frameId, addr, options, data));
  }
}
