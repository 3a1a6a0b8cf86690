/**
 * The transmit path of the API-mode driver: `send_data` and
 * `send_data_no_ack` wrap a transmit-request encoder in a frame packer and
 * write every byte it yields. Here the written bytes are the result; the
 * serial port itself is not modelled.
 */
module Send {
  import opened Bytes
  import opened Wrappers
  import opened Flags
  import XBee
  import opened FrameContent
  import opened TxRequest
  import opened FramePacking
  import FrameUnpacking
  import ContentRoundTrip

  /** The options of a send: none for `send_data`, DISABLE_ACK for `send_data_no_ack`. */
  function SendOptions(ack: bool): (o: TxOptions)
    ensures o.Contains(DISABLE_ACK) <==> !ack
    ensures !o.Contains(TX_PAN_BROADCAST)
  {
    if ack then TxOptions(0) else TxOptions(DISABLE_ACK)
  }

  /**
   * `send_data` (`ack`) and `send_data_no_ack`: the bytes written are the
   * frame of the transmit request. A request too long for the frame's
   * length field makes the packer fail, on which the driver panics.
   */
  method SendData(frameId: u8, addr: XBee.Addr, data: seq<u8>, ack: bool)
    returns (r: Result<seq<u8>, ApiPackError>)
    ensures var req := RequestData(frameId, addr, SendOptions(ack), data);
      3 + AddrWidth(addr) + |data| <= 0xFFFF ==> r == Ok(Frame(Encode(req)))
    ensures 3 + AddrWidth(addr) + |data| > 0xFFFF ==> r == Err(TooLong)
  {
    var content := TxRequestBytes(frameId, addr, SendOptions(ack), data);
    r := PackFrame(content);
  }

  /**
   * What the module receives back from a send: one whole frame whose
   * payload parses to the transmit request that was sent.
   */
  lemma SentFrameDecodes(frameId: u8, addr: XBee.Addr, options: TxOptions, data: seq<u8>)
    requires 3 + AddrWidth(addr) + |data| <= 0xFFFF
    ensures var req := RequestData(frameId, addr, options, data);
      && FrameUnpacking.UnpackFrame(Frame(Encode(req)), false) == Ok((Encode(req), []))
      && Parse(Encode(req)) == Ok(req)
  {
    var req := RequestData(frameId, addr, options, data);
    assert |Encode(req)| == 3 + AddrWidth(addr) + |data|;
    FrameUnpacking.UnpackPackedFrame(Encode(req), []);
    assert Frame(Encode(req)) + [] == Frame(Encode(req));
    ContentRoundTrip.ParseEncode(req);
  }
}
