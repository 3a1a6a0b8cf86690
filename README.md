# XBee 802.15.4 API frames, modelled in Dafny

This project models the frame protocol engine of the `xbee_s2c` crate (`src/api_frame.rs`) and the `Addr`
enum of `src/lib.rs`. The engine has four parts:

- **Frame packer** (`FramePacking`). `FramePacker` is a class with a `state` field, a running `checksum`,
  and the data its wrapped iterator still has to yield. Each call of `Next` returns one byte of the frame
  `0x7E | length (big-endian u16) | payload | 0xFF - wrapping sum`. `PackFrame` drains a packer, and its
  result is proved equal to the function `Frame`.
- **Frame unpacker** (`FrameUnpacking`). `UnpackFrame` is a function returning `NoStart`, `BadLength(n)`,
  `BadChecksum(sum)` or the payload with the rest of the buffer. It is proved to invert the packer:
  `UnpackFrame(Frame(p) + rest) == Ok((p, rest))`. It is also proved to detect a corrupted payload byte
  and a corrupted checksum.
- **Content codec** (`FrameContent`, `Flags`, `Status`, `ContentRoundTrip`). `Parse` decodes a payload into
  one of the thirteen `ApiData` kinds. It dispatches on the type byte and applies that type's length guard.
  It reads big-endian fields, truncates option bytes and the channel indicator to their known bits, and
  decodes status bytes with an `Unknown` fallback. For IO frames it reads the optional samples the
  indicator announces. A reference serializer `Encode` is its partner: every well-formed record parses back
  from its encoding, and every record `Parse` returns is well-formed. The converse is proved too
  (`ContentReencode`): re-encoding what `Parse` accepted gives back the payload. The exceptions are option,
  indicator and status bytes, which come back with their unknown bits cleared or their unknown codes
  replaced, and trailing bytes after an IO frame's samples, which are dropped.
- **Transmit-request encoder** (`TxRequest`). `TxRequestIter` is a class whose `Next` yields the type byte,
  the frame id, the address most significant byte first, the option byte, and then the data. Its `Len` is
  proved to equal the number of bytes still to come. Draining it gives `Encode` of the matching
  `TxRequest64Addr` or `TxRequest16Addr` record.
- **Transmit path** (`Send`). `send_data` and `send_data_no_ack` of `src/lib.rs` chain the encoder and the
  packer. `SendData` returns the bytes they write, which form the frame of the transmit request.

The crate's own test vectors are proved as lemmas or as methods without inputs (`ParseExamples`,
`TxExamples`, `FrameUnpacking.UnpackTestVector`).

Modelling conventions:

- Bytes and wider integers are `int` subset types (`u8`, `u16`, `u64`).
- Flag sets keep their bits as `bv8`/`bv16`, restricted to the known flags.
- Where the Rust code panics, the model returns an explicit error value (`Panicked`) instead. This covers
  an `unwrap` on an exhausted iterator in `parse`. In `unpack_frame` it covers `unimplemented!()` for a
  non-empty buffer in escaped mode, and `split_at(2)` on a 1-2 byte buffer that starts with 0x7E.

In IO frames the digital sample word is read only when all nine digital channels D0..D8 are enabled.
`contains_digital` (`src/api_frame.rs:176-190`) calls `contains` on the union D0 | ... | D8, and
`contains` holds only when every bit of its argument is set. `Flags.ContainsDigitalNeedsAllNine` and
`ParseExamples.ParseSingleDigitalChannel` state the consequence: with only D0 enabled, no digital word
is read.

## Model

| member | source | states |
|---|---|---|
| Bytes.WrappingSum | src/api_frame.rs:131 | the `wrapping_add` fold of a slice is the arithmetic sum of its bytes modulo 256 |
| Bytes.WrappingSumDetectsChange | src/api_frame.rs:131-136 | changing any one byte of a payload changes its wrapping sum |
| Bytes.BeValueBeBytes | src/api_frame.rs:389-397 | reading n big-endian bytes written from a value below 256^n gives the value back |
| Bytes.BeBytesBeValue | src/api_frame.rs:389-397 | writing the big-endian value of n bytes in n bytes gives the bytes back |
| Bytes.BeBytesAt | src/api_frame.rs:716-724 | byte k of the n-byte big-endian form of a is `(a >> 8*(n-1-k)) as u8` |
| Bytes.Be16BeBytes | src/api_frame.rs:409-410 | a u16 written as two big-endian bytes reads back as itself |
| Bytes.Be64BeBytes | src/api_frame.rs:389-397 | a u64 written as eight big-endian bytes reads back as itself |
| Bytes.Be16IsBeValue | src/api_frame.rs:409-410 | two bytes read as high byte times 256 plus low byte give their general big-endian value |
| FramePacking.Checksum | src/api_frame.rs:84 | the checksum byte added to the wrapping sum of the payload gives 0xFF |
| FramePacking.Frame | src/api_frame.rs:65-90 | a frame is start byte, big-endian length, the payload, then the checksum: `len + 4` bytes |
| FramePacking.FramePacker.Remaining | src/api_frame.rs:65-90 | bytes already emitted followed by those still to come are the whole frame; nothing remains exactly in state Done |
| FramePacking.FramePacker.Init | src/api_frame.rs:49-54 | a new packer is in state Start with checksum 0 and the whole payload still to read |
| FramePacking.FramePacker.New | src/api_frame.rs:39-55 | an empty input gives `TooShort`, more than 65535 bytes gives `TooLong`, otherwise a fresh packer in state Start with checksum 0 |
| FramePacking.FramePacker.Next | src/api_frame.rs:65-90 | each call returns the next byte of `Frame(payload)` and moves past it; once Done it returns None forever |
| FramePacking.FramePacker.NextHeader | src/api_frame.rs:66-77 | the marker and then the length high and low byte are returned, each the next frame byte, moving Start to LenH to LenL to Data |
| FramePacking.FramePacker.NextData | src/api_frame.rs:78-86 | each payload byte is returned and added to the running checksum; after the last one, `0xFF - checksum` closes the frame and the state becomes Done |
| FramePacking.PackFrame | src/api_frame.rs:39-90 | draining a packer yields exactly `Frame(data)`, or the error `new` returns |
| FrameUnpacking.UnpackFrame | src/api_frame.rs:103-137 | an empty buffer, or outside escaped mode one not starting with 0x7E, gives `NoStart`; `BadLength(3 + len + 1)` iff fewer than `len + 1` bytes follow the header; otherwise the payload is bytes `3..3+len`, the rest follows the checksum, and it succeeds iff checksum plus payload sum is 0xFF, else `BadChecksum(sum)`; a non-empty buffer in escaped mode, or a 1-2 byte buffer starting with 0x7E, panics |
| FrameUnpacking.UnpackFrameParts | src/api_frame.rs:120-136 | a buffer laid out as header, payload, checksum and rest unpacks to the payload and rest iff the checksum adds up to 0xFF, and to `BadChecksum(sum)` otherwise |
| FrameUnpacking.UnpackPackedFrame | src/api_frame.rs:65-137 | unpacking a packed frame followed by any bytes gives back the payload and those bytes |
| FrameUnpacking.UnpackBackToBack | src/api_frame.rs:128-133 | two frames back to back unpack one at a time, the remainder of the first being the second |
| FrameUnpacking.UnpackDetectsCorruptPayload | src/api_frame.rs:131-135 | a frame with one payload byte changed is refused with `BadChecksum` |
| FrameUnpacking.UnpackDetectsCorruptChecksum | src/api_frame.rs:132-135 | a frame with a wrong checksum byte is refused with `BadChecksum` |
| FrameUnpacking.UnpackTestVector | src/api_frame.rs:842-854 | the crate's unpack vector: payload `01 01 50 01 00 48 65 6C 6C 6F`, remainder `7E 01 02` |
| Flags.TxOptionsFromBitsTruncate | src/api_frame.rs:139-144 | each transmit flag is set iff the byte has its bit; a byte with only known bits is kept as it is |
| Flags.RxOptionsFromBitsTruncate | src/api_frame.rs:146-151 | each receive flag is set iff the byte has its bit; a byte with only known bits is kept as it is |
| Flags.TxOptionsRoundTrip | src/api_frame.rs:139-144 | a transmit option set sent as its byte and truncated back is unchanged |
| Flags.RxOptionsRoundTrip | src/api_frame.rs:146-151 | a receive option set sent as its byte and truncated back is unchanged |
| Flags.Word16RoundTrip | src/api_frame.rs:506-508 | splitting a 16-bit word into high and low byte and joining them gives it back |
| Flags.Word16IsBe16 | src/api_frame.rs:506-508 | joining two bytes as a 16-bit word gives the same number as reading them big-endian |
| Flags.WordBytesAreBeBytes | src/api_frame.rs:506-508 | the high and low byte of a 16-bit word are its two-byte big-endian form |
| Flags.IndicatorBytesOfWord | src/api_frame.rs:506-508 | the indicator read from two bytes has as high byte the first with its three reserved bits cleared, and as low byte the second |
| Flags.ChannelIndicatorFromBitsTruncate | src/api_frame.rs:158-174 | the indicator keeps exactly the thirteen channel bits of the word |
| Flags.ChannelIndicatorRoundTrip | src/api_frame.rs:158-174 | an indicator sent as its two bytes and truncated back is unchanged |
| Flags.ContainsDigital | src/api_frame.rs:176-190 | true iff all nine digital channels D0..D8 are enabled |
| Flags.ContainsDigitalNeedsAllNine | src/api_frame.rs:176-190 | an indicator with some but not all digital channels announces no digital word |
| Status.TxStatusFrom | src/api_frame.rs:218-231 | a byte that is some status's code decodes to that status; `Unknown` iff it is no listed code |
| Status.ModemStatusFrom | src/api_frame.rs:246-256 | a byte that is some status's code decodes to that status; `Unknown` iff it is no listed code |
| Status.LocalAtStatus | src/api_frame.rs:595-601 | bytes 0..3 decode to their status, 4 and above to `Unknown`; never `NoResponse` |
| Status.RemoteAtStatus | src/api_frame.rs:634-641 | bytes 0..4 decode to their status, 5 and above to `Unknown` |
| Status.AtStatusTablesDifferOnlyAtFour | src/api_frame.rs:592-641 | the local and remote AT status tables agree on every byte except 4 |
| Status.TxStatusRoundTrip | src/api_frame.rs:202-231 | every transmit status, `Unknown` included, decodes back from its discriminant |
| Status.ModemStatusRoundTrip | src/api_frame.rs:234-256 | every modem status, `Unknown` included, decodes back from its discriminant |
| Status.AtStatusRoundTrip | src/api_frame.rs:192-200 | every AT status decodes back from its discriminant in the remote table, and every one but `NoResponse` in the local table |
| ContentRoundTrip.LengthGuardIsFixedLength | src/api_frame.rs:387-621 | each arm's length guard (`> 10`, `> 4`, `> 3`, `> 3`, `> 13`, `> 10`, `> 4`, `> 13`, `> 7`, `> 4`, `== 3`, `== 2`, `> 14`) admits exactly the payloads at least as long as the arm's fixed fields, and exactly that long for the two status kinds |
| FrameContent.FrameType | src/api_frame.rs:364-380 | the type byte of each kind; it is below 0x80 exactly for the host-to-module kinds |
| FrameContent.ReadSample | src/api_frame.rs:509-513 | an absent sample reads nothing and stays at `pos`; a present one succeeds iff two bytes are left, and then gives the big-endian word `U16At(data, pos)` and advances by 2 |
| FrameContent.ReadIoSamples | src/api_frame.rs:509-534 | succeeds iff the announced sample bytes are all there; the digital word is present iff `contains_digital`, each analog sample iff its bit, each the big-endian word at its slot |
| FrameContent.ReadAnalogSamples | src/api_frame.rs:514-534 | the A0..A3 reads succeed iff all announced sample bytes are there; each analog sample is present iff its bit is set, and is the big-endian word at its slot |
| FrameContent.ParseIo64 | src/api_frame.rs:494-545 | a 0x82 payload decodes to a 64-bit IO record iff its announced samples fit, and panics otherwise |
| FrameContent.ParseIo16 | src/api_frame.rs:546-591 | a 0x83 payload decodes to a 16-bit IO record iff its announced samples fit, and panics otherwise |
| FrameContent.ParseAccepted | src/api_frame.rs:385-651 | a payload that passes its type's length guard decodes to a record of that type, unless it is an IO frame cut short, which panics |
| FrameContent.ParseOutbound | src/api_frame.rs:387-461 | the five host-to-module arms always decode, to a record of the type byte's kind |
| FrameContent.ParseInbound | src/api_frame.rs:462-651 | the module-to-host arms decode to a record of the type byte's kind, failing only on an IO frame cut short |
| FrameContent.ParseReceived | src/api_frame.rs:462-591 | the four receive arms decode to a record of the type byte's kind, failing only on an IO frame cut short |
| FrameContent.ParseReply | src/api_frame.rs:592-651 | the status and AT response arms always decode, to a record of the type byte's kind |
| FrameContent.Parse | src/api_frame.rs:382-654 | rejected iff the type is unknown or its length guard fails; panics iff empty or an IO frame cut short; on success `frame_type` of the result is the first byte |
| FrameContent.Encode | src/api_frame.rs:382-654 | the payload each record decodes from starts with its type byte and passes that type's length guard |
| ContentRoundTrip.ReadIoSamplesOf | src/api_frame.rs:506-534 | samples laid out as the indicator announces read back as themselves |
| ContentRoundTrip.ParseEncodeTx64 | src/api_frame.rs:387-405 | a 64-bit transmit request parses back from its encoding |
| ContentRoundTrip.ParseEncodeTx16 | src/api_frame.rs:407-419 | a 16-bit transmit request parses back from its encoding |
| ContentRoundTrip.ParseEncodeAtCommand | src/api_frame.rs:420-439 | an AT command, queued or not, parses back from its encoding |
| ContentRoundTrip.ParseEncodeRemoteAtCommand | src/api_frame.rs:440-461 | a remote AT command parses back from its encoding |
| ContentRoundTrip.ParseEncodeRx64 | src/api_frame.rs:462-480 | a 64-bit receive packet parses back from its encoding |
| ContentRoundTrip.ParseEncodeRx16 | src/api_frame.rs:481-493 | a 16-bit receive packet parses back from its encoding |
| ContentRoundTrip.ParseEncodeIo64 | src/api_frame.rs:494-545 | a 64-bit IO packet whose samples match its indicator parses back from its encoding |
| ContentRoundTrip.ParseEncodeIo16 | src/api_frame.rs:546-591 | a 16-bit IO packet whose samples match its indicator parses back from its encoding |
| ContentRoundTrip.ParseEncodeAtResponse | src/api_frame.rs:592-609 | a local AT response with a status other than `NoResponse` parses back from its encoding |
| ContentRoundTrip.ParseEncodeRemoteAtResponse | src/api_frame.rs:621-651 | a remote AT response parses back from its encoding |
| ContentRoundTrip.ParseEncode | src/api_frame.rs:382-654 | every well-formed record parses back from its encoding |
| ContentRoundTrip.ParseWellFormed | src/api_frame.rs:382-654 | every record `parse` returns is well-formed, and re-encoding it parses to the same record |
| ParseExamples.ParseAtCommandNh | src/api_frame.rs:774-785 | `08 52 4E 48` is AT command `NH` with frame id 0x52 and no parameter |
| ParseExamples.ParseAtCommandDl | src/api_frame.rs:788-799 | `08 4D 44 4C 00 00 0F FF` is AT command `DL` with frame id 0x4D and parameter `00 00 0F FF` |
| ParseExamples.ParseAtResponseBd | src/api_frame.rs:802-814 | `88 01 42 44 00` is an OK response to `BD` with no data |
| ParseExamples.ParseTxStatusStandard | src/api_frame.rs:817-827 | `89 01 00` is transmit status `Standard` for frame 1 |
| ParseExamples.ParseModemStatusHardwareReset | src/api_frame.rs:830-839 | `8A 00` is modem status `HardwareReset` |
| ParseExamples.ParseStatusLengthsAreExact | src/api_frame.rs:610-620 | status frames one byte too short or too long are rejected |
| ParseExamples.StatusFourDependsOnFrameType | src/api_frame.rs:592-651 | status byte 4 is `Unknown` in a local response and `NoResponse` in a remote one |
| ParseExamples.ParseShortIoFramePanics | src/api_frame.rs:546-560 | a 16-bit IO frame announcing A0 without its sample bytes panics |
| ParseExamples.ParseSingleDigitalChannel | src/api_frame.rs:546-591 | with only D0 enabled, no digital word and no analog sample is read |
| ParseExamples.ReencodeSingleDigitalChannel | src/api_frame.rs:546-591 | re-encoding that record drops the two bytes no sample claimed |
| ParseExamples.ParseMasksReservedOptionBits | src/api_frame.rs:407-419 | option byte 0xFF in a 16-bit transmit request keeps only DISABLE_ACK and PAN_BROADCAST, so it re-encodes as 0x05 |
| ParseExamples.ParseUnknownTxStatus | src/api_frame.rs:610-615 | transmit status byte 0x50 decodes to `Unknown`, which re-encodes as 0x75 |
| ParseExamples.ParseDropsReservedIndicatorBits | src/api_frame.rs:546-591 | an indicator with only reserved bits set announces no sample |
| ParseExamples.ReencodeClearedIndicator | src/api_frame.rs:546-591 | that record re-encodes with the reserved indicator bits cleared |
| ContentReencode.SamplesEncodingRead | src/api_frame.rs:509-534 | the samples read at a position re-encode to exactly the bytes they were read from |
| ContentReencode.ReencodeTx64 | src/api_frame.rs:387-406 | a parsed 64-bit transmit request re-encodes to its payload, the option byte cut to its known bits |
| ContentReencode.ReencodeTx16 | src/api_frame.rs:407-419 | a parsed 16-bit transmit request re-encodes to its payload, the option byte cut to its known bits |
| ContentReencode.ReencodeAtCommand | src/api_frame.rs:420-439 | a parsed AT command, queued or not, re-encodes to its payload |
| ContentReencode.ReencodeRemoteAtCommand | src/api_frame.rs:440-461 | a parsed remote AT command re-encodes to its payload |
| ContentReencode.ReencodeRx64 | src/api_frame.rs:462-480 | a parsed 64-bit receive packet re-encodes to its payload, the option byte cut to its known bits |
| ContentReencode.ReencodeRx16 | src/api_frame.rs:481-493 | a parsed 16-bit receive packet re-encodes to its payload, the option byte cut to its known bits |
| ContentReencode.ReencodeIo64 | src/api_frame.rs:494-545 | a parsed 64-bit IO packet re-encodes to its payload up to the last announced sample, option and indicator bytes cut to their known bits |
| ContentReencode.ReencodeIo16 | src/api_frame.rs:546-591 | a parsed 16-bit IO packet re-encodes to its payload up to the last announced sample, option and indicator bytes cut to their known bits |
| ContentReencode.ReencodeAtResponse | src/api_frame.rs:592-609 | a parsed local AT response re-encodes to its payload, status bytes 4 and above becoming `Unknown`'s code |
| ContentReencode.ReencodeStatus | src/api_frame.rs:610-620 | a parsed transmit or modem status re-encodes to its payload, an unlisted status byte becoming `Unknown`'s code |
| ContentReencode.ReencodeRemoteAtResponse | src/api_frame.rs:621-651 | a parsed remote AT response re-encodes to its payload, status bytes 5 and above becoming `Unknown`'s code |
| ContentReencode.EncodeParse | src/api_frame.rs:382-654 | whatever `parse` accepts passed its length guard, and re-encoding the record gives back the payload, normalised and cut to the record's length |
| TxRequest.RequestData | src/api_frame.rs:678-692 | a long address makes a 64-bit transmit request and a short one a 16-bit request, carrying the same frame id, options and data |
| TxRequest.AddrWidth | src/lib.rs:27-30 | a long address takes 8 bytes, a short one 2 |
| TxRequest.AddrValue | src/api_frame.rs:679-682 | the widened address fits in its width's bytes |
| TxRequest.RequestLayout | src/api_frame.rs:702-731 | a transmit request's encoding is type byte, frame id, big-endian address, option byte, then data |
| TxRequest.TxRequestIter.Remaining | src/api_frame.rs:702-731 | bytes already emitted followed by those still to come are the whole encoding |
| TxRequest.TxRequestIter.constructor | src/api_frame.rs:678-692 | a new iterator starts in state FrameType, its shift at 56 for a long address and 8 for a short one, and will yield the request's encoding |
| TxRequest.TxRequestIter.Len | src/api_frame.rs:754-766 | `len()` is exactly the number of bytes `next` will still return |
| TxRequest.TxRequestIter.Next | src/api_frame.rs:702-731 | each call returns the next byte of the encoding and moves past it; None once the data is exhausted |
| TxRequest.TxRequestIter.NextFrameType | src/api_frame.rs:704-711 | the type byte, 0x00 for address shift 56 and 0x01 otherwise, is the next encoding byte; the state moves to FrameId |
| TxRequest.TxRequestIter.NextFrameId | src/api_frame.rs:712-715 | the frame id is the next encoding byte; the state moves to Addr |
| TxRequest.TxRequestIter.NextOptions | src/api_frame.rs:725-728 | the option byte `options.bits()` is the next encoding byte; the state moves to Data |
| TxRequest.TxRequestIter.NextData | src/api_frame.rs:729 | the data bytes are passed through in order, each the next encoding byte; None exactly when the data is exhausted, and the state stays Data |
| TxRequest.TxRequestIter.NextAddr | src/api_frame.rs:716-724 | the address byte `(addr >> addr_shift) as u8` is the next encoding byte; the shift drops by 8 until 0 |
| TxRequest.TxRequestBytes | src/api_frame.rs:678-731 | draining a new iterator yields the encoding of the request, `3 + width + len(data)` bytes |
| TxExamples.TestAddressBytes | src/api_frame.rs:857-877 | the test address `0x0013A200415D1DBB` is sent as `00 13 A2 00 41 5D 1D BB` |
| TxExamples.CreateTxRequest | src/api_frame.rs:857-877 | the iterator for the test request yields `00 01 00 13 A2 00 41 5D 1D BB 00 "Testing"` |
| TxExamples.RequestChecksum | src/api_frame.rs:880-907 | the checksum of the test request is 0xF5 |
| TxExamples.PackTxRequest | src/api_frame.rs:880-907 | packing the test request gives `7E 00 12`, the request, then `F5` |
| TxExamples.TxRequestParses | src/api_frame.rs:382-419 | every encoded transmit request parses back to the request it was built from |
| Send.SendOptions | src/lib.rs:176-201 | `send_data` sets no option and `send_data_no_ack` exactly DISABLE_ACK |
| Send.SendData | src/lib.rs:176-212 | the bytes written are the frame of the transmit request for the address, options and data; a request too long for a frame makes the packer fail with `TooLong` |
| Send.SentFrameDecodes | src/lib.rs:176-212 | a sent frame unpacks to the request's encoding, which parses back to the request |

## Left out

- `src/lib.rs` except `Addr` and the bytes `send_data`/`send_data_no_ack` write, because it is I/O over
  `embedded_hal`. This covers the command-mode handshake, the `Read`/`Write` passthroughs, the serial writes
  and `bflush` of the send methods (their `?` on a write error), the `unimplemented!` AT methods, and the SPI
  constructor.
- Send.SendData: the `expect("packing error")` panic is the `Err(TooLong)` result; an empty request cannot
  occur, since a request is at least 5 bytes.
- The SPI queue transport, polling and the receive-buffer scanner: no code for them exists in `src/lib.rs`
  or `src/api_frame.rs`.
- Escaped and encrypted modes. `unpack_frame` on a non-empty buffer with `escaped` set is the `Panicked`
  outcome (an empty one is still `NoStart`). The packer stores
  its `escaped`/`encrypted` flags and ignores them, as the code does. `ESCAPE`, `XON` and `XOFF` are unused.
- Panics are modelled as the error value `Panicked`, not as program aborts.
- `size_hint` (`src/api_frame.rs:733-751`) computes the same number as `len`, which `TxRequestIter.Len` models.
- The inner iterators are modelled as the sequence they still have to yield. Their `len()` is that sequence's
  length. Rust lifetimes and borrowed sub-slices become `seq<u8>` values.
- `bitflags!` internals: only `from_bits_truncate`, `bits` and `contains` are modelled.
- `Debug`, `PartialEq` and `Copy` derivations.
- TxRequest.TxRequestIter.NextFrameType: the `unreachable!()` arm for an address shift other than 56 or 8
  is not modelled; the iterator's invariant rules such a shift out.
