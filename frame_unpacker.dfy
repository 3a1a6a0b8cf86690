/**
 * The frame unpacker: validates exactly one leading frame in a buffer and
 * returns its payload and whatever follows it.
 */
module FrameUnpacking {
  import opened Bytes
  import opened Wrappers
  import opened FramePacking

  /**
   * The source's three errors, plus `Panicked` for the inputs on which the
   * source does not return at all: a non-empty buffer in escaped mode reaches `unimplemented!()`,
   * and a buffer of one or two bytes starting with the marker makes
   * `split_at(2)` panic.
   */
  datatype ApiUnpackError = NoStart | BadLength(len: nat) | BadChecksum(sum: u8) | Panicked

  /** The payload length a header declares: bytes 1 and 2, big-endian. */
  function DeclaredLength(buf: seq<u8>): u16
    requires |buf| >= 3
  {
    Be16(buf[1], buf[2])
  }

  /** `unpack_frame(buf, escaped, _)`: the payload and the remainder, or why not. */
  function UnpackFrame(buf: seq<u8>, escaped: bool): (r: Result<(seq<u8>, seq<u8>), ApiUnpackError>)
    ensures r == Err(NoStart) <==> |buf| == 0 || (!escaped && buf[0] != START)
    ensures r == Err(Panicked) <==> |buf| > 0 && (escaped || (buf[0] == START && |buf| < 3))
    ensures r.Err? && r.error.BadLength? <==>
      && !escaped && |buf| >= 3 && buf[0] == START
      && DeclaredLength(buf) + 1 > |buf| - 3
    ensures r.Err? && r.error.BadLength? ==> r.error.len == 3 + DeclaredLength(buf) + 1
    ensures r.Ok? ==>
      && !escaped && |buf| >= 4 && buf[0] == START
      && |r.value.0| == DeclaredLength(buf)
      && |buf| >= 4 + |r.value.0|
      && r.value.0 == buf[3..3 + |r.value.0|]
      && r.value.1 == buf[4 + |r.value.0|..]
      && WrappingAdd(buf[3 + |r.value.0|], WrappingSum(r.value.0)) == 0xFF
    ensures r.Err? && r.error.BadChecksum? ==>
      && |buf| >= 4 + DeclaredLength(buf)
      && r.error.sum == WrappingSum(buf[3..3 + DeclaredLength(buf)])
      && WrappingAdd(buf[3 + DeclaredLength(buf)], r.error.sum) != 0xFF
  {
    if |buf| == 0 then Err(NoStart)
    else if escaped then Err(Panicked)
    else if buf[0] != START then Err(NoStart)
    else if |buf| < 3 then Err(Panicked)
    else
      var len := DeclaredLength(buf);
      // `buf[1..].split_at(2)`, then `split_at(len + 1)` and `split_last`,
      // all written as slices of the whole buffer
      if len + 1 > |buf| - 3 then Err(BadLength(3 + len + 1))
      else
        var data, checksum, rem := buf[3..3 + len], buf[3 + len], buf[4 + len..];
        var check := WrappingSum(data);
        if WrappingAdd(checksum, check) == 0xFF then Ok((data, rem))
        else Err(BadChecksum(check))
  }

  /**
   * A buffer holding a whole frame with a matching length header unpacks
   * to that frame's payload and the rest exactly when the checksum closes
   * the payload sum to 0xFF, and otherwise reports the payload sum.
   */
  lemma UnpackFrameParts(hi: u8, lo: u8, payload: seq<u8>, c: u8, rest: seq<u8>)
    requires Be16(hi, lo) == |payload|
    ensures UnpackFrame([START, hi, lo] + payload + [c] + rest, false)
      == if WrappingAdd(c, WrappingSum(payload)) == 0xFF then Ok((payload, rest))
         else Err(BadChecksum(WrappingSum(payload)))
  {
    var n := |payload|;
    var buf := [START, hi, lo] + payload + [c] + rest;
    assert buf[3..3 + n] == payload;
    assert buf[3 + n] == c;
    assert buf[4 + n..] == rest;
  }

  /** A frame built by the packer, followed by anything, unpacks to its payload and that remainder. */
  lemma UnpackPackedFrame(payload: seq<u8>, rest: seq<u8>)
    requires 1 <= |payload| <= 0xFFFF
    ensures UnpackFrame(Frame(payload) + rest, false) == Ok((payload, rest))
  {
    var n := |payload|;
    assert Frame(payload) + rest == [START, n / 0x100, n % 0x100] + payload + [Checksum(payload)] + rest;
    UnpackFrameParts(n / 0x100, n % 0x100, payload, Checksum(payload), rest);
  }

  /** Two packed frames back to back unpack one after the other. */
  lemma UnpackBackToBack(p1: seq<u8>, p2: seq<u8>)
    requires 1 <= |p1| <= 0xFFFF && 1 <= |p2| <= 0xFFFF
    ensures UnpackFrame(Frame(p1) + Frame(p2), false) == Ok((p1, Frame(p2)))
    ensures UnpackFrame(Frame(p2), false) == Ok((p2, []))
  {
    UnpackPackedFrame(p1, Frame(p2));
    UnpackPackedFrame(p2, []);
    assert Frame(p2) + [] == Frame(p2);
  }

  /**
   * Corrupting any one payload byte of a packed frame makes the unpacker
   * report a checksum mismatch carrying the corrupted payload's sum.
   */
  lemma UnpackDetectsCorruptPayload(payload: seq<u8>, rest: seq<u8>, i: nat, v: u8)
    requires 1 <= |payload| <= 0xFFFF && i < |payload| && payload[i] != v
    ensures UnpackFrame(Frame(payload)[3 + i := v] + rest, false)
      == Err(BadChecksum(WrappingSum(payload[i := v])))
  {
    var n := |payload|;
    var bad := payload[i := v];
    assert Frame(payload)[3 + i := v] + rest
      == [START, n / 0x100, n % 0x100] + bad + [Checksum(payload)] + rest;
    UnpackFrameParts(n / 0x100, n % 0x100, bad, Checksum(payload), rest);
    WrappingSumDetectsChange(payload, i, v);
    if WrappingAdd(Checksum(payload), WrappingSum(bad)) == 0xFF {
      WrappingAddCancel(WrappingSum(bad), WrappingSum(payload), Checksum(payload));
    }
  }

  /** Corrupting the checksum byte of a packed frame is reported too. */
  lemma UnpackDetectsCorruptChecksum(payload: seq<u8>, rest: seq<u8>, c: u8)
    requires 1 <= |payload| <= 0xFFFF && c != Checksum(payload)
    ensures UnpackFrame(Frame(payload)[|payload| + 3 := c] + rest, false)
      == Err(BadChecksum(WrappingSum(payload)))
  {
    var n := |payload|;
    FrameWithChecksum(payload, c);
    UnpackFrameParts(n / 0x100, n % 0x100, payload, c, rest);
    OnlyChecksumCloses(payload, c);
  }

  /** A packed frame whose last byte is replaced by `c`. */
  lemma FrameWithChecksum(payload: seq<u8>, c: u8)
    requires 1 <= |payload| <= 0xFFFF
    ensures Frame(payload)[|payload| + 3 := c]
         == [START, |payload| / 0x100, |payload| % 0x100] + payload + [c]
  {
    var head := [START, |payload| / 0x100, |payload| % 0x100] + payload;
    assert Frame(payload) == head + [Checksum(payload)];
    assert (head + [Checksum(payload)])[|head| := c] == head + [c];
  }

  /** No byte but the checksum brings the payload sum to 0xFF. */
  lemma OnlyChecksumCloses(payload: seq<u8>, c: u8)
    requires c != Checksum(payload)
    ensures WrappingAdd(c, WrappingSum(payload)) != 0xFF
  {
    if WrappingAdd(c, WrappingSum(payload)) == 0xFF {
      WrappingAddCancel(c, Checksum(payload), WrappingSum(payload));
    }
  }

  /** The payload of the source's unpack test. */
  const TEST_PAYLOAD: seq<u8> := [0x01, 0x01, 0x50, 0x01, 0x00, 0x48, 0x65, 0x6C, 0x6C, 0x6F]

  /** The sum of five bytes, unrolled. */
  lemma SumOfFive(s: seq<u8>)
    requires |s| == 5
    ensures Sum(s) == s[0] as int + s[1] + s[2] + s[3] + s[4]
  {
    assert s[4..][1..] == [];
    assert Sum(s[4..]) == s[4];
    assert s[3..][1..] == s[4..];
    assert Sum(s[3..]) == s[3] as int + s[4];
    assert s[2..][1..] == s[3..];
    assert Sum(s[2..]) == s[2] as int + s[3] + s[4];
    assert s[1..][1..] == s[2..];
  }

  /** Its bytes add up to 0x247, so its wrapping sum is 0x47 and 0xB8 closes it to 0xFF. */
  lemma TestPayloadSum()
    ensures WrappingSum(TEST_PAYLOAD) == 0x47
  {
    var p1: seq<u8> := [0x01, 0x01, 0x50, 0x01, 0x00];
    var p2: seq<u8> := [0x48, 0x65, 0x6C, 0x6C, 0x6F];
    SumOfFive(p1);
    SumOfFive(p2);
    assert TEST_PAYLOAD == p1 + p2;
    SumAppend(p1, p2);
    assert Sum(TEST_PAYLOAD) == 0x247;
  }

  /** The frame of the source's unpack test, with a second frame's first bytes after it. */
  lemma UnpackTestVector()
    ensures UnpackFrame([0x7E, 0x00, 0x0A, 0x01, 0x01, 0x50, 0x01, 0x00, 0x48, 0x65, 0x6C, 0x6C, 0x6F, 0xB8,
                         0x7E, 0x01, 0x02], false)
      == Ok((TEST_PAYLOAD, [0x7E, 0x01, 0x02]))
  {
    var rest: seq<u8> := [0x7E, 0x01, 0x02];
    TestPayloadSum();
    assert [0x7E, 0x00, 0x0A, 0x01, 0x01, 0x50, 0x01, 0x00, 0x48, 0x65, 0x6C, 0x6C, 0x6F, 0xB8, 0x7E, 0x01, 0x02]
      == [START, 0x00, 0x0A] + TEST_PAYLOAD + [0xB8] + rest;
    UnpackFrameParts(0x00, 0x0A, TEST_PAYLOAD, 0xB8, rest);
  }
}
