/**
 * Machine integers as bounded mathematical integers, and the byte-level
 * arithmetic the frame engine uses: wrapping 8-bit addition, the wrapping
 * byte sum, big-endian values and right shifts by whole bytes.
 */
module Bytes {

  type u8 = x: int | 0 <= x < 0x100
  type u16 = x: int | 0 <= x < 0x1_0000
  type u64 = x: int | 0 <= x < 0x1_0000_0000_0000_0000

  /** `a.wrapping_add(b)` on two `u8`: the sum, less 256 when it overflows. */
  function WrappingAdd(a: u8, b: u8): u8 {
    if a + b < 0x100 then a + b else a + b - 0x100
  }

  /** Adding a whole number of 256s does not change a remainder modulo 256. */
  lemma ModOfOffset(q: int, t: int)
    requires 0 <= t < 0x100
    ensures (0x100 * q + t) % 0x100 == t
  {
  }

  /** Wrapping addition is addition modulo 256, whatever the first operand was reduced from. */
  lemma WrappingAddMod(x: nat, b: u8)
    ensures WrappingAdd(x % 0x100, b) == (x + b) % 0x100
  {
    var q, r := x / 0x100, x % 0x100;
    assert x + b == 0x100 * q + (r + b);
    if r + b < 0x100 {
      ModOfOffset(q, r + b);
    } else {
      assert x + b == 0x100 * (q + 1) + (r + b - 0x100);
      ModOfOffset(q + 1, r + b - 0x100);
    }
  }

  /** Moving a sum by a nonzero amount smaller than 256 changes it modulo 256. */
  lemma ModShift(x: nat, d: int)
    requires -0x100 < d < 0x100 && d != 0 && x + d >= 0
    ensures (x + d) % 0x100 != x % 0x100
  {
    var q, r := x / 0x100, x % 0x100;
    assert x == 0x100 * q + r;
    if 0 <= r + d < 0x100 {
      ModOfOffset(q, r + d);
    } else if r + d >= 0x100 {
      assert x + d == 0x100 * (q + 1) + (r + d - 0x100);
      ModOfOffset(q + 1, r + d - 0x100);
    } else {
      assert x + d == 0x100 * (q - 1) + (r + d + 0x100);
      ModOfOffset(q - 1, r + d + 0x100);
    }
  }

  /** The plain (unbounded) sum of a byte sequence. */
  function Sum(s: seq<u8>): nat {
    if s == [] then 0 else s[0] + Sum(s[1..])
  }

  lemma {:induction false} SumAppend(s: seq<u8>, t: seq<u8>)
    ensures Sum(s + t) == Sum(s) + Sum(t)
  {
    if s == [] {
      assert s + t == t;
    } else {
      assert (s + t)[1..] == s[1..] + t;
      SumAppend(s[1..], t);
    }
  }

  /**
   * `s.iter().fold(0, |acc, &v| acc.wrapping_add(v))`: a left fold of
   * wrapping additions. Its contract ties it to the unbounded sum.
   */
  function WrappingSum(s: seq<u8>): (r: u8)
    ensures r == Sum(s) % 0x100
  {
    if s == [] then 0
    else
      var init, last := s[..|s| - 1], s[|s| - 1];
      assert s == init + [last];
      SumAppend(init, [last]);
      WrappingAddMod(Sum(init), last);
      WrappingAdd(WrappingSum(init), last)
  }

  /** Replacing one byte changes the plain sum by exactly the difference. */
  lemma {:induction false} SumUpdate(s: seq<u8>, i: nat, v: u8)
    requires i < |s|
    ensures Sum(s[i := v]) == Sum(s) - s[i] + v
  {
    if i > 0 {
      assert s[i := v][1..] == s[1..][i - 1 := v];
      SumUpdate(s[1..], i - 1, v);
    }
  }

  /** Wrapping addition of the same byte is injective. */
  lemma WrappingAddCancel(a: u8, b: u8, c: u8)
    requires WrappingAdd(a, c) == WrappingAdd(b, c)
    ensures a == b
  {
  }

  /**
   * The wrapping sum detects every single-byte change: a byte replaced by
   * a different value always changes the sum modulo 256.
   */
  lemma WrappingSumDetectsChange(s: seq<u8>, i: nat, v: u8)
    requires i < |s| && s[i] != v
    ensures WrappingSum(s[i := v]) != WrappingSum(s)
  {
    SumUpdate(s, i, v);
    ModShift(Sum(s), v - s[i]);
  }

  function Pow256(n: nat): (p: nat)
    ensures p >= 1
  {
    if n == 0 then 1 else 0x100 * Pow256(n - 1)
  }

  /** The unsigned value of a big-endian byte string (most significant first). */
  function BeValue(s: seq<u8>): (v: nat)
    ensures v < Pow256(|s|)
  {
    if s == [] then 0 else BeValue(s[..|s| - 1]) * 0x100 + s[|s| - 1]
  }

  /** `((hi as u16) << 8) | (lo as u16)`. */
  function Be16(hi: u8, lo: u8): u16 {
    hi * 0x100 + lo
  }

  /** `Be16` is the big-endian value of its two bytes. */
  lemma Be16IsBeValue(s: seq<u8>)
    requires |s| == 2
    ensures Be16(s[0], s[1]) == BeValue(s)
  {
    assert s[..1][..0] == [];
    assert BeValue(s[..1]) == s[0];
  }

  /** The eight bytes read most significant first into a `u64`. */
  function Be64(s: seq<u8>): (v: u64)
    requires |s| == 8
    ensures v == BeValue(s)
  {
    assert Pow256(8) == 0x1_0000_0000_0000_0000;
    BeValue(s)
  }

  /** The `n` low bytes of `a`, most significant first. */
  function BeBytes(a: nat, n: nat): (s: seq<u8>)
    ensures |s| == n
  {
    if n == 0 then [] else BeBytes(a / 0x100, n - 1) + [a % 0x100]
  }

  /** `a >> bits` where `bits` is a whole number of bytes. */
  function ShiftRight(a: nat, bits: nat): nat
    requires bits % 8 == 0
    decreases bits
  {
    if bits == 0 then a else ShiftRight(a / 0x100, bits - 8)
  }

  /** Encoding a value that fits in `n` bytes and decoding it gives it back. */
  lemma {:induction false} BeValueBeBytes(a: nat, n: nat)
    requires a < Pow256(n)
    ensures BeValue(BeBytes(a, n)) == a
  {
    if n > 0 {
      var s := BeBytes(a / 0x100, n - 1);
      assert BeBytes(a, n)[..n - 1] == s;
      BeValueBeBytes(a / 0x100, n - 1);
    }
  }

  /** Decoding `n` bytes and encoding the value in `n` bytes gives them back. */
  lemma {:induction false} BeBytesBeValue(s: seq<u8>)
    ensures BeBytes(BeValue(s), |s|) == s
  {
    if s != [] {
      var n := |s|;
      var v := BeValue(s[..n - 1]);
      assert BeValue(s) / 0x100 == v && BeValue(s) % 0x100 == s[n - 1];
      BeBytesBeValue(s[..n - 1]);
      assert s == s[..n - 1] + [s[n - 1]];
    }
  }

  /** Byte `k` of the big-endian encoding is `(a >> 8 * (n - 1 - k)) as u8`. */
  lemma {:induction false} BeBytesAt(a: nat, n: nat, k: nat)
    requires k < n
    ensures BeBytes(a, n)[k] == ShiftRight(a, 8 * (n - 1 - k)) % 0x100
  {
    if k < n - 1 {
      BeBytesAt(a / 0x100, n - 1, k);
    }
  }

  /** A 16-bit value written as two bytes and read back with `Be16`. */
  lemma Be16BeBytes(v: u16)
    ensures Be16(BeBytes(v, 2)[0], BeBytes(v, 2)[1]) == v
  {
    assert BeBytes(v, 2) == [v / 0x100 % 0x100, v % 0x100];
  }

  /** A 64-bit value written as eight bytes and read back with `Be64`. */
  lemma Be64BeBytes(a: u64)
    ensures Be64(BeBytes(a, 8)) == a
  {
    assert Pow256(8) == 0x1_0000_0000_0000_0000;
    BeValueBeBytes(a, 8);
  }
}
