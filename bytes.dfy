/**
 * Byte-level building blocks shared by every characteristic codec:
 * little-endian unsigned and two's-complement integers of any width
 * (Python's `int.from_bytes(..., 'little')`, `struct` formats `<H`, `<h`,
 * `<I`, `<i`, `<Q`) and the `' '.join(f'{b:02x}' for b in data)` hex
 * rendering that every payload record offers.
 */
module ByteCodec {
  import opened Wrappers

  type byte = x: int | 0 <= x < 256

  /** 256^k: the number of distinct values k bytes can hold. */
  function Pow256(k: nat): (p: nat)
    ensures p >= 1
  {
    if k == 0 then 1 else 256 * Pow256(k - 1)
  }

  /** Half the range of a k-byte word: the bound of its signed values. */
  function Half(k: nat): (h: int)
    requires k >= 1
    ensures h >= 1 && 2 * h == Pow256(k)
  {
    128 * Pow256(k - 1)
  }

  // ---------------------------------------------------------------------
  // Unsigned little-endian integers

  /** The unsigned little-endian integer of `s` (least significant byte first). */
  function LeUnsigned(s: seq<byte>): (n: nat)
    ensures n < Pow256(|s|)
  {
    if s == [] then 0 else s[0] + 256 * LeUnsigned(s[1..])
  }

  /** The `width` little-endian bytes of `n`; Python's `n.to_bytes(width, 'little')`. */
  function LeBytes(n: nat, width: nat): (s: seq<byte>)
    requires n < Pow256(width)
    ensures |s| == width
  {
    if width == 0 then [] else [n % 256] + LeBytes(n / 256, width - 1)
  }

  lemma {:induction false} LeUnsignedOfLeBytes(n: nat, width: nat)
    requires n < Pow256(width)
    ensures LeUnsigned(LeBytes(n, width)) == n
  {
    if width > 0 {
      LeUnsignedOfLeBytes(n / 256, width - 1);
      assert LeBytes(n, width)[1..] == LeBytes(n / 256, width - 1);
    }
  }

  lemma {:induction false} LeBytesOfLeUnsigned(s: seq<byte>)
    ensures LeBytes(LeUnsigned(s), |s|) == s
  {
    if s != [] {
      LeBytesOfLeUnsigned(s[1..]);
      assert (s[0] + 256 * LeUnsigned(s[1..])) / 256 == LeUnsigned(s[1..]);
      assert s == [s[0]] + s[1..];
    }
  }

  // ---------------------------------------------------------------------
  // Signed (two's-complement) little-endian integers

  /** The two's-complement little-endian integer of a non-empty `s`. */
  function LeSigned(s: seq<byte>): (v: int)
    requires |s| >= 1
    ensures -Half(|s|) <= v < Half(|s|)
  {
    var u := LeUnsigned(s);
    if u >= Half(|s|) then u - Pow256(|s|) else u
  }

  /** The `width` two's-complement little-endian bytes of `v`. */
  function SignedLeBytes(v: int, width: nat): (s: seq<byte>)
    requires width >= 1 && -Half(width) <= v < Half(width)
    ensures |s| == width
  {
    LeBytes(if v < 0 then v + Pow256(width) else v, width)
  }

  lemma SignedRoundTrip(v: int, width: nat)
    requires width >= 1 && -Half(width) <= v < Half(width)
    ensures LeSigned(SignedLeBytes(v, width)) == v
  {
    LeUnsignedOfLeBytes(if v < 0 then v + Pow256(width) else v, width);
  }

  lemma SignedBytesRoundTrip(s: seq<byte>)
    requires |s| >= 1
    ensures SignedLeBytes(LeSigned(s), |s|) == s
  {
    LeBytesOfLeUnsigned(s);
  }

  /**
   * `struct.unpack('<Nh')`: consecutive signed little-endian 16-bit words,
   * in order.
   */
  function Int16s(s: seq<byte>): (vs: seq<int>)
    requires |s| % 2 == 0
    ensures 2 * |vs| == |s|
    ensures forall k :: 0 <= k < |vs| ==> -32768 <= vs[k] < 32768
  {
    if |s| == 0 then [] else [LeSigned(s[..2])] + Int16s(s[2..])
  }

  /** `struct.pack('<Nh', *vs)`: the inverse of `Int16s`. */
  function PackInt16s(vs: seq<int>): (s: seq<byte>)
    requires forall k :: 0 <= k < |vs| ==> -32768 <= vs[k] < 32768
    ensures |s| == 2 * |vs|
  {
    if vs == [] then [] else SignedLeBytes(vs[0], 2) + PackInt16s(vs[1..])
  }

  /** Word `k` of an unpacked payload is the signed value of bytes `2k, 2k+1`. */
  lemma {:induction false} Int16sAt(s: seq<byte>, k: nat)
    requires |s| % 2 == 0 && 2 * k < |s|
    ensures |Int16s(s)| > k
    ensures Int16s(s)[k] == LeSigned(s[2 * k..2 * k + 2])
  {
    if k > 0 {
      Int16sAt(s[2..], k - 1);
      assert s[2..][2 * (k - 1)..2 * (k - 1) + 2] == s[2 * k..2 * k + 2];
    }
  }

  lemma {:induction false} UnpackOfPack(vs: seq<int>)
    requires forall k :: 0 <= k < |vs| ==> -32768 <= vs[k] < 32768
    ensures Int16s(PackInt16s(vs)) == vs
  {
    if vs != [] {
      var s := PackInt16s(vs);
      UnpackOfPack(vs[1..]);
      SignedRoundTrip(vs[0], 2);
      assert s[..2] == SignedLeBytes(vs[0], 2);
      assert s[2..] == PackInt16s(vs[1..]);
    }
  }

  lemma {:induction false} PackOfUnpack(s: seq<byte>)
    requires |s| % 2 == 0
    ensures PackInt16s(Int16s(s)) == s
  {
    if |s| > 0 {
      PackOfUnpack(s[2..]);
      SignedBytesRoundTrip(s[..2]);
      assert Int16s(s)[1..] == Int16s(s[2..]);
      assert s == s[..2] + s[2..];
    }
  }

  // ---------------------------------------------------------------------
  // Hex rendering

  /** The lower-case hex digit of a nibble. */
  function HexDigit(d: nat): (c: char)
    requires d < 16
    ensures '0' <= c <= '9' || 'a' <= c <= 'f'
  {
    if d < 10 then ('0' as int + d) as char else ('a' as int + d - 10) as char
  }

  /** The nibble a lower-case hex digit stands for; the inverse of `HexDigit`. */
  function NibbleOf(c: char): int {
    if '0' <= c <= '9' then c as int - '0' as int else c as int - 'a' as int + 10
  }

  /** `f'{b:02x}'`: two lower-case hex digits, high nibble first. */
  function HexByte(b: byte): (h: string)
    ensures |h| == 2
    ensures 16 * NibbleOf(h[0]) + NibbleOf(h[1]) == b
  {
    [HexDigit(b / 16), HexDigit(b % 16)]
  }

  /** `' '.join(f'{b:02x}' for b in s)`. */
  function HexJoin(s: seq<byte>): (h: string)
    ensures |h| == if s == [] then 0 else 3 * |s| - 1
  {
    if s == [] then ""
    else if |s| == 1 then HexByte(s[0])
    else HexByte(s[0]) + " " + HexJoin(s[1..])
  }

  /** Byte `i` sits at characters `3i, 3i+1`, followed by one space unless it is the last. */
  lemma {:induction false} HexJoinAt(s: seq<byte>, i: nat)
    requires i < |s|
    ensures 3 * i + 2 <= |HexJoin(s)|
    ensures HexJoin(s)[3 * i..3 * i + 2] == HexByte(s[i])
    ensures i + 1 < |s| ==> HexJoin(s)[3 * i + 2] == ' '
  {
    if i > 0 {
      HexJoinAt(s[1..], i - 1);
      assert HexJoin(s) == HexByte(s[0]) + " " + HexJoin(s[1..]);
      assert HexJoin(s)[3 * i..3 * i + 2] == HexJoin(s[1..])[3 * (i - 1)..3 * (i - 1) + 2];
    }
  }

  /** The rendering loses nothing: two payloads with the same hex string are equal. */
  lemma HexJoinInjective(s: seq<byte>, t: seq<byte>)
    requires HexJoin(s) == HexJoin(t)
    ensures s == t
  {
    assert |s| == |t|;
    forall i | 0 <= i < |s|
      ensures s[i] == t[i]
    {
      HexJoinAt(s, i);
      HexJoinAt(t, i);
    }
  }

  /**
   * Every payload record's `to_hex_string`: empty when the record holds no
   * raw payload (`None` or empty), else the spaced hex rendering of it.
   */
  function RawHex(raw: Option<seq<byte>>): (h: string)
    ensures raw.None? || raw.value == [] <==> h == ""
    ensures raw.Some? && raw.value != [] ==> |h| == 3 * |raw.value| - 1
  {
    match raw
    case None => ""
    case Some(bytes) => HexJoin(bytes)
  }

  // ---------------------------------------------------------------------
  // Decimal rendering of integers, as `f'{v}'` prints them

  function DecimalDigits(n: nat): (s: string)
    ensures |s| >= 1
    ensures forall k :: 0 <= k < |s| ==> '0' <= s[k] <= '9'
  {
    if n < 10 then ["0123456789"[n]] else DecimalDigits(n / 10) + ["0123456789"[n % 10]]
  }

  function Decimal(v: int): (s: string)
    ensures |s| >= 1
  {
    if v < 0 then "-" + DecimalDigits(-v) else DecimalDigits(v)
  }
}
