/** Big-endian integers as the HTTP/2 framing layer writes them (internal/wire). */
module Wire {
  import opened Results

  type uint8 = x: int | 0 <= x < 0x100
  type uint16 = x: int | 0 <= x < 0x1_0000
  type uint32 = x: int | 0 <= x < 0x1_0000_0000
  type int64 = x: int | -0x8000_0000_0000_0000 <= x < 0x8000_0000_0000_0000
  type bytes = seq<uint8>

  const FRAME_HEADER_LENGTH := 9
  const MAX_UINT24 := 0xff_ffff
  const MAX_UINT32 := 0xffff_ffff

  /** Conversion to `uint32` keeps the low 32 bits. */
  function ToUint32(n: nat): (r: uint32)
    ensures n <= MAX_UINT32 ==> r == n
  {
    n % 0x1_0000_0000
  }

  /** Conversion to `uint64`, also of a negative `int64`, keeps the low 64 bits. */
  function ToUint64(x: int): (r: nat)
    ensures r < 0x1_0000_0000_0000_0000
    ensures 0 <= x < 0x1_0000_0000_0000_0000 ==> r == x
  {
    x % 0x1_0000_0000_0000_0000
  }

  /** `v & 0x7fff_ffff`: clears the reserved top bit. */
  function Low31(v: uint32): (r: uint32)
    ensures r < 0x8000_0000
    ensures v < 0x8000_0000 ==> r == v
  {
    v % 0x8000_0000
  }

  /** `flags & mask != 0` for a mask of one bit: shift both until that bit comes last. */
  predicate HasFlag(flags: uint8, mask: uint8) {
    if mask <= 1 then flags % 2 == 1 else HasFlag(flags / 2, mask / 2)
  }

  /** A bound whose bits are all ones, as the largest value of so many bits. */
  predicate AllOnes(bound: nat) {
    bound == 0 || (bound % 2 == 1 && AllOnes(bound / 2))
  }

  /** `a | b`, bit by bit from the lowest. */
  function Or(a: nat, b: nat, bound: nat): (r: nat)
    requires AllOnes(bound) && a <= bound && b <= bound
    ensures r <= bound
  {
    if bound == 0 then 0
    else Or(a / 2, b / 2, bound / 2) * 2 + if a % 2 == 1 || b % 2 == 1 then 1 else 0
  }

  function AppendUint16(dst: bytes, v: uint16): (r: bytes)
    ensures |r| == |dst| + 2
  {
    dst + [v / 0x100, v % 0x100]
  }

  function ReadUint16(src: bytes): (r: Option<uint16>)
    ensures r.Some? <==> |src| >= 2
  {
    if |src| < 2 then None else Some(src[0] as int * 0x100 + src[1] as int)
  }

  /** Fails on values that do not fit 24 bits, as the length field requires. */
  function AppendUint24(dst: bytes, v: uint32): (r: Option<bytes>)
    ensures r.Some? <==> v <= MAX_UINT24
    ensures r.Some? ==> |r.value| == |dst| + 3
  {
    if v > 0xff_ffff then None
    else Some(dst + [v / 0x1_0000, v / 0x100 % 0x100, v % 0x100])
  }

  function ReadUint24(src: bytes): (r: Option<uint32>)
    ensures r.Some? <==> |src| >= 3
    ensures r.Some? ==> r.value <= MAX_UINT24
  {
    if |src| < 3 then None else Some(src[0] as int * 0x1_0000 + src[1] as int * 0x100 + src[2] as int)
  }

  function AppendUint32(dst: bytes, v: uint32): (r: bytes)
    ensures |r| == |dst| + 4
  {
    dst + [v / 0x100_0000, v / 0x1_0000 % 0x100, v / 0x100 % 0x100, v % 0x100]
  }

  function ReadUint32(src: bytes): (r: Option<uint32>)
    ensures r.Some? <==> |src| >= 4
  {
    if |src| < 4 then None
    else Some(src[0] as int * 0x100_0000 + src[1] as int * 0x1_0000 + src[2] as int * 0x100 + src[3] as int)
  }

  lemma Shifts(v: nat)
    ensures v / 0x1_0000 == v / 0x100 / 0x100
    ensures v / 0x100_0000 == v / 0x1_0000 / 0x100
  {
  }

  /** Base-256 digits: splitting off the last one undoes appending it. */
  lemma LastDigit(high: nat, low: uint8)
    ensures (high * 0x100 + low) / 0x100 == high
    ensures (high * 0x100 + low) % 0x100 == low
  {
  }

  lemma ReadDigits(src: bytes)
    requires |src| == 4
    ensures var v := ReadUint32(src).value;
      v / 0x100_0000 == src[0] && v / 0x1_0000 % 0x100 == src[1] && v / 0x100 % 0x100 == src[2] && v % 0x100 == src[3]
  {
    var v := ReadUint32(src).value;
    var v3: nat := src[0] as int;
    var v2: nat := v3 * 0x100 + src[1] as int;
    var v1: nat := v2 * 0x100 + src[2] as int;
    assert v == v1 * 0x100 + src[3] as int;
    LastDigit(v1, src[3]);
    LastDigit(v2, src[2]);
    LastDigit(v3, src[1]);
    Shifts(v);
  }

  lemma WriteDigits(v: uint32)
    ensures v / 0x100_0000 * 0x100_0000 + v / 0x1_0000 % 0x100 * 0x1_0000 + v / 0x100 % 0x100 * 0x100 + v % 0x100 == v
  {
    Shifts(v);
    var v1 := v / 0x100;
    var v2 := v1 / 0x100;
    assert v == v1 * 0x100 + v % 0x100;
    assert v1 == v2 * 0x100 + v1 % 0x100;
    assert v2 == v2 / 0x100 * 0x100 + v2 % 0x100;
  }

  /** A 32-bit value written after `dst` is read back from that place. */
  lemma WriteThenRead32(dst: bytes, v: uint32)
    ensures ReadUint32(AppendUint32(dst, v)[|dst|..]) == Some(v)
  {
    WriteDigits(v);
    assert AppendUint32(dst, v)[|dst|..]
        == [v / 0x100_0000, v / 0x1_0000 % 0x100, v / 0x100 % 0x100, v % 0x100];
  }

  lemma WriteThenRead24(dst: bytes, v: uint32)
    requires v <= MAX_UINT24
    ensures ReadUint24(AppendUint24(dst, v).value[|dst|..]) == Some(v)
  {
    WriteDigits(v);
    assert AppendUint24(dst, v).value[|dst|..] == [v / 0x1_0000, v / 0x100 % 0x100, v % 0x100];
  }

  lemma WriteThenRead16(dst: bytes, v: uint16)
    ensures ReadUint16(AppendUint16(dst, v)[|dst|..]) == Some(v)
  {
    assert AppendUint16(dst, v)[|dst|..] == [v / 0x100, v % 0x100];
  }

  /** Reading four octets and writing the value reproduces them: no bit is lost. */
  lemma ReadThenWrite32(src: bytes)
    requires |src| == 4
    ensures AppendUint32([], ReadUint32(src).value) == src
  {
    ReadDigits(src);
  }

  lemma ReadThenWrite24(src: bytes)
    requires |src| == 3
    ensures AppendUint24([], ReadUint24(src).value) == Some(src)
  {
    ReadDigits([0] + src);
    assert AppendUint24([], ReadUint24(src).value).value == src;
  }

  lemma ReadThenWrite16(src: bytes)
    requires |src| == 2
    ensures AppendUint16([], ReadUint16(src).value) == src
  {
    LastDigit(src[0], src[1]);
  }
}
