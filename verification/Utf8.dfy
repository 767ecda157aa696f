/** UTF-8 (RFC 3629): the grammar of section 4, the encoding of section 3, and that they agree. */
module Utf8 {
  import opened Wire

  predicate Tail(b: uint8) {
    0x80 <= b <= 0xbf
  }

  /** Length of the well-formed character `s` starts with, or 0 (RFC 3629, section 4). */
  function CharLength(s: bytes): (n: nat)
    ensures n <= 4 && n <= |s|
  {
    if |s| >= 1 && s[0] <= 0x7f then 1
    else if |s| >= 2 && 0xc2 <= s[0] <= 0xdf && Tail(s[1]) then 2
    else if |s| >= 3 && Triple(s[0], s[1]) && Tail(s[2]) then 3
    else if |s| >= 4 && Quadruple(s[0], s[1]) && Tail(s[2]) && Tail(s[3]) then 4
    else 0
  }

  predicate Triple(a: uint8, b: uint8) {
    || (a == 0xe0 && 0xa0 <= b <= 0xbf)
    || (0xe1 <= a <= 0xec && Tail(b))
    || (a == 0xed && 0x80 <= b <= 0x9f)
    || (0xee <= a <= 0xef && Tail(b))
  }

  predicate Quadruple(a: uint8, b: uint8) {
    || (a == 0xf0 && 0x90 <= b <= 0xbf)
    || (0xf1 <= a <= 0xf3 && Tail(b))
    || (a == 0xf4 && 0x80 <= b <= 0x8f)
  }

  predicate Valid(s: bytes) {
    s == [] || (CharLength(s) > 0 && Valid(s[CharLength(s)..]))
  }

  type Scalar = v: int | 0 <= v < 0xd800 || 0xe000 <= v < 0x11_0000

  /** RFC 3629, section 3. */
  function Encode(v: Scalar): (r: bytes)
    ensures 1 <= |r| <= 4
  {
    if v < 0x80 then [v]
    else if v < 0x800 then [0xc0 + v / 0x40, 0x80 + v % 0x40]
    else if v < 0x1_0000 then [0xe0 + v / 0x1000, 0x80 + v / 0x40 % 0x40, 0x80 + v % 0x40]
    else [0xf0 + v / 0x4_0000, 0x80 + v / 0x1000 % 0x40, 0x80 + v / 0x40 % 0x40, 0x80 + v % 0x40]
  }

  function EncodeAll(vs: seq<Scalar>): bytes {
    if vs == [] then [] else Encode(vs[0]) + EncodeAll(vs[1..])
  }

  lemma Sixths(v: nat)
    ensures v / 0x1000 == v / 0x40 / 0x40
    ensures v / 0x4_0000 == v / 0x1000 / 0x40
  {
  }

  lemma EncodedLength(v: Scalar)
    ensures CharLength(Encode(v)) == |Encode(v)|
  {
    Sixths(v);
  }

  /** A character is recognised by its own octets; what follows does not matter. */
  lemma CharIsPrefixDetermined(p: bytes, s: bytes)
    requires p <= s && CharLength(p) > 0
    ensures CharLength(s) == CharLength(p)
  {
  }

  lemma EncodedFirst(v: Scalar, rest: bytes)
    ensures CharLength(Encode(v) + rest) == |Encode(v)|
    ensures (Encode(v) + rest)[|Encode(v)|..] == rest
  {
    hide CharLength, Encode;
    EncodedLength(v);
    CharIsPrefixDetermined(Encode(v), Encode(v) + rest);
  }

  lemma {:induction false} EncodedIsValid(vs: seq<Scalar>)
    ensures Valid(EncodeAll(vs))
  {
    hide CharLength, Encode;
    if vs != [] {
      EncodedIsValid(vs[1..]);
      EncodedFirst(vs[0], EncodeAll(vs[1..]));
    }
  }

  function Decode(s: bytes): Scalar
    requires CharLength(s) > 0
  {
    var n := CharLength(s);
    if n == 1 then s[0] as int
    else if n == 2 then (s[0] as int - 0xc0) * 0x40 + (s[1] as int - 0x80)
    else if n == 3 then
      (s[0] as int - 0xe0) * 0x1000 + (s[1] as int - 0x80) * 0x40 + (s[2] as int - 0x80)
    else
      (s[0] as int - 0xf0) * 0x4_0000 + (s[1] as int - 0x80) * 0x1000 + (s[2] as int - 0x80) * 0x40
      + (s[3] as int - 0x80)
  }

  lemma LastSextet(high: nat, low: int)
    requires 0 <= low < 0x40
    ensures (high * 0x40 + low) / 0x40 == high && (high * 0x40 + low) % 0x40 == low
  {
  }

  lemma EncodePair(a: nat, b: nat)
    requires 2 <= a < 0x20 && b < 0x40
    ensures Encode(a * 0x40 + b) == [0xc0 + a, 0x80 + b]
  {
    LastSextet(a, b);
  }

  lemma EncodeTriple(a: nat, b: nat, c: nat)
    requires a < 0x10 && b < 0x40 && c < 0x40 && Triple(0xe0 + a, 0x80 + b)
    ensures var v := (a * 0x40 + b) * 0x40 + c;
      (v < 0xd800 || v >= 0xe000) && Encode(v) == [0xe0 + a, 0x80 + b, 0x80 + c]
  {
    var v := (a * 0x40 + b) * 0x40 + c;
    LastSextet(a, b);
    LastSextet(a * 0x40 + b, c);
    Sixths(v);
    assert 0x800 <= v < 0x1_0000;
  }

  lemma EncodeQuadruple(a: nat, b: nat, c: nat, d: nat)
    requires a < 8 && b < 0x40 && c < 0x40 && d < 0x40 && Quadruple(0xf0 + a, 0x80 + b)
    ensures var v := ((a * 0x40 + b) * 0x40 + c) * 0x40 + d;
      0x1_0000 <= v < 0x11_0000 && Encode(v) == [0xf0 + a, 0x80 + b, 0x80 + c, 0x80 + d]
  {
    var v := ((a * 0x40 + b) * 0x40 + c) * 0x40 + d;
    LastSextet(a, b);
    LastSextet(a * 0x40 + b, c);
    LastSextet((a * 0x40 + b) * 0x40 + c, d);
    Sixths(v);
  }

  lemma DecodedEncodes(s: bytes)
    requires CharLength(s) > 0
    ensures Encode(Decode(s)) == s[..CharLength(s)]
  {
    var n := CharLength(s);
    if n == 1 {
    } else {
      hide Encode;
      if n == 2 {
        EncodePair(s[0] - 0xc0, s[1] - 0x80);
        assert s[..n] == [s[0], s[1]];
      } else if n == 3 {
        EncodeTriple(s[0] - 0xe0, s[1] - 0x80, s[2] - 0x80);
        assert s[..n] == [s[0], s[1], s[2]];
      } else {
        EncodeQuadruple(s[0] - 0xf0, s[1] - 0x80, s[2] - 0x80, s[3] - 0x80);
        assert s[..n] == [s[0], s[1], s[2], s[3]];
      }
    }
  }

  function DecodeAll(s: bytes): seq<Scalar>
    requires Valid(s)
  {
    if s == [] then [] else [Decode(s)] + DecodeAll(s[CharLength(s)..])
  }

  lemma {:induction false} DecodedReencodes(s: bytes)
    requires Valid(s)
    ensures EncodeAll(DecodeAll(s)) == s
  {
    hide CharLength, Decode, Encode;
    if s != [] {
      var n := CharLength(s);
      DecodedReencodes(s[n..]);
      DecodedEncodes(s);
      assert DecodeAll(s)[1..] == DecodeAll(s[n..]);
      assert s == s[..n] + s[n..];
    }
  }

  /** The grammar accepts exactly the encodings of scalar values. */
  lemma ValidIffEncoded(s: bytes)
    ensures Valid(s) <==> exists vs: seq<Scalar> :: EncodeAll(vs) == s
  {
    hide CharLength, Encode;
    if Valid(s) { DecodedReencodes(s); }
    if vs: seq<Scalar> :| EncodeAll(vs) == s { EncodedIsValid(vs); }
  }
}
