/** Text rendering of payload octets (internal/framefmt/format.go). */
module TextFormat {
  import opened Wire
  import opened Utf8

  predicate LongestValidPrefix(r: bytes, data: bytes) {
    && r <= data
    && Valid(r)
    && forall k :: |r| < k <= |data| ==> !Valid(data[..k])
  }

  method TruncateUTF8Prefix(data: bytes) returns (r: bytes)
    ensures LongestValidPrefix(r, data)
  {
    hide CharLength;
    assert data[..|data|] == data;
    if Valid(data) { return data; }
    r := data;
    while |r| > 0
      invariant r == data[..|r|] && |r| <= |data|
      invariant forall k :: |r| <= k <= |data| ==> !Valid(data[..k])
    {
      r := r[..|r| - 1];
      if Valid(r) { return; }
    }
  }

  datatype Text = Empty | Quoted(octets: bytes) | NonUtf8

  /** A cut text is never reported as non-UTF-8; an uncut one is exactly when it is not valid. */
  method DataTextJSON(data: bytes, limit: nat) returns (text: Text, truncated: bool)
    ensures truncated <==> limit > 0 && |data| > limit
    ensures text.Empty? <==> data == []
    ensures text.NonUtf8? <==> data != [] && !truncated && !Valid(data)
    ensures text.Quoted? ==> if truncated then LongestValidPrefix(text.octets, data[..limit]) else text.octets == data
  {
    hide CharLength;
    if |data| == 0 { return Empty, false; }
    truncated := false;
    var shown := data;
    if limit > 0 && |data| > limit {
      shown := TruncateUTF8Prefix(data[..limit]);
      truncated := true;
    }
    text := if Valid(shown) then Quoted(shown) else NonUtf8;
  }

  lemma ValidPrefixStartsWithChar(p: bytes, s: bytes)
    requires p <= s && Valid(p) && p != []
    ensures CharLength(s) > 0 && CharLength(s) == CharLength(p) <= |p|
  {
    CharIsPrefixDetermined(p, s);
  }

  /** The first character fits: the longest valid prefix is it and the longest valid prefix of the rest. */
  lemma LongestPrefixStep(v: Scalar, rest: bytes, limit: nat, r: bytes)
    requires |Encode(v)| <= limit <= |Encode(v) + rest|
    requires LongestValidPrefix(r, (Encode(v) + rest)[..limit])
    ensures Encode(v) <= r
    ensures LongestValidPrefix(r[|Encode(v)|..], rest[..limit - |Encode(v)|])
  {
    hide CharLength, Encode;
    var n := |Encode(v)|;
    var s := Encode(v) + rest;
    EncodedFirst(v, []);
    assert Encode(v) + [] == Encode(v);
    EncodedFirst(v, rest);
    assert s[..limit][..n] == Encode(v);
    assert Valid(s[..limit][..n]);
    assert |r| >= n;
    ValidPrefixStartsWithChar(r, s);
    var cut := rest[..limit - n];
    forall k | |r| - n < k <= |cut| ensures !Valid(cut[..k]) {
      var longer := s[..limit][..n + k];
      assert longer == Encode(v) + cut[..k];
      EncodedFirst(v, cut[..k]);
    }
  }

  /**
    Truncating valid text keeps exactly the whole code points that fit: it ends on a code-point
    boundary, the next code point would not fit, and at most three octets below the limit are given up.
   */
  lemma {:induction false} TruncationKeepsWholeCodePoints(vs: seq<Scalar>, limit: nat, r: bytes) returns (k: nat)
    requires limit <= |EncodeAll(vs)|
    requires LongestValidPrefix(r, EncodeAll(vs)[..limit])
    ensures k <= |vs| && r == EncodeAll(vs[..k])
    ensures k < |vs| ==> |EncodeAll(vs[..k + 1])| > limit
    ensures limit - |r| <= 3
  {
    hide CharLength, Encode;
    if vs == [] {
      k := 0;
    } else {
      var v, rest := vs[0], EncodeAll(vs[1..]);
      var n := |Encode(v)|;
      if n > limit {
        k := 0;
        assert vs[..1][0] == v && vs[..1][1..] == [];
        if r != [] {
          ValidPrefixStartsWithChar(r, Encode(v) + rest);
          EncodedFirst(v, rest);
        }
      } else {
        LongestPrefixStep(v, rest, limit, r);
        var j := TruncationKeepsWholeCodePoints(vs[1..], limit - n, r[n..]);
        k := j + 1;
        assert vs[..k][1..] == vs[1..][..j];
        assert r == Encode(v) + r[n..];
        if k < |vs| { assert vs[..k + 1][1..] == vs[1..][..j + 1]; }
      }
    }
  }
}
