/**
  Byte streams of frames: what repeated reads take from the octets received, and what repeated
  sends leave on the connection.
 */
module Streams {
  import opened Results
  import opened Wire
  import opened Frames
  import opened FrameLaws

  /** One read: not enough octets, a payload that does not parse, or a frame. */
  datatype Taken = Short | Malformed(rest: bytes) | Got(frame: Frame, rest: bytes)

  function TakeFrame(s: bytes): Taken {
    if |s| < FRAME_HEADER_LENGTH then Short
    else
      var h := ParseHeader(s[..FRAME_HEADER_LENGTH]).value;
      var end := FRAME_HEADER_LENGTH + h.length;
      if |s| < end then Short
      else
        match ParseFrame(h, s[FRAME_HEADER_LENGTH..end])
        case None => Malformed(s[end..])
        case Some(f) => Got(f, s[end..])
  }

  datatype Batch = Batch(frames: seq<Frame>, rest: bytes)

  /** The first `n` reads of `s`, when every one of them yields a frame. */
  function Delivered(s: bytes, n: nat): (r: Option<Batch>)
    ensures r.Some? ==> |r.value.frames| == n
  {
    if n == 0 then Some(Batch([], s))
    else
      var b :- Delivered(s, n - 1);
      match TakeFrame(b.rest)
      case Got(f, rest) => Some(Batch(b.frames + [f], rest))
      case _ => None
  }

  /** What sending `f` puts on the wire: nothing when it does not marshal. */
  function Octets(f: Frame): bytes {
    if Marshal(f).Some? then Marshal(f).value else []
  }

  function AllOctets(fs: seq<Frame>): bytes {
    if fs == [] then [] else AllOctets(fs[..|fs| - 1]) + Octets(fs[|fs| - 1])
  }

  function AllCanon(fs: seq<Frame>): (cs: seq<Frame>)
    ensures |cs| == |fs| && forall i :: 0 <= i < |fs| ==> cs[i] == Canon(fs[i])
  {
    seq(|fs|, i requires 0 <= i < |fs| => Canon(fs[i]))
  }

  lemma AllCanonSnoc(fs: seq<Frame>, f: Frame)
    ensures AllCanon(fs + [f]) == AllCanon(fs) + [Canon(f)]
  {
    hide Canon;
  }

  lemma AllCanonInit(fs: seq<Frame>)
    requires fs != []
    ensures AllCanon(fs)[..|fs| - 1] == AllCanon(fs[..|fs| - 1]) && AllCanon(fs)[|fs| - 1] == Canon(fs[|fs| - 1])
  {
    hide Canon;
  }

  lemma AllOctetsSnoc(fs: seq<Frame>, f: Frame)
    ensures AllOctets(fs + [f]) == AllOctets(fs) + Octets(f)
  {
    assert (fs + [f])[..|fs|] == fs;
  }

  lemma {:induction false} AllOctetsConcat(fs: seq<Frame>, gs: seq<Frame>)
    ensures AllOctets(fs + gs) == AllOctets(fs) + AllOctets(gs)
  {
    hide *;
    if gs == [] {
      NoOctets();
      assert fs + gs == fs && AllOctets(fs) + [] == AllOctets(fs);
    } else {
      var init, last := gs[..|gs| - 1], gs[|gs| - 1];
      AllOctetsConcat(fs, init);
      OctetsConcatStep(fs, init, last);
      assert init + [last] == gs;
    }
  }

  lemma OctetsConcatStep(fs: seq<Frame>, gs: seq<Frame>, g: Frame)
    requires AllOctets(fs + gs) == AllOctets(fs) + AllOctets(gs)
    ensures AllOctets(fs + (gs + [g])) == AllOctets(fs) + AllOctets(gs + [g])
  {
    hide *;
    AllOctetsSnoc(fs + gs, g);
    AllOctetsSnoc(gs, g);
    assert fs + gs + [g] == fs + (gs + [g]);
  }

  lemma NoOctets()
    ensures AllOctets([]) == []
  {
  }

  lemma DeliveredNothing(s: bytes)
    ensures Delivered(s, 0) == Some(Batch([], s))
  {
  }

  lemma DeliveredSnoc(s: bytes, fs: seq<Frame>, rest: bytes, f: Frame, rest': bytes)
    requires Delivered(s, |fs|) == Some(Batch(fs, rest)) && TakeFrame(rest) == Got(f, rest')
    ensures Delivered(s, |fs + [f]|) == Some(Batch(fs + [f], rest'))
  {
    hide TakeFrame;
  }

  lemma DeliveredInit(s: bytes, fs: seq<Frame>, rest: bytes) returns (before: bytes)
    requires fs != [] && Delivered(s, |fs|) == Some(Batch(fs, rest))
    ensures Delivered(s, |fs| - 1) == Some(Batch(fs[..|fs| - 1], before))
    ensures TakeFrame(before) == Got(fs[|fs| - 1], rest)
  {
    hide TakeFrame;
    var batch := Delivered(s, |fs| - 1).value;
    before := batch.rest;
    assert fs[..|fs| - 1] == batch.frames;
  }

  lemma {:induction false} DeliveredPrefix(s: bytes, m: nat, n: nat)
    requires m <= n && Delivered(s, n).Some?
    ensures Delivered(s, m).Some?
    ensures Delivered(s, m).value.frames == Delivered(s, n).value.frames[..m]
    ensures m < n ==> TakeFrame(Delivered(s, m).value.rest).Got?
  {
    hide TakeFrame;
    if m < n {
      DeliveredPrefix(s, m, n - 1);
    }
  }

  /** Reading on from where a batch ended extends the batch. */
  lemma {:induction false} DeliveredConcat(s: bytes, fs: seq<Frame>, rest: bytes, gs: seq<Frame>, rest': bytes)
    requires Delivered(s, |fs|) == Some(Batch(fs, rest))
    requires Delivered(rest, |gs|) == Some(Batch(gs, rest'))
    ensures Delivered(s, |fs + gs|) == Some(Batch(fs + gs, rest'))
    decreases |gs|
  {
    hide *;
    if gs == [] {
      DeliveredNothing(rest);
      assert fs + gs == fs;
    } else {
      var init, last := gs[..|gs| - 1], gs[|gs| - 1];
      var before := DeliveredInit(rest, gs, rest');
      DeliveredConcat(s, fs, rest, init, before);
      DeliveredSnoc(s, fs + init, before, last, rest');
      assert fs + gs == fs + init + [last];
    }
  }

  // ---------------------------------------------------------------- whole-stream round trip

  lemma TakeMarshalled(h: Header, payload: bytes, rest: bytes)
    requires h.length <= MAX_UINT24
    ensures var s := MarshalHeader(h).value + payload + rest;
      var seen := h.(streamID := Low31(h.streamID));
      if |payload + rest| < h.length then TakeFrame(s) == Short
      else match ParseFrame(seen, (payload + rest)[..h.length])
           case None => TakeFrame(s) == Malformed((payload + rest)[h.length..])
           case Some(f) => TakeFrame(s) == Got(f, (payload + rest)[h.length..])
  {
    hide MarshalHeader, ParseHeader, ParseFrame, Low31;
    var head := MarshalHeader(h).value;
    var s := head + payload + rest;
    HeaderAfterMarshal(h);
    assert s[..FRAME_HEADER_LENGTH] == head;
    if |payload + rest| >= h.length {
      var end := FRAME_HEADER_LENGTH + h.length;
      assert s[FRAME_HEADER_LENGTH..end] == (payload + rest)[..h.length];
      assert s[end..] == (payload + rest)[h.length..];
    }
  }

  lemma TrueLength(f: Frame)
    requires Framed(f)
    ensures WireHeader(f).length == |Payload(f)|
    ensures WireHeader(f).(streamID := Low31(f.header.streamID)) == CanonHeader(f)
  {
    hide HasFlag, Low31, AppendUint32, SettingsBytes;
  }

  lemma OneFrame(f: Frame, rest: bytes)
    requires Sendable(f)
    ensures Marshal(f).Some?
    ensures TakeFrame(Octets(f) + rest) == Got(Canon(f), rest)
  {
    hide Payload, Canon, ParseFrame, MarshalHeader, TakeFrame;
    var p := Payload(f);
    TrueLength(f);
    TakeMarshalled(WireHeader(f), p, rest);
    assert (p + rest)[..|p|] == p && (p + rest)[|p|..] == rest;
    ParseAfterPrint(f);
  }

  lemma NoFrames(rest: bytes)
    ensures Delivered(AllOctets([]) + rest, 0) == Some(Batch(AllCanon([]), rest))
  {
    hide TakeFrame;
    assert AllOctets([]) + rest == rest;
  }

  lemma OneMoreFrame(fs: seq<Frame>, f: Frame, rest: bytes)
    requires Sendable(f)
    requires Delivered(AllOctets(fs) + (Octets(f) + rest), |fs|) == Some(Batch(AllCanon(fs), Octets(f) + rest))
    ensures Delivered(AllOctets(fs + [f]) + rest, |fs + [f]|) == Some(Batch(AllCanon(fs + [f]), rest))
  {
    hide *;
    OneFrame(f, rest);
    AllOctetsSnoc(fs, f);
    AllCanonSnoc(fs, f);
    var s := AllOctets(fs) + (Octets(f) + rest);
    assert AllOctets(fs + [f]) + rest == s;
    DeliveredSnoc(s, AllCanon(fs), Octets(f) + rest, Canon(f), rest);
  }

  /**
    Whole-stream round trip: the octets of any list of sendable frames are taken back as exactly
    their canonical forms, in order, and what follows them is left untouched.
   */
  lemma {:induction false} StreamRoundTrip(fs: seq<Frame>, rest: bytes)
    requires forall i :: 0 <= i < |fs| ==> Sendable(fs[i])
    ensures Delivered(AllOctets(fs) + rest, |fs|) == Some(Batch(AllCanon(fs), rest))
  {
    hide *;
    if fs == [] {
      NoFrames(rest);
    } else {
      var init, last := fs[..|fs| - 1], fs[|fs| - 1];
      StreamRoundTrip(init, Octets(last) + rest);
      OneMoreFrame(init, last, rest);
      assert fs == init + [last];
    }
  }

  predicate RoundTrips(f: Frame) {
    Marshal(f).Some? && TakeFrame(Marshal(f).value) == Got(Canon(f), [])
  }

  /**
    Exactly when one frame survives: its header type matches its kind, its payload fits 24 bits,
    and a raw frame states its true length. A typed payload of 2^32 octets or more marshals with
    its length wrapped, and so does not survive either.
   */
  lemma RoundTripsExactly(f: Frame)
    ensures RoundTrips(f) <==> Sendable(f)
  {
    hide Marshal, TakeFrame, Canon, WellTyped, Payload;
    if Sendable(f) {
      OneFrame(f, []);
      assert Marshal(f).value + [] == Marshal(f).value;
    }
    if RoundTrips(f) { SurvivorIsSendable(f); }
  }

  lemma SurvivorIsSendable(f: Frame)
    requires RoundTrips(f)
    ensures Sendable(f)
  {
    hide ParseFrame, MarshalHeader, TakeFrame, Canon, WellTyped;
    hide HasFlag, Low31, AppendUint32, SettingsBytes, Pad, PriorityField, PriorityBytes;
    var h, p := WireHeader(f), Payload(f);
    var seen := h.(streamID := Low31(h.streamID));
    TakeMarshalled(h, p, []);
    assert p + [] == p && Marshal(f).value == MarshalHeader(h).value + p + [];
    assert p[..|p|] == p;
    PayloadNormalForm(seen, p);
    ParsedIsCanonical(seen, p);
    CanonTypes(f);
  }

  lemma CanonTypes(f: Frame)
    ensures WellTyped(Canon(f)) <==> WellTyped(f)
  {
    hide Payload, HasFlag, Low31;
  }

  /**
    A payload too long for 32 bits: DATA holding 2^32 + k octets marshals as a frame of length k, and
    the receiver goes on reading the rest of the payload as if it were frames.
   */
  lemma WrappedLengthIsReadShort(stream: uint32, data: bytes, k: nat)
    requires k <= MAX_UINT24 && |data| == 0x1_0000_0000 + k
    ensures var f := DataFrame(Header(0, TYPE_DATA, 0, stream), 0, data);
      && Marshal(f).Some? && !RoundTrips(f)
      && TakeFrame(Marshal(f).value)
         == Got(DataFrame(Header(k, TYPE_DATA, 0, Low31(stream)), 0, data[..k]), data[k..])
  {
    hide MarshalHeader, TakeFrame, Low31;
    var f := DataFrame(Header(0, TYPE_DATA, 0, stream), 0, data);
    assert !HasFlag(0, FLAG_PADDED);
    assert Payload(f) == data && ToUint32(|data|) == k;
    TakeMarshalled(WireHeader(f), data, []);
    assert data + [] == data;
    assert Marshal(f).value == MarshalHeader(WireHeader(f)).value + data + [];
    RoundTripsExactly(f);
  }

  // ---------------------------------------------------------------- framing stays aligned

  /** The octets left after `k` reads that each found a whole frame, well-formed or not. */
  function AfterReads(s: bytes, k: nat): Option<bytes> {
    if k == 0 then Some(s)
    else
      var before :- AfterReads(s, k - 1);
      match TakeFrame(before)
      case Short => None
      case Malformed(rest) => Some(rest)
      case Got(_, rest) => Some(rest)
  }

  /** Where the frame whose header starts at `p` ends. */
  function Jump(s: bytes, p: nat): (r: Option<nat>)
    ensures r.Some? ==> p + FRAME_HEADER_LENGTH <= r.value <= |s|
  {
    if |s| < p + FRAME_HEADER_LENGTH then None
    else
      var end := p + FRAME_HEADER_LENGTH + ReadUint24(s[p..p + 3]).value;
      if |s| < end then None else Some(end)
  }

  /** The sum of 9 + Length over the first `k` headers, found by jumping from header to header. */
  function Frontier(s: bytes, k: nat): Option<nat> {
    if k == 0 then Some(0)
    else
      var p :- Frontier(s, k - 1);
      Jump(s, p)
  }

  lemma ReadJumps(s: bytes, p: nat)
    requires p <= |s|
    ensures match TakeFrame(s[p..])
      case Short => Jump(s, p) == None
      case Malformed(rest) => Jump(s, p).Some? && rest == s[Jump(s, p).value..]
      case Got(_, rest) => Jump(s, p).Some? && rest == s[Jump(s, p).value..]
  {
    hide ReadUint24, ReadUint32, Low31, ParseFrame;
    var before := s[p..];
    if |before| >= FRAME_HEADER_LENGTH {
      assert before[..FRAME_HEADER_LENGTH][..3] == s[p..p + 3];
      var end := FRAME_HEADER_LENGTH + ReadUint24(s[p..p + 3]).value;
      if |before| >= end { assert before[end..] == s[p + end..]; }
    }
  }

  /** Reads stay aligned with the headers alone, whatever the payloads between them hold. */
  lemma {:induction false} FramingStaysAligned(s: bytes, k: nat)
    ensures Frontier(s, k).Some? ==> Frontier(s, k).value <= |s|
    ensures AfterReads(s, k) == if Frontier(s, k).Some? then Some(s[Frontier(s, k).value..]) else None
  {
    hide TakeFrame, Jump;
    if k > 0 {
      FramingStaysAligned(s, k - 1);
      if Frontier(s, k - 1).Some? { ReadJumps(s, Frontier(s, k - 1).value); }
    } else {
      assert s[0..] == s;
    }
  }

  predicate SameLengthField(s: bytes, t: bytes, p: nat)
    requires |s| == |t|
  {
    p + 3 <= |s| ==> s[p..p + 3] == t[p..p + 3]
  }

  /** Octets outside the length fields may change freely without moving any later frame. */
  lemma {:induction false} PayloadsDoNotMoveFrames(s: bytes, t: bytes, k: nat)
    requires |s| == |t|
    requires forall i :: 0 <= i < k && Frontier(s, i).Some? ==> SameLengthField(s, t, Frontier(s, i).value)
    ensures Frontier(s, k) == Frontier(t, k)
  {
    hide ReadUint24;
    if k > 0 { PayloadsDoNotMoveFrames(s, t, k - 1); }
  }

  /** Delivered frames are reads, so they end where the headers say. */
  lemma {:induction false} DeliveredIsAligned(s: bytes, n: nat)
    requires Delivered(s, n).Some?
    ensures AfterReads(s, n) == Some(Delivered(s, n).value.rest)
  {
    hide TakeFrame;
    if n > 0 { DeliveredIsAligned(s, n - 1); }
  }
}
