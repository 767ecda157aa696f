/** The layers composed: octets to frames, frames to header blocks and events, events to captured streams. */
module EndToEnd {
  import opened Results
  import opened Wire
  import opened Frames
  import opened FrameLaws
  import opened Streams
  import opened Hpack
  import opened HeaderBlocks
  import opened HeaderBlockLaws
  import opened Endpoints
  import opened EndpointLaws
  import opened Captures
  import opened CaptureLaws

  predicate AllSendable(fs: seq<Frame>) {
    forall i :: 0 <= i < |fs| ==> Sendable(fs[i])
  }

  /** What the receiver of the octets `s` reports for its first `n` frames. */
  function ReportFor(engine: Engine, ep: Endpoint, s: bytes, n: nat): Option<History> {
    var batch :- Delivered(s, n);
    Some(Receiving(engine, ep, batch.frames))
  }

  lemma ReportOfSentFrames(engine: Engine, ep: Endpoint, fs: seq<Frame>, rest: bytes)
    requires AllSendable(fs)
    ensures ReportFor(engine, ep, AllOctets(fs) + rest, |fs|) == Some(Receiving(engine, ep, AllCanon(fs)))
  {
    hide Sendable, Receiving;
    StreamRoundTrip(fs, rest);
  }

  /**
    Over the wire, a peer's decoder is shown the same header blocks as the sender's own tracker, in
    the same order, and both report the same streams, END_STREAM bits and faults frame by frame.
   */
  lemma PeersObserveTheSameBlocks(
    sender: Engine, a: Endpoint, receiver: Engine, b: Endpoint, fs: seq<Frame>, rest: bytes)
    requires AllSendable(fs) && a.sent == b.received && RunSeenAlike(a.sent, fs)
    ensures var sending := Sending(sender, a, fs);
      match ReportFor(receiver, b, AllOctets(fs) + rest, |fs|)
      case None => false
      case Some(received) =>
        && Outlines(received.events) == Outlines(sending.events)
        && received.endpoint.received == sending.endpoint.sent
        && var blocks := BlockOctets(Reassemble(a.sent, fs).seen);
        && Decoded(sending.endpoint.request.decoderOps) == Decoded(a.request.decoderOps) + blocks
        && Decoded(received.endpoint.response.decoderOps) == Decoded(b.response.decoderOps) + blocks
  {
    hide AllSendable, RunSeenAlike, Sending, Receiving, Reassemble;
    ReportOfSentFrames(receiver, b, fs, rest);
    PeerEventsMatch(sender, a, receiver, b, fs);
    PeerSeesSameBlocks(a.sent, fs);
    SenderDecodesReassembledBlocks(sender, a, fs);
    ReceiverDecodesReassembledBlocks(receiver, b, AllCanon(fs));
  }

  // ---------------------------------------------------------------- captured bodies

  /** DATA sent on stream `s`, in order. */
  function SentBody(s: uint32, fs: seq<Frame>): bytes {
    if fs == [] then [] else SentBody(s, fs[..|fs| - 1]) + DataOf(s, fs[|fs| - 1])
  }

  predicate LowData(f: Frame) {
    f.DataFrame? ==> LowStream(f)
  }

  lemma DataSurvives(s: uint32, f: Frame)
    requires LowData(f)
    ensures DataOf(s, Canon(f)) == DataOf(s, f)
  {
    hide Payload, HasFlag;
  }

  lemma EventKeepsFrame(engine: Engine, ep: Endpoint, f: Frame)
    ensures OnReceive(engine, ep, f).event.frame == f
  {
    hide Assemble;
  }

  lemma SentBodyInit(s: uint32, fs: seq<Frame>)
    requires fs != []
    ensures SentBody(s, fs) == SentBody(s, fs[..|fs| - 1]) + DataOf(s, fs[|fs| - 1])
  {
    hide DataOf;
  }

  lemma BodySnoc(s: uint32, events: seq<FrameEvent>, e: FrameEvent)
    ensures BodyOf(s, events + [e]) == BodyOf(s, events) + DataOf(s, e.frame)
  {
    hide DataOf;
    assert (events + [e])[..|events|] == events;
  }

  /** The body of a run is the DATA of the frames read, in order. */
  lemma {:induction false} BodyOfReceiving(engine: Engine, ep: Endpoint, fs: seq<Frame>, s: uint32)
    ensures BodyOf(s, Receiving(engine, ep, fs).events) == SentBody(s, fs)
  {
    if fs != [] {
      hide OnReceive, DataOf, BodyOf;
      var init, last := fs[..|fs| - 1], fs[|fs| - 1];
      BodyOfReceiving(engine, ep, init, s);
      var before := Receiving(engine, ep, init);
      var r := OnReceive(engine, before.endpoint, last);
      EventKeepsFrame(engine, before.endpoint, last);
      BodySnoc(s, before.events, r.event);
    }
  }

  lemma {:induction false} CanonKeepsBody(fs: seq<Frame>, s: uint32)
    requires forall i :: 0 <= i < |fs| ==> LowData(fs[i])
    ensures SentBody(s, AllCanon(fs)) == SentBody(s, fs)
  {
    hide *;
    if fs == [] {
      NoneSent(s);
    } else {
      CanonKeepsBody(fs[..|fs| - 1], s);
      CanonBodyStep(fs, s);
    }
  }

  lemma NoneSent(s: uint32)
    ensures SentBody(s, AllCanon([])) == SentBody(s, [])
  {
  }

  lemma CanonBodyStep(fs: seq<Frame>, s: uint32)
    requires fs != [] && LowData(fs[|fs| - 1])
    requires SentBody(s, AllCanon(fs[..|fs| - 1])) == SentBody(s, fs[..|fs| - 1])
    ensures SentBody(s, AllCanon(fs)) == SentBody(s, fs)
  {
    hide *;
    DataSurvives(s, fs[|fs| - 1]);
    AllCanonInit(fs);
    SentBodyInit(s, fs);
    SentBodyInit(s, AllCanon(fs));
  }

  // ---------------------------------------------------------------- runs without errors

  /** The decoder accepted every block it was shown. */
  predicate NoDecodeFailure(events: seq<FrameEvent>) {
    forall i :: 0 <= i < |events| ==> events[i].error != Some(DecodeFailed)
  }

  predicate NoFaults(seen: seq<Observation>) {
    forall i :: 0 <= i < |seen| ==> !seen[i].Fault?
  }

  predicate NoErrors(events: seq<FrameEvent>) {
    forall i :: 0 <= i < |events| ==> events[i].error.None?
  }

  /** Where every block decodes, events are error-free exactly when reassembly is fault-free. */
  lemma {:induction false} ErrorsAreFaults(engine: Engine, ep: Endpoint, fs: seq<Frame>)
    requires NoDecodeFailure(Receiving(engine, ep, fs).events)
    ensures NoErrors(Receiving(engine, ep, fs).events) <==> NoFaults(Reassemble(ep.received, fs).seen)
  {
    if fs != [] {
      hide Assemble;
      var init, last := fs[..|fs| - 1], fs[|fs| - 1];
      var before := Receiving(engine, ep, init);
      var seen := Assemble(before.endpoint.received, last).seen;
      var event := EventFor(engine, before.endpoint.response, last, seen);
      AllButLast(before.events, event);
      ErrorsAreFaults(engine, ep, init);
      ReceiverDecodesReassembledBlocks(engine, ep, init);
      assert event.error.None? <==> !seen.Fault?;
      FaultsSnoc(Reassemble(ep.received, init).seen, seen);
    }
  }

  lemma AllButLast(events: seq<FrameEvent>, e: FrameEvent)
    ensures NoErrors(events + [e]) <==> NoErrors(events) && e.error.None?
    ensures NoDecodeFailure(events + [e]) <==> NoDecodeFailure(events) && e.error != Some(DecodeFailed)
  {
    assert (events + [e])[|events|] == e;
    assert forall i :: 0 <= i < |events| ==> (events + [e])[i] == events[i];
  }

  lemma FaultsSnoc(seen: seq<Observation>, o: Observation)
    ensures NoFaults(seen + Loud(o)) <==> NoFaults(seen) && !o.Fault?
  {
    var all := seen + Loud(o);
    assert forall i :: 0 <= i < |seen| ==> all[i] == seen[i];
    if !o.Quiet? { assert all[|seen|] == o; }
  }

  lemma {:induction false} MessagesAreNoFaults(ms: seq<Message>)
    ensures NoFaults(Blocks(ms))
  {
    if ms != [] {
      MessagesAreNoFaults(ms[..|ms| - 1]);
      FaultsSnoc(Blocks(ms[..|ms| - 1]), BlockOf(ms[|ms| - 1]));
    }
  }

  lemma {:induction false} ErrorFreeRunIsNotStopped(d: Display, c: Capture, events: seq<FrameEvent>)
    requires NoErrors(events)
    ensures var r := HandleAll(d, Some(c), events);
      r.stoppedAt.None? && r.capture == Some(CaptureAll(c, events))
  {
    hide CaptureEvent, Shows;
    if events != [] {
      ErrorFreeRunIsNotStopped(d, c, events[..|events| - 1]);
    }
  }

  /** `fs` arrives unharmed at a receiver that starts afresh: well-formed traffic that the decoder accepts. */
  predicate ArrivesWell(engine: Engine, ep: Endpoint, fs: seq<Frame>, cuts: seq<seq<Frame>>, ms: seq<Message>) {
    && AllSendable(fs) && RunSeenAlike(Idle, fs) && (forall i :: 0 <= i < |fs| ==> LowData(fs[i]))
    && HeaderFrames(fs) == Flatten(cuts) && CutsOf(cuts, ms)
    && ep.received == Idle
    && NoDecodeFailure(Receiving(engine, ep, AllCanon(fs)).events)
  }

  lemma ArrivalIsErrorFree(engine: Engine, ep: Endpoint, fs: seq<Frame>, cuts: seq<seq<Frame>>, ms: seq<Message>)
    requires ArrivesWell(engine, ep, fs, cuts, ms)
    ensures NoErrors(Receiving(engine, ep, AllCanon(fs)).events)
  {
    hide AllSendable, RunSeenAlike, LowData, Receiving, Reassemble;
    hide Flatten, CutsOf, HeaderFrames, NoDecodeFailure, NoFaults, NoErrors;
    PeerSeesSameBlocks(Idle, fs);
    TrafficYieldsItsMessages(fs, cuts, ms);
    MessagesAreNoFaults(ms);
    ErrorsAreFaults(engine, ep, AllCanon(fs));
  }

  lemma TrafficIsHandled(
    d: Display, engine: Engine, ep: Endpoint, c: Capture, fs: seq<Frame>, cuts: seq<seq<Frame>>, ms: seq<Message>)
    requires ArrivesWell(engine, ep, fs, cuts, ms)
    ensures var events := Receiving(engine, ep, AllCanon(fs)).events;
      var r := HandleAll(d, Some(c), events);
      r.stoppedAt.None? && r.capture == Some(CaptureAll(c, events))
  {
    hide ArrivesWell, Receiving, HandleAll, CaptureAll, NoErrors;
    ArrivalIsErrorFree(engine, ep, fs, cuts, ms);
    ErrorFreeRunIsNotStopped(d, c, Receiving(engine, ep, AllCanon(fs)).events);
  }

  /**
    End to end: frames sent with any padding, any cut of their header blocks and any interleaving,
    carried as octets, are captured so that every stream's body grows by the data sent on it.
   */
  lemma BodiesAreCapturedEndToEnd(
    d: Display, engine: Engine, ep: Endpoint, c: Capture,
    fs: seq<Frame>, cuts: seq<seq<Frame>>, ms: seq<Message>, s: uint32, rest: bytes)
    requires ArrivesWell(engine, ep, fs, cuts, ms)
    ensures match ReportFor(engine, ep, AllOctets(fs) + rest, |fs|)
      case None => false
      case Some(received) =>
        var r := HandleAll(d, Some(c), received.events);
        && r.stoppedAt.None? && r.capture.Some?
        && StreamIn(r.capture.value, s).body == StreamIn(c, s).body + SentBody(s, fs)
  {
    hide AllSendable, LowData, Receiving, HandleAll, CaptureAll, BodyOf, SentBody, HeadersOf, Ended;
    hide Flatten, CutsOf, HeaderFrames, NoDecodeFailure, RunSeenAlike;
    ReportOfSentFrames(engine, ep, fs, rest);
    TrafficIsHandled(d, engine, ep, c, fs, cuts, ms);
    CaptureDescribesStreams(c, Receiving(engine, ep, AllCanon(fs)).events, s);
    BodyOfReceiving(engine, ep, AllCanon(fs), s);
    CanonKeepsBody(fs, s);
  }

  lemma EventIsOneKind(engine: Engine, ep: Endpoint, f: Frame)
    ensures OneKind(OnReceive(engine, ep, f).event)
  {
    hide HasFlag;
  }

  lemma {:induction false} EventsAreOneKind(engine: Engine, ep: Endpoint, fs: seq<Frame>)
    ensures forall i :: 0 <= i < |fs| ==> OneKind(Receiving(engine, ep, fs).events[i])
  {
    if fs != [] {
      hide OneKind, OnReceive;
      var init, last := fs[..|fs| - 1], fs[|fs| - 1];
      EventsAreOneKind(engine, ep, init);
      EventIsOneKind(engine, Receiving(engine, ep, init).endpoint, last);
    }
  }

  /**
    And what would be written out is one stream with the body sent on it: the target, or the stream
    selected before, or the first nonzero stream whose end was recorded.
   */
  lemma SelectedBodyEndToEnd(
    d: Display, engine: Engine, ep: Endpoint, c: Capture,
    fs: seq<Frame>, cuts: seq<seq<Frame>>, ms: seq<Message>, rest: bytes)
    requires ArrivesWell(engine, ep, fs, cuts, ms)
    ensures match ReportFor(engine, ep, AllOctets(fs) + rest, |fs|)
      case None => false
      case Some(received) =>
        var r := HandleAll(d, Some(c), received.events);
        var s := if c.explicitStream then c.targetStreamID else Settled(c.selectedStream, received.events);
        && r.capture.Some?
        && Selected(r.capture.value)
           == (if (c.explicitStream || s != 0) && (s in c.streams || Mentioned(s, received.events))
               then Some(Extended(StreamIn(c, s), s, received.events)) else None)
        && BodyOf(s, received.events) == SentBody(s, fs)
  {
    hide AllSendable, LowData, Receiving, HandleAll, CaptureAll, BodyOf, SentBody, HeadersOf, Ended, Mentioned;
    hide Flatten, CutsOf, HeaderFrames, NoDecodeFailure, RunSeenAlike, Settled, Extended, Selected, OneKind;
    var events := Receiving(engine, ep, AllCanon(fs)).events;
    ReportOfSentFrames(engine, ep, fs, rest);
    TrafficIsHandled(d, engine, ep, c, fs, cuts, ms);
    EventsAreOneKind(engine, ep, AllCanon(fs));
    SelectedStreamIsComplete(c, events);
    var s := if c.explicitStream then c.targetStreamID else Settled(c.selectedStream, events);
    BodyOfReceiving(engine, ep, AllCanon(fs), s);
    CanonKeepsBody(fs, s);
  }
}
