/** Properties of whole runs of sends and receives on one endpoint, and between two of them. */
module EndpointLaws {
  import opened Results
  import opened Wire
  import opened Frames
  import opened FrameLaws
  import opened Streams
  import opened Hpack
  import opened HeaderBlocks
  import opened HeaderBlockLaws
  import opened Endpoints

  // ---------------------------------------------------------------- table sizes

  datatype Action = Sent(frame: Frame) | Received(frame: Frame)

  function React(engine: Engine, ep: Endpoint, action: Action): Endpoint {
    match action
    case Sent(f) => OnSend(engine, ep, f).endpoint
    case Received(f) => OnReceive(engine, ep, f).endpoint
  }

  function After(engine: Engine, ep: Endpoint, actions: seq<Action>): Endpoint {
    if actions == [] then ep
    else React(engine, After(engine, ep, actions[..|actions| - 1]), actions[|actions| - 1])
  }

  /** All settings entries received (or sent) in a run, in order. */
  function Entries(actions: seq<Action>, received: bool): seq<Setting> {
    if actions == [] then []
    else
      var a := actions[|actions| - 1];
      Entries(actions[..|actions| - 1], received) + if a.Received? == received then SettingsIn(a.frame) else []
  }

  /** The last HEADER_TABLE_SIZE among the entries, searching from the end. */
  function LastTableSize(settings: seq<Setting>): Option<uint32> {
    if settings == [] then None
    else
      var s := settings[|settings| - 1];
      if s.id == SETTING_HEADER_TABLE_SIZE then Some(s.value) else LastTableSize(settings[..|settings| - 1])
  }

  function Or<T>(o: Option<T>, otherwise: T): T {
    if o.Some? then o.value else otherwise
  }

  lemma {:induction false} LastOfConcat(a: seq<Setting>, b: seq<Setting>)
    ensures LastTableSize(a + b) == if LastTableSize(b).Some? then LastTableSize(b) else LastTableSize(a)
  {
    if b == [] {
      assert a + b == a;
    } else {
      LastOfConcat(a, b[..|b| - 1]);
      assert (a + b)[..|a + b| - 1] == a + b[..|b| - 1];
    }
  }

  lemma {:induction false} ReceivedSettingsSize(codec: CodecState, settings: seq<Setting>)
    ensures var after := WithReceivedSettings(codec, settings); var last := LastTableSize(settings);
      && after.maxSize == Or(last, codec.maxSize)
      && SizesOf(after) == if last.Some? then AllOf(last.value) else SizesOf(codec)
  {
    if settings != [] {
      hide SizesOf;
      var before := WithReceivedSettings(codec, settings[..|settings| - 1]);
      ReceivedSettingsSize(codec, settings[..|settings| - 1]);
      MaxTableSizes(before, settings[|settings| - 1].value);
    }
  }

  lemma {:induction false} SentSettingsLimit(codec: CodecState, settings: seq<Setting>)
    ensures var last := LastTableSize(settings);
      SizesOf(WithSentSettings(codec, settings))
        == if last.Some? then SizesOf(codec).(allowed := last) else SizesOf(codec)
  {
    if settings != [] {
      var before := WithSentSettings(codec, settings[..|settings| - 1]);
      SentSettingsLimit(codec, settings[..|settings| - 1]);
      OpsSnoc(before.decoderOps, AllowMax(settings[|settings| - 1].value));
    }
  }

  lemma DecodingKeepsSizes(codec: CodecState, seen: Observation)
    ensures SizesOf(CodecAfter(codec, seen)) == SizesOf(codec) && CodecAfter(codec, seen).maxSize == codec.maxSize
  {
    if seen.Block? { OpsSnoc(codec.decoderOps, Decode(seen.octets)); }
  }

  lemma ReactSizes(engine: Engine, ep: Endpoint, action: Action)
    ensures var next := React(engine, ep, action); var last := LastTableSize(SettingsIn(action.frame));
      && (action.Received? ==>
            && next.request.maxSize == Or(last, ep.request.maxSize)
            && SizesOf(next.request) == (if last.Some? then AllOf(last.value) else SizesOf(ep.request))
            && SizesOf(next.response) == SizesOf(ep.response))
      && (action.Sent? ==>
            && next.request.maxSize == ep.request.maxSize && SizesOf(next.request) == SizesOf(ep.request)
            && SizesOf(next.response)
               == if last.Some? then SizesOf(ep.response).(allowed := last) else SizesOf(ep.response))
  {
    hide Assemble, SizesOf, LastTableSize, SettingsIn, CodecAfter;
    match action
    case Sent(f) =>
      SentSettingsLimit(ep.response, SettingsIn(f));
      DecodingKeepsSizes(ep.request, Assemble(ep.sent, f).seen);
    case Received(f) =>
      ReceivedSettingsSize(ep.request, SettingsIn(f));
      DecodingKeepsSizes(ep.response, Assemble(ep.received, f).seen);
  }

  /**
    After any mix of sends and receives, the request codec's table size, with its encoder's and decoder's
    limits, is the last one the peer's SETTINGS asked for, and the response decoder's limit is the last one
    this side's SETTINGS announced (RFC 9113, section 6.5.3; RFC 7541, section 4.2). Nothing else moves.
   */
  lemma {:induction false} TableSizesFollowSettings(engine: Engine, maxTable: uint32, actions: seq<Action>)
    ensures var ep := After(engine, NewEndpoint(maxTable), actions);
      var asked := Or(LastTableSize(Entries(actions, true)), 4096);
      var announced := Or(LastTableSize(Entries(actions, false)), maxTable);
      && ep.request.maxSize == asked && SizesOf(ep.request) == AllOf(asked)
      && SizesOf(ep.response) == Sizes(Some(4096), Some(4096), Some(announced), Some(4096))
  {
    if actions == [] {
      FreshSizes(4096, 4096, 4096);
      FreshSizes(4096, 4096, maxTable);
    } else {
      hide React, LastTableSize, SettingsIn, SizesOf;
      var init, last := actions[..|actions| - 1], actions[|actions| - 1];
      TableSizesFollowSettings(engine, maxTable, init);
      ReactSizes(engine, After(engine, NewEndpoint(maxTable), init), last);
      LastOfConcat(Entries(init, true), SettingsIn(last.frame));
      LastOfConcat(Entries(init, false), SettingsIn(last.frame));
      assert Entries(init, true) + [] == Entries(init, true);
      assert Entries(init, false) + [] == Entries(init, false);
    }
  }

  /** Sending raw frames, even ones that carry SETTINGS or HEADERS octets, leaves the endpoint alone. */
  lemma RawFramesAreInvisible(engine: Engine, ep: Endpoint, f: Frame)
    requires f.RawFrame?
    ensures OnSend(engine, ep, f) == Reaction(ep, PlainEvent(f))
    ensures OnReceive(engine, ep, f) == Reaction(ep, PlainEvent(f))
  {
  }

  // ---------------------------------------------------------------- decode logs

  /** The header blocks among the observations. */
  function BlockOctets(seen: seq<Observation>): seq<bytes> {
    if seen == [] then []
    else
      var last := seen[|seen| - 1];
      BlockOctets(seen[..|seen| - 1]) + if last.Block? then [last.octets] else []
  }

  lemma BlockOctetsLoud(seen: seq<Observation>, o: Observation)
    ensures BlockOctets(seen + Loud(o)) == BlockOctets(seen) + if o.Block? then [o.octets] else []
  {
    if o.Quiet? {
      assert seen + [] == seen;
    } else {
      assert (seen + [o])[..|seen|] == seen;
    }
  }

  /** A receiver's decoder is shown exactly the blocks the reference machine reassembles, in order. */
  lemma {:induction false} ReceiverDecodesReassembledBlocks(engine: Engine, ep: Endpoint, fs: seq<Frame>)
    ensures var after := Receiving(engine, ep, fs).endpoint;
      && after.received == Reassemble(ep.received, fs).last
      && Decoded(after.response.decoderOps)
         == Decoded(ep.response.decoderOps) + BlockOctets(Reassemble(ep.received, fs).seen)
  {
    hide Assemble;
    if fs != [] {
      var init, last := fs[..|fs| - 1], fs[|fs| - 1];
      var before := Receiving(engine, ep, init).endpoint;
      ReceiverDecodesReassembledBlocks(engine, ep, init);
      var seen := Assemble(before.received, last).seen;
      BlockOctetsLoud(Reassemble(ep.received, init).seen, seen);
      if seen.Block? { OpsSnoc(before.response.decoderOps, Decode(seen.octets)); }
    }
  }

  lemma {:induction false} SenderDecodesReassembledBlocks(engine: Engine, ep: Endpoint, fs: seq<Frame>)
    ensures var after := Sending(engine, ep, fs).endpoint;
      && after.sent == Reassemble(ep.sent, fs).last
      && Decoded(after.request.decoderOps)
         == Decoded(ep.request.decoderOps) + BlockOctets(Reassemble(ep.sent, fs).seen)
  {
    hide Assemble;
    if fs != [] {
      var init, last := fs[..|fs| - 1], fs[|fs| - 1];
      var before := Sending(engine, ep, init).endpoint;
      SenderDecodesReassembledBlocks(engine, ep, init);
      var seen := Assemble(before.sent, last).seen;
      BlockOctetsLoud(Reassemble(ep.sent, init).seen, seen);
      if seen.Block? { OpsSnoc(before.request.decoderOps, Decode(seen.octets)); }
    }
  }

  /** The part of an event that does not depend on what the decoder answers. */
  datatype Outline = Outline(complete: bool, streamID: uint32, endStream: bool, fault: Option<Failure>)

  function OutlineOf(e: FrameEvent): Outline {
    Outline(e.complete, e.streamID, e.endStream, if e.error == Some(DecodeFailed) then None else e.error)
  }

  function Outlines(events: seq<FrameEvent>): seq<Outline> {
    if events == [] then []
    else Outlines(events[..|events| - 1]) + [OutlineOf(events[|events| - 1])]
  }

  lemma OutlinesSnoc(events: seq<FrameEvent>, e: FrameEvent)
    ensures Outlines(events + [e]) == Outlines(events) + [OutlineOf(e)]
  {
    assert (events + [e])[..|events|] == events;
  }

  /** Event by event, the sender's tracker and its peer's report the same blocks, streams and faults. */
  lemma {:induction false} PeerEventsMatch(sender: Engine, a: Endpoint, receiver: Engine, b: Endpoint, fs: seq<Frame>)
    requires a.sent == b.received && RunSeenAlike(a.sent, fs)
    ensures var sending, receiving := Sending(sender, a, fs), Receiving(receiver, b, AllCanon(fs));
      && sending.endpoint.sent == receiving.endpoint.received
      && Outlines(sending.events) == Outlines(receiving.events)
  {
    if fs == [] {
      assert AllCanon(fs) == [];
    } else {
      hide Assemble, Canon, SeenAlike, OutlineOf, Reassemble, AllCanon, Outlines;
      var init, last := fs[..|fs| - 1], fs[|fs| - 1];
      PeerEventsMatch(sender, a, receiver, b, init);
      AllCanonInit(fs);
      SenderDecodesReassembledBlocks(sender, a, init);
      var before, after := Sending(sender, a, init), Receiving(receiver, b, AllCanon(init));
      PeerStepExactly(before.endpoint.sent, last);
      SameOutline(sender, before.endpoint, receiver, after.endpoint, last);
      OutlinesSnoc(before.events, OnSend(sender, before.endpoint, last).event);
      OutlinesSnoc(after.events, OnReceive(receiver, after.endpoint, Canon(last)).event);
    }
  }

  lemma SameOutline(sender: Engine, a: Endpoint, receiver: Engine, b: Endpoint, f: Frame)
    requires a.sent == b.received && Assemble(b.received, Canon(f)) == Assemble(a.sent, f)
    ensures OutlineOf(OnSend(sender, a, f).event) == OutlineOf(OnReceive(receiver, b, Canon(f)).event)
  {
    hide Assemble, Canon, EventFor, OutlineOf, WithReceivedSettings, WithSentSettings, SettingsIn, CodecAfter;
    var seen := Assemble(a.sent, f).seen;
    EventOutline(sender, a.request, f, seen);
    EventOutline(receiver, b.response, Canon(f), seen);
  }

  function ObservationOutline(seen: Observation): Outline {
    match seen
    case Quiet => Outline(false, 0, false, None)
    case Block(stream, endStream, _) => Outline(true, stream, endStream, None)
    case Fault(e) => Outline(false, 0, false, if e == DecodeFailed then None else Some(e))
  }

  lemma EventOutline(engine: Engine, codec: CodecState, f: Frame, seen: Observation)
    ensures OutlineOf(EventFor(engine, codec, f, seen)) == ObservationOutline(seen)
  {
  }
}
