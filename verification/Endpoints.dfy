/**
  The protocol state one client keeps besides its connection: two codecs and two header-block
  machines, and how a frame sent or received changes them (client/client.go).
 */
module Endpoints {
  import opened Wire
  import opened Frames
  import opened Hpack
  import opened HeaderBlocks

  datatype Endpoint = Endpoint(request: CodecState, response: CodecState, sent: Tracking, received: Tracking)

  datatype Reaction = Reaction(endpoint: Endpoint, event: FrameEvent)

  function NewEndpoint(maxTable: uint32): Endpoint {
    Endpoint(FreshCodec(INITIAL_HEADER_TABLE_SIZE, INITIAL_HEADER_TABLE_SIZE, INITIAL_HEADER_TABLE_SIZE),
             FreshCodec(INITIAL_HEADER_TABLE_SIZE, INITIAL_HEADER_TABLE_SIZE, maxTable), Idle, Idle)
  }

  function WithReceivedSettings(codec: CodecState, settings: seq<Setting>): CodecState {
    if settings == [] then codec
    else
      var before := WithReceivedSettings(codec, settings[..|settings| - 1]);
      var s := settings[|settings| - 1];
      if s.id == SETTING_HEADER_TABLE_SIZE then before.WithMaxTableSize(s.value) else before
  }

  function WithSentSettings(codec: CodecState, settings: seq<Setting>): CodecState {
    if settings == [] then codec
    else
      var before := WithSentSettings(codec, settings[..|settings| - 1]);
      var s := settings[|settings| - 1];
      if s.id == SETTING_HEADER_TABLE_SIZE then before.WithAllowedMax(s.value) else before
  }

  function SettingsIn(f: Frame): seq<Setting> {
    if f.SettingsFrame? then f.settings else []
  }

  function OnReceive(engine: Engine, ep: Endpoint, f: Frame): Reaction {
    var step := Assemble(ep.received, f);
    Reaction(Endpoint(WithReceivedSettings(ep.request, SettingsIn(f)),
                      CodecAfter(ep.response, step.seen), ep.sent, step.next),
             EventFor(engine, ep.response, f, step.seen))
  }

  function OnSend(engine: Engine, ep: Endpoint, f: Frame): Reaction {
    var step := Assemble(ep.sent, f);
    Reaction(Endpoint(CodecAfter(ep.request, step.seen),
                      WithSentSettings(ep.response, SettingsIn(f)), step.next, ep.received),
             EventFor(engine, ep.request, f, step.seen))
  }

  /** The endpoint after receiving `fs` in order, and what it reported. */
  datatype History = History(endpoint: Endpoint, events: seq<FrameEvent>)

  function Receiving(engine: Engine, ep: Endpoint, fs: seq<Frame>): (h: History)
    ensures |h.events| == |fs|
  {
    if fs == [] then History(ep, [])
    else
      var before := Receiving(engine, ep, fs[..|fs| - 1]);
      var r := OnReceive(engine, before.endpoint, fs[|fs| - 1]);
      History(r.endpoint, before.events + [r.event])
  }

  function Sending(engine: Engine, ep: Endpoint, fs: seq<Frame>): (h: History)
    ensures |h.events| == |fs|
  {
    if fs == [] then History(ep, [])
    else
      var before := Sending(engine, ep, fs[..|fs| - 1]);
      var r := OnSend(engine, before.endpoint, fs[|fs| - 1]);
      History(r.endpoint, before.events + [r.event])
  }

  lemma ReceivingSnoc(engine: Engine, ep: Endpoint, fs: seq<Frame>, f: Frame)
    ensures Receiving(engine, ep, fs + [f])
         == var before := Receiving(engine, ep, fs);
            var r := OnReceive(engine, before.endpoint, f);
            History(r.endpoint, before.events + [r.event])
  {
    assert (fs + [f])[..|fs|] == fs;
  }
}
