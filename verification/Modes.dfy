/** Sending a request (request.go), and whole runs of the request, observe and script modes (main.go). */
module Modes {
  import opened Results
  import opened Wire
  import opened Frames
  import opened FrameLaws
  import opened Streams
  import opened Hpack
  import opened HeaderBlocks
  import opened HeaderBlockLaws
  import opened Endpoints
  import opened Clients
  import opened Captures
  import opened CaptureLaws
  import opened EndToEnd
  import opened Sessions
  import opened SessionLoops
  import opened SessionLaws
  import opened ScriptValues
  import opened ScriptSpecs
  import opened ScriptRun
  import opened ScriptRunLaws
  import opened ScriptPlanLaws

  // ---------------------------------------------------------------- the frames of a request

  function RequestHead(stream: uint32, block: bytes, body: bytes): Frame {
    var flags := if body == [] then FLAG_END_HEADERS + FLAG_END_STREAM else FLAG_END_HEADERS;
    HeadersFrame(Header(ToUint32(|block|), TYPE_HEADERS, flags, stream), 0, None, block)
  }

  function RequestBody(stream: uint32, body: bytes): Frame {
    DataFrame(Header(ToUint32(|body|), TYPE_DATA, FLAG_END_STREAM, stream), 0, body)
  }

  function RequestFrames(stream: uint32, block: bytes, body: bytes): seq<Frame> {
    [RequestHead(stream, block, body)] + if body == [] then [] else [RequestBody(stream, body)]
  }

  lemma RequestFlags()
    ensures HasFlag(FLAG_END_HEADERS + FLAG_END_STREAM, FLAG_END_HEADERS)
    ensures HasFlag(FLAG_END_HEADERS + FLAG_END_STREAM, FLAG_END_STREAM)
    ensures HasFlag(FLAG_END_HEADERS, FLAG_END_HEADERS) && !HasFlag(FLAG_END_HEADERS, FLAG_END_STREAM)
    ensures HasFlag(FLAG_END_STREAM, FLAG_END_STREAM)
    ensures !HasFlag(FLAG_END_HEADERS + FLAG_END_STREAM, FLAG_PADDED) && !HasFlag(FLAG_END_HEADERS, FLAG_PADDED)
    ensures !HasFlag(FLAG_END_HEADERS + FLAG_END_STREAM, FLAG_PRIORITY) && !HasFlag(FLAG_END_HEADERS, FLAG_PRIORITY)
    ensures !HasFlag(FLAG_END_STREAM, FLAG_PADDED)
  {
    assert HasFlag(5, 4) && HasFlag(5, 1) && HasFlag(4, 4) && !HasFlag(4, 1) && HasFlag(1, 1);
    assert !HasFlag(5, 8) && !HasFlag(4, 8) && !HasFlag(5, 32) && !HasFlag(4, 32) && !HasFlag(1, 8);
  }

  /** The peer reads one header block on the stream and the body as its DATA; the last frame ends the stream. */
  lemma PeerReadsTheRequest(stream: uint32, block: bytes, body: bytes, rest: bytes)
    requires stream < 0x8000_0000 && |block| <= MAX_UINT24 && |body| <= MAX_UINT24
    ensures var fs := RequestFrames(stream, block, body);
      && Delivered(AllOctets(fs) + rest, |fs|) == Some(Batch(fs, rest))
      && Reassemble(Idle, fs) == Run(Idle, [Block(stream, body == [], block)])
      && SentBody(stream, fs) == body
      && (body != [] ==> DataEndsStream(fs[1]))
  {
    RequestFlags();
    hide Delivered, AllOctets, TakeFrame, HasFlag;
    var fs := RequestFrames(stream, block, body);
    var head := RequestHead(stream, block, body);
    RequestIsCanonical(stream, block, body);
    StreamRoundTrip(fs, rest);
    assert [] + [head] == [head] && Reassemble(Idle, []) == Run(Idle, []);
    ReassembleSnoc(Idle, [], head);
    SentBodyInit(stream, [head]);
    assert [head][..0] == [];
    if body == [] {
      assert fs == [head];
    } else {
      var data := RequestBody(stream, body);
      assert fs == [head] + [data] && fs[..1] == [head];
      ReassembleSnoc(Idle, [head], data);
      SentBodyInit(stream, fs);
      assert SentBody(stream, [head]) + body == body;
    }
  }

  lemma RequestIsCanonical(stream: uint32, block: bytes, body: bytes)
    requires stream < 0x8000_0000 && |block| <= MAX_UINT24 && |body| <= MAX_UINT24
    ensures var fs := RequestFrames(stream, block, body);
      AllCanon(fs) == fs && forall i :: 0 <= i < |fs| ==> Sendable(fs[i])
  {
    RequestFlags();
    hide HasFlag;
    assert [] + block == block;
  }

  predicate RequestFits(stream: uint32, block: bytes, body: bytes) {
    Marshal(RequestHead(stream, block, body)).Some? && (body == [] || Marshal(RequestBody(stream, body)).Some?)
  }

  lemma RequestOctets(stream: uint32, block: bytes, body: bytes, sent: bytes)
    ensures var head, octets := Octets(RequestHead(stream, block, body)), AllOctets(RequestFrames(stream, block, body));
      if body == [] then octets == head
      else sent + octets == sent + head + Octets(RequestBody(stream, body))
  {
    hide Octets, RequestHead, RequestBody;
    var head := RequestHead(stream, block, body);
    OneAck(head);
    if body == [] {
      assert RequestFrames(stream, block, body) == [head];
    } else {
      AllOctetsSnoc([head], RequestBody(stream, body));
    }
  }

  method NewRequestHead(stream: uint32, block: bytes, body: bytes) returns (head: Frame)
    ensures head == RequestHead(stream, block, body)
  {
    var flags: uint8 := FLAG_END_HEADERS;
    if |body| == 0 {
      flags := flags + FLAG_END_STREAM;
    }
    head := HeadersFrame(Header(ToUint32(|block|), TYPE_HEADERS, flags, stream), 0, None, block);
  }

  method SendRequest(h2c: Client, stream: uint32, fields: seq<HeaderField>, body: bytes, out: OutputController)
    returns (ok: bool)
    requires h2c.Valid()
    modifies h2c.conn`sent, h2c.requestCodec, h2c.responseCodec, h2c.sentHeaderBlock, out
    ensures var block := h2c.requestCodec.engine.encode(old(h2c.requestCodec.encoderOps), fields);
      && (ok ==>
            block.Some? && h2c.conn.sent == old(h2c.conn.sent) + AllOctets(RequestFrames(stream, block.value, body)))
      && (Dependable(h2c, out) ==> (ok <==> block.Some? && RequestFits(stream, block.value, body)))
  {
    hide Marshal, Octets, OnSend, Client.View, LinesFor, AllOctets, RequestFrames;
    var block := h2c.EncodeHeaders(fields);
    if block.None? { return false; }
    RequestOctets(stream, block.value, body, h2c.conn.sent);
    hide RequestHead, RequestBody;
    var head := NewRequestHead(stream, block.value, body);
    ok := SendFrameAndReport(h2c, out, head);
    if !ok || |body| == 0 { return ok; }
    ok := SendFrameAndReport(h2c, out, RequestBody(stream, body));
  }

  // ---------------------------------------------------------------- whole runs

  /** What a run writes out of a capture that was `c` before it saw `events`, read from the frames `fs`. */
  ghost predicate Writes(c: Capture, events: seq<FrameEvent>, fs: seq<Frame>, written: Option<CapturedStream>) {
    var id := if c.explicitStream then c.targetStreamID else Settled(c.selectedStream, events);
    && written == (if (c.explicitStream || id != 0) && (id in c.streams || Mentioned(id, events))
                   then Some(Extended(StreamIn(c, id), id, events)) else None)
    && BodyOf(id, events) == SentBody(id, fs)
  }

  lemma TwoLoopsWrite(
    env1: Env, s1: Snapshot, s2: Snapshot, fs1: seq<Frame>, env2: Env, s3: Snapshot, s4: Snapshot, fs2: seq<Frame>)
    requires Advanced(env1, s1, s2, fs1) && Advanced(env2, s3, s4, fs2)
    requires s1.capture.Some? && s3.capture == s2.capture
    ensures s4.capture.Some?
    ensures Writes(s1.capture.value, EventsOf(env1, s1, fs1) + EventsOf(env2, s3, fs2), fs1 + fs2,
                   Selected(s4.capture.value))
  {
    hide Advanced, EventsOf, BodyOf, SentBody, Extended, Settled, Selected, Mentioned;
    TwoSessionsCaptureAsOne(env1, s1, s2, fs1, env2, s3, s4, fs2);
    var c := s1.capture.value;
    var events := EventsOf(env1, s1, fs1) + EventsOf(env2, s3, fs2);
    var id := if c.explicitStream then c.targetStreamID else Settled(c.selectedStream, events);
    SentBodyConcat(id, fs1, fs2);
  }

  lemma {:induction false} SentBodyConcat(s: uint32, fs: seq<Frame>, gs: seq<Frame>)
    ensures SentBody(s, fs + gs) == SentBody(s, fs) + SentBody(s, gs)
  {
    hide DataOf;
    if gs == [] {
      assert fs + gs == fs && SentBody(s, fs) + [] == SentBody(s, fs);
    } else {
      var n := |gs| - 1;
      SentBodyConcat(s, fs, gs[..n]);
      assert (fs + gs)[..|fs + gs| - 1] == fs + gs[..n];
    }
  }

  function GoodBye(stream: uint32): Frame {
    GoAwayFrame(Header(GOAWAY_MIN_LENGTH, TYPE_GOAWAY, 0, 0), stream, 0, [])
  }

  /** As a peer reads it: the last stream id cut to 31 bits, no error, no debug data. */
  lemma PeerReadsGoodBye(stream: uint32, rest: bytes)
    ensures TakeFrame(Octets(GoodBye(stream)) + rest)
         == Got(GoAwayFrame(Header(8, 7, 0, 0), stream % 0x8000_0000, 0, []), rest)
  {
    hide TakeFrame, Marshal, Octets;
    GoodByeFits(stream);
    OneFrame(GoodBye(stream), rest);
  }

  lemma GoodByeFits(stream: uint32)
    ensures |Payload(GoodBye(stream))| == 8 && Sendable(GoodBye(stream))
  {
    hide Low31;
  }

  /** The last steps of every mode: a GOAWAY if asked for and none was seen, then the capture is written out. */
  method Conclude(h2c: Client, stream: uint32, sendGoAway: bool, sawGoAway: bool, out: OutputController)
    returns (written: Option<CapturedStream>)
    requires h2c.Valid()
    modifies h2c.conn`sent, h2c.requestCodec, h2c.responseCodec, h2c.sentHeaderBlock, out
    ensures written == if out.capture == null then None else Selected(out.capture.View())
    ensures old(h2c.conn.sent) <= h2c.conn.sent <= old(h2c.conn.sent) + Octets(GoodBye(stream))
    ensures !sendGoAway || sawGoAway ==> h2c.conn.sent == old(h2c.conn.sent)
    ensures Dependable(h2c, out) && sendGoAway && !sawGoAway ==>
      h2c.conn.sent == old(h2c.conn.sent) + Octets(GoodBye(stream))
  {
    hide Octets, Marshal, OnSend, Client.View, Selected;
    if sendGoAway && !sawGoAway {
      GoodByeMarshals(stream);
      var event := h2c.SendFrame(GoodBye(stream));
      if event.Some? {
        var shown := out.HandleSent(event.value);
      }
    }
    written := None;
    if out.capture != null {
      written := out.capture.SelectedStream();
    }
  }

  lemma GoodByeMarshals(stream: uint32)
    ensures Marshal(GoodBye(stream)).Some?
  {
    hide MarshalHeader;
  }

  /**
    The observe mode: handshake, loop, conclusion. What is written out is one stream as all events of
    both loops tell it.
   */
  method RunObserve(
    h2c: Client, maxTable: uint32, maxRecv: nat, stream: uint32, sendGoAway: bool, out: OutputController)
    returns (ok: bool, written: Option<CapturedStream>,
             ghost hello: seq<Frame>, ghost middle: Snapshot, ghost fs: seq<Frame>)
    requires h2c.Valid()
    modifies h2c.Footprint(), out, out.capture
    ensures ok ==>
      var greet, observe := EnvOf(h2c, out, Handshake), EnvOf(h2c, out, Observe(maxRecv));
      var start := AfterHello(h2c.requestCodec.engine, old(Snap(h2c, out)), maxTable);
      && RunsTo(greet, start, true, hello) && Advanced(greet, start, middle, hello)
      && RunsTo(observe, middle, true, fs)
      && (start.capture.None? ==> written.None?)
      && (start.capture.Some? ==>
            var events := EventsOf(greet, start, hello) + EventsOf(observe, middle, fs);
            Writes(start.capture.value, events, hello + fs, written))
  {
    hide RunsTo, Advanced, Reached, EventsOf, Writes, Selected, AfterHello, SawGoAway, Client.View, Octets;
    ghost var start := AfterHello(h2c.requestCodec.engine, old(Snap(h2c, out)), maxTable);
    written, fs := None, [];
    ok, hello := StartSession(h2c, maxTable, out);
    middle := Snap(h2c, out);
    if !ok { return; }
    var sawGoAway;
    sawGoAway, ok, fs := ReceiveObserveFrames(h2c, maxRecv, out);
    if !ok { return; }
    HelloKeepsCapture(h2c.requestCodec.engine, old(Snap(h2c, out)), maxTable);
    if start.capture.Some? {
      TwoLoopsWrite(EnvOf(h2c, out, Handshake), start, middle, hello,
                    EnvOf(h2c, out, Observe(maxRecv)), middle, Snap(h2c, out), fs);
    }
    written := Conclude(h2c, stream, sendGoAway, sawGoAway, out);
  }

  lemma HelloKeepsCapture(engine: Engine, s: Snapshot, maxTable: uint32)
    ensures AfterHello(engine, s, maxTable).capture == s.capture
  {
    hide Octets, OnSend, HelloSettings;
  }

  /** The request mode: handshake, request, loop up to the end of its stream, conclusion. */
  method RunRequest(
    h2c: Client, maxTable: uint32, stream: uint32, fields: seq<HeaderField>, body: bytes, sendGoAway: bool,
    out: OutputController)
    returns (ok: bool, written: Option<CapturedStream>, ghost hello: seq<Frame>, ghost middle: Snapshot,
             ghost asked: Snapshot, ghost fs: seq<Frame>)
    requires h2c.Valid()
    modifies h2c.Footprint(), out, out.capture
    ensures ok ==>
      var greet, respond := EnvOf(h2c, out, Handshake), EnvOf(h2c, out, Response(stream));
      var start := AfterHello(h2c.requestCodec.engine, old(Snap(h2c, out)), maxTable);
      var block := h2c.requestCodec.engine.encode(middle.endpoint.request.encoderOps, fields);
      && RunsTo(greet, start, true, hello) && Advanced(greet, start, middle, hello)
      && block.Some? && asked.sent == middle.sent + AllOctets(RequestFrames(stream, block.value, body))
      && asked.incoming == middle.incoming && asked.capture == middle.capture
      && RunsTo(respond, asked, true, fs)
      && (start.capture.None? ==> written.None?)
      && (start.capture.Some? ==>
            var events := EventsOf(greet, start, hello) + EventsOf(respond, asked, fs);
            Writes(start.capture.value, events, hello + fs, written))
  {
    hide RunsTo, Advanced, Reached, EventsOf, Writes, Selected, AfterHello, SawGoAway, Octets, RequestFrames, AllOctets;
    hide Marshal;
    ghost var start := AfterHello(h2c.requestCodec.engine, old(Snap(h2c, out)), maxTable);
    written, fs := None, [];
    ok, hello := StartSession(h2c, maxTable, out);
    middle, asked := Snap(h2c, out), Snap(h2c, out);
    if !ok { return; }
    ok := SendRequest(h2c, stream, fields, body, out);
    asked := Snap(h2c, out);
    if !ok { return; }
    var sawGoAway;
    sawGoAway, ok, fs := ReceiveResponseFrames(h2c, stream, out);
    if !ok { return; }
    HelloKeepsCapture(h2c.requestCodec.engine, old(Snap(h2c, out)), maxTable);
    if start.capture.Some? {
      TwoLoopsWrite(EnvOf(h2c, out, Handshake), start, middle, hello,
                    EnvOf(h2c, out, Response(stream)), asked, Snap(h2c, out), fs);
    }
    written := Conclude(h2c, stream, sendGoAway, sawGoAway, out);
  }

  /**
    The script mode: a script that is not accepted does nothing; an accepted one never runs into a bad
    repeat, and on a dependable connection, with the unchecked fields in range, fails only for reasons
    outside it.
   */
  method RunScript(
    h2c: Client, text: ScriptValues.Text, script: Script, stream: uint32, sendGoAway: bool, out: OutputController)
    returns (accepted: bool, outcome: Outcome, ghost trace: seq<Executed>)
    requires h2c.Valid()
    modifies h2c.Footprint(), out, out.capture
    ensures accepted <==> AcceptsScript(text, script)
    ensures !accepted ==> Snap(h2c, out) == old(Snap(h2c, out))
    ensures accepted ==>
      var w, s := WorldOf(h2c, text, out), old(Snap(h2c, out));
      && Chain(w, s, trace)
      && !outcome.Unplannable?
      && (outcome.Finished? ==>
            && TablesOf(trace) == Plan(script.actions).tables
            && TablesTold(script.actions, TablesOf(trace)) && |trace| == Total(script.actions)
            && EndOf(s, trace).sent <= h2c.conn.sent <= EndOf(s, trace).sent + Octets(GoodBye(stream)))
      && (Dependable(h2c, out) ==> ScriptRun.Ends(w, Plan(script.actions), s, trace, outcome))
      && (Dependable(h2c, out) && AllRangesOk(script.actions) && outcome.ActionFailed? ==>
            FailsOutside(w, outcome.table, EndOf(s, trace)))
  {
    hide Chain, ScriptRun.Ends, Breaks, FailsOutside, AcceptsActions, AllRangesOk, Plan, TablesOf, EndOf;
    hide Client.View, ConnectionOk, Octets, GoodBye, TablesTold, Total, AllRepeatWell;
    outcome, trace := Finished, [];
    accepted := ValidateScript(text, script);
    if !accepted { return; }
    ghost var w, s := WorldOf(h2c, text, out), Snap(h2c, out);
    var sawGoAway;
    sawGoAway, outcome, trace := ExecuteScript(h2c, text, script.actions, out);
    AcceptedScriptsPlanCompletely(text, script.actions);
    AcceptedScriptIsPlanned(text, script.actions);
    PlanIsTold(text, script.actions);
    if Dependable(h2c, out) && AllRangesOk(script.actions) {
      AcceptedScriptsFailOutsideOnly(w, script.actions, s, trace, outcome);
    }
    if outcome.ActionFailed? { return; }
    var written := Conclude(h2c, stream, sendGoAway, sawGoAway, out);
  }
}
