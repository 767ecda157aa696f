/** The loops themselves, each proved against `RunsTo` and `Advanced`. */
module SessionLoops {
  import opened Results
  import opened Wire
  import opened Frames
  import opened Streams
  import opened Hpack
  import opened HeaderBlocks
  import opened Endpoints
  import opened Clients
  import opened Captures
  import opened Sessions

  const CONNECTION_PREFACE: bytes := [
    0x50, 0x52, 0x49, 0x20, 0x2a, 0x20, 0x48, 0x54, 0x54, 0x50, 0x2f, 0x32,
    0x2e, 0x30, 0x0d, 0x0a, 0x0d, 0x0a, 0x53, 0x4d, 0x0d, 0x0a, 0x0d, 0x0a]

  ghost function Snap(h2c: Client, out: OutputController): Snapshot
    reads h2c.Footprint(), out.capture
  {
    Snapshot(h2c.conn.incoming, h2c.conn.sent, h2c.View(), out.Captured())
  }

  ghost function EnvOf(h2c: Client, out: OutputController, goal: Goal): Env {
    Env(h2c.responseCodec.engine, out.display, out.capture != null, goal)
  }

  /** Nothing on this side can fail a call. */
  ghost predicate Dependable(h2c: Client, out: OutputController) {
    h2c.Dependable() && out.writerWorks
  }

  method SendFrameAndReport(h2c: Client, out: OutputController, f: Frame) returns (ok: bool)
    requires h2c.Valid()
    modifies h2c.conn`sent, h2c.requestCodec, h2c.responseCodec, h2c.sentHeaderBlock, out
    ensures ok ==>
      && Marshal(f).Some?
      && h2c.conn.sent == old(h2c.conn.sent) + Octets(f)
      && var reaction := OnSend(h2c.requestCodec.engine, old(h2c.View()), f);
      && h2c.View() == reaction.endpoint
      && out.shown == old(out.shown) + LinesFor(out.display, SentSide, reaction.event)
    ensures Dependable(h2c, out) ==> (ok <==> Marshal(f).Some?)
  {
    hide Marshal, OnSend, LinesFor;
    var event := h2c.SendFrame(f);
    if event.None? { return false; }
    ok := out.HandleSent(event.value);
  }

  method AckControlFrame(h2c: Client, out: OutputController, f: Frame) returns (ok: bool)
    requires h2c.Valid()
    modifies h2c.conn`sent, h2c.requestCodec, h2c.responseCodec, h2c.sentHeaderBlock, out
    ensures ok ==>
      && h2c.conn.sent == old(h2c.conn.sent) + AllOctets(AckFor(ACK_ALL, f))
      && h2c.View() == old(h2c.View())
    ensures Dependable(h2c, out) ==> ok
  {
    ok := AckIfAsked(h2c, out, ACK_ALL, f);
  }

  /** The same answers, each behind its own switch, as a script's receive action gives them. */
  method AckIfAsked(h2c: Client, out: OutputController, policy: AckPolicy, f: Frame) returns (ok: bool)
    requires h2c.Valid()
    modifies h2c.conn`sent, h2c.requestCodec, h2c.responseCodec, h2c.sentHeaderBlock, out
    ensures ok ==>
      && h2c.conn.sent == old(h2c.conn.sent) + AllOctets(AckFor(policy, f))
      && h2c.View() == old(h2c.View())
    ensures Dependable(h2c, out) ==> ok
  {
    hide Marshal, OnSend, IsAck, Octets;
    AcksAreInvisible(h2c.requestCodec.engine, h2c.View(), policy, f);
    ok := true;
    if f.SettingsFrame? && policy.settings && !IsAck(f) {
      var ack := NewSettingsFrame(FLAG_ACK, []);
      OneAck(ack);
      assert ack in AckFor(policy, f);
      ok := SendFrameAndReport(h2c, out, ack);
    } else if f.PingFrame? && policy.ping && !IsAck(f) {
      var ack := NewPingFrame(FLAG_ACK, f.pingData);
      OneAck(ack);
      assert ack in AckFor(policy, f);
      ok := SendFrameAndReport(h2c, out, ack);
    } else {
      assert AllOctets([]) == [];
    }
  }

  lemma OneAck(ack: Frame)
    ensures AllOctets([ack]) == Octets(ack)
  {
    hide Octets;
    assert [ack][..0] == [];
    assert AllOctets([]) + Octets(ack) == Octets(ack);
  }

  method ReceiveObserveFrames(h2c: Client, maxRecv: nat, out: OutputController)
    returns (sawGoAway: bool, ok: bool, ghost fs: seq<Frame>)
    requires h2c.Valid()
    modifies h2c.Footprint(), out, out.capture
    ensures var env := EnvOf(h2c, out, Observe(maxRecv));
      && (ok || Dependable(h2c, out) ==> RunsTo(env, old(Snap(h2c, out)), ok, fs))
      && (ok ==> Advanced(env, old(Snap(h2c, out)), Snap(h2c, out), fs) && sawGoAway == SawGoAway(fs))
      && (Dependable(h2c, out) ==> Reached(env, old(Snap(h2c, out)), Snap(h2c, out), fs))
  {
    hide TakeFrame, RunsTo, Advanced, Reached, AllContinue, VerdictsAfter, SawGoAway, OnReceive, AckFor, AllOctets;
    hide CaptureEvent, Shows, LineFor, Client.View;
    ghost var env := EnvOf(h2c, out, Observe(maxRecv));
    ghost var start := Snap(h2c, out);
    sawGoAway, fs := false, [];
    var received := 0;
    NothingRead(env, start);
    while true
      invariant Advanced(env, start, Snap(h2c, out), fs)
      invariant !sawGoAway && !SawGoAway(fs) && received == |fs|
      invariant if maxRecv > 0 && received >= maxRecv then RunsTo(env, start, true, fs)
                else AllContinue(VerdictsAfter(env, start, fs))
      decreases |h2c.conn.incoming|
    {
      AdvancedIsReached(env, start, Snap(h2c, out), fs);
      if maxRecv > 0 && received >= maxRecv { return sawGoAway, true, fs; }
      ghost var before := Snap(h2c, out);
      FramesAreNotEmpty(before.incoming);
      var receipt := h2c.ReceiveFrame();
      if !receipt.Event? {
        if Dependable(h2c, out) { NoFrameLeft(env, start, before, fs); }
        StoppedThere(env, start, before, Snap(h2c, out), fs);
        return sawGoAway, false, fs;
      }
      var event := receipt.event;
      received := received + 1;
      ghost var seen := fs;
      fs := fs + [event.frame];
      VerdictOne(env, start, before, seen, event.frame, h2c.conn.incoming);
      ok := out.HandleReceived(event);
      if !ok {
        if Dependable(h2c, out) { FailedThere(env, start, before, Snap(h2c, out), seen, event.frame); }
        return sawGoAway, false, fs;
      }
      ok := AckControlFrame(h2c, out, event.frame);
      if !ok { return sawGoAway, false, fs; }
      AdvanceOne(env, start, before, Snap(h2c, out), seen, event.frame);
      GoAwaySnoc(seen, event.frame);
      if event.frame.GoAwayFrame? {
        sawGoAway := true;
        return sawGoAway, true, fs;
      }
    }
  }

  method ReceiveResponseFrames(h2c: Client, stream: uint32, out: OutputController)
    returns (sawGoAway: bool, ok: bool, ghost fs: seq<Frame>)
    requires h2c.Valid()
    modifies h2c.Footprint(), out, out.capture
    ensures var env := EnvOf(h2c, out, Response(stream));
      && (ok || Dependable(h2c, out) ==> RunsTo(env, old(Snap(h2c, out)), ok, fs))
      && (ok ==> Advanced(env, old(Snap(h2c, out)), Snap(h2c, out), fs) && sawGoAway == SawGoAway(fs))
      && (Dependable(h2c, out) ==> Reached(env, old(Snap(h2c, out)), Snap(h2c, out), fs))
  {
    hide TakeFrame, RunsTo, Advanced, Reached, AllContinue, VerdictsAfter, SawGoAway, OnReceive, AckFor, AllOctets;
    hide CaptureEvent, Shows, LineFor, Client.View, HasFlag;
    ghost var env := EnvOf(h2c, out, Response(stream));
    ghost var start := Snap(h2c, out);
    sawGoAway, fs := false, [];
    NothingRead(env, start);
    while true
      invariant Advanced(env, start, Snap(h2c, out), fs)
      invariant !sawGoAway && !SawGoAway(fs) && AllContinue(VerdictsAfter(env, start, fs))
      decreases |h2c.conn.incoming|
    {
      ghost var before := Snap(h2c, out);
      FramesAreNotEmpty(before.incoming);
      var receipt := h2c.ReceiveFrame();
      if !receipt.Event? {
        if Dependable(h2c, out) { NoFrameLeft(env, start, before, fs); }
        StoppedThere(env, start, before, Snap(h2c, out), fs);
        return sawGoAway, false, fs;
      }
      var event := receipt.event;
      ghost var seen := fs;
      fs := fs + [event.frame];
      VerdictOne(env, start, before, seen, event.frame, h2c.conn.incoming);
      ok := out.HandleReceived(event);
      if !ok {
        if Dependable(h2c, out) { FailedThere(env, start, before, Snap(h2c, out), seen, event.frame); }
        return sawGoAway, false, fs;
      }
      ok := AckControlFrame(h2c, out, event.frame);
      if !ok { return sawGoAway, false, fs; }
      AdvanceOne(env, start, before, Snap(h2c, out), seen, event.frame);
      GoAwaySnoc(seen, event.frame);
      if event.frame.GoAwayFrame? {
        sawGoAway := true;
        return sawGoAway, true, fs;
      }
      if event.error.Some? { return sawGoAway, false, fs; }
      if event.complete && event.streamID == stream && event.endStream { return sawGoAway, true, fs; }
      var f := event.frame;
      if f.DataFrame? && f.header.streamID == stream && HasFlag(f.header.flags, FLAG_END_STREAM) {
        return sawGoAway, true, fs;
      }
    }
  }

  method ReceivePingFrames(h2c: Client, want: PingData, out: OutputController)
    returns (sawGoAway: bool, ok: bool, ghost fs: seq<Frame>)
    requires h2c.Valid()
    modifies h2c.Footprint(), out, out.capture
    ensures var env := EnvOf(h2c, out, PingReply(want));
      && (ok || Dependable(h2c, out) ==> RunsTo(env, old(Snap(h2c, out)), ok, fs))
      && (ok ==> Advanced(env, old(Snap(h2c, out)), Snap(h2c, out), fs) && sawGoAway == SawGoAway(fs))
      && (Dependable(h2c, out) ==> Reached(env, old(Snap(h2c, out)), Snap(h2c, out), fs))
  {
    hide TakeFrame, RunsTo, Advanced, Reached, AllContinue, VerdictsAfter, SawGoAway, OnReceive, AckFor, AllOctets;
    hide CaptureEvent, Shows, LineFor, Client.View, HasFlag;
    ghost var env := EnvOf(h2c, out, PingReply(want));
    ghost var start := Snap(h2c, out);
    sawGoAway, fs := false, [];
    NothingRead(env, start);
    while true
      invariant Advanced(env, start, Snap(h2c, out), fs)
      invariant !sawGoAway && !SawGoAway(fs) && AllContinue(VerdictsAfter(env, start, fs))
      decreases |h2c.conn.incoming|
    {
      ghost var before := Snap(h2c, out);
      FramesAreNotEmpty(before.incoming);
      var receipt := h2c.ReceiveFrame();
      if !receipt.Event? {
        if Dependable(h2c, out) { NoFrameLeft(env, start, before, fs); }
        StoppedThere(env, start, before, Snap(h2c, out), fs);
        return sawGoAway, false, fs;
      }
      var event := receipt.event;
      ghost var seen := fs;
      fs := fs + [event.frame];
      VerdictOne(env, start, before, seen, event.frame, h2c.conn.incoming);
      ok := out.HandleReceived(event);
      if !ok {
        if Dependable(h2c, out) { FailedThere(env, start, before, Snap(h2c, out), seen, event.frame); }
        return sawGoAway, false, fs;
      }
      ok := AckControlFrame(h2c, out, event.frame);
      if !ok { return sawGoAway, false, fs; }
      AdvanceOne(env, start, before, Snap(h2c, out), seen, event.frame);
      GoAwaySnoc(seen, event.frame);
      match event.frame {
        case PingFrame(h, data) =>
          if !HasFlag(h.flags, FLAG_ACK) { continue; }
          if data == want { return sawGoAway, true, fs; }
        case GoAwayFrame(_, _, _, _) =>
          sawGoAway := true;
          return sawGoAway, true, fs;
        case _ =>
      }
    }
  }

  method RunReceivePlan(h2c: Client, plan: ReceivePlan, out: OutputController)
    returns (sawGoAway: bool, ok: bool, ghost fs: seq<Frame>)
    requires h2c.Valid()
    modifies h2c.Footprint(), out, out.capture
    ensures var env := EnvOf(h2c, out, Scripted(plan));
      && (ok || Dependable(h2c, out) ==> RunsTo(env, old(Snap(h2c, out)), ok, fs))
      && (ok ==> Advanced(env, old(Snap(h2c, out)), Snap(h2c, out), fs) && sawGoAway == SawGoAway(fs))
      && (Dependable(h2c, out) ==> Reached(env, old(Snap(h2c, out)), Snap(h2c, out), fs))
  {
    hide TakeFrame, RunsTo, Advanced, Reached, AllContinue, VerdictsAfter, SawGoAway, OnReceive, AllOctets;
    hide HandleEvent, VerdictOn, Refused, Client.View, PlanMet, AckFor, EndsBlockOf;
    ghost var env := EnvOf(h2c, out, Scripted(plan));
    ghost var start := Snap(h2c, out);
    sawGoAway, fs := false, [];
    var receivedCount := 0;
    NothingRead(env, start);
    while true
      invariant Advanced(env, start, Snap(h2c, out), fs)
      invariant sawGoAway == SawGoAway(fs) && receivedCount == |fs|
      invariant AllContinue(VerdictsAfter(env, start, fs))
      decreases |h2c.conn.incoming|
    {
      ghost var before := Snap(h2c, out);
      FramesAreNotEmpty(before.incoming);
      var receipt := h2c.ReceiveFrame();
      if !receipt.Event? {
        if Dependable(h2c, out) { NoFrameLeft(env, start, before, fs); }
        StoppedThere(env, start, before, Snap(h2c, out), fs);
        return sawGoAway, false, fs;
      }
      var event := receipt.event;
      receivedCount := receivedCount + 1;
      ghost var seen := fs;
      fs := fs + [event.frame];
      VerdictOne(env, start, before, seen, event.frame, h2c.conn.incoming);
      ScriptedVerdict(env, before.capture, event, receivedCount);
      ok := out.HandleReceived(event);
      if !ok {
        if Dependable(h2c, out) { FailedThere(env, start, before, Snap(h2c, out), seen, event.frame); }
        return sawGoAway, false, fs;
      }
      if event.error.Some? {
        FailedThere(env, start, before, Snap(h2c, out), seen, event.frame);
        return sawGoAway, false, fs;
      }
      GoAwaySnoc(seen, event.frame);
      if plan.until == UntilEndStream && plan.stream.Some? && EndsBlockOf(event, plan.stream.value) {
        BlockEndAdvances(env, start, before, Snap(h2c, out), seen, event.frame);
        return sawGoAway, true, fs;
      }
      ok := AckIfAsked(h2c, out, plan.acks, event.frame);
      if !ok { return sawGoAway, false, fs; }
      AdvanceOne(env, start, before, Snap(h2c, out), seen, event.frame);
      if event.frame.GoAwayFrame? {
        sawGoAway := true;
      }
      var met := MeetsPlan(plan, event, receivedCount);
      if met { return sawGoAway, true, fs; }
    }
  }

  lemma ScriptedVerdict(env: Env, c: Option<Capture>, e: FrameEvent, n: nat)
    requires env.goal.Scripted? && c.Some? == env.capturing
    ensures HandleEvent(env.display, c, e).failed ==> e.error.Some?
    ensures VerdictOn(env.goal, Refused(env, e), e, n)
         == if HandleEvent(env.display, c, e).failed || e.error.Some? then Fail
            else StopIf(PlanMet(env.goal.plan, e, n))
  {
    hide PlanMet, CaptureEvent, LinesFor;
  }

  /** The loop's `switch` on the frame, with the count check that follows it. */
  method MeetsPlan(plan: ReceivePlan, event: FrameEvent, receivedCount: nat) returns (met: bool)
    ensures met <==> PlanMet(plan, event, receivedCount)
  {
    hide HasFlag;
    var streamEnds := plan.until == UntilEndStream && plan.stream.Some?;
    if event.complete && streamEnds && event.streamID == plan.stream.value && event.endStream { return true; }
    match event.frame {
      case SettingsFrame(h, _) =>
        if plan.until == UntilSettings && !HasFlag(h.flags, FLAG_ACK) { return true; }
        if plan.until == UntilSettingsAck && HasFlag(h.flags, FLAG_ACK) { return true; }
      case PingFrame(h, _) =>
        if plan.until == UntilPingAck && HasFlag(h.flags, FLAG_ACK) { return true; }
      case GoAwayFrame(_, _, _, _) =>
        if plan.until == NoUntil || plan.until == UntilGoAway { return true; }
      case DataFrame(h, _, _) =>
        if streamEnds && h.streamID == plan.stream.value && HasFlag(h.flags, FLAG_END_STREAM) { return true; }
      case HeadersFrame(h, _, _, _) =>
        if streamEnds && h.streamID == plan.stream.value && HasFlag(h.flags, FLAG_END_STREAM) { return true; }
      case _ =>
    }
    met := plan.until == NoUntil && receivedCount >= plan.count;
  }

  /** A frame that completes a header block is neither SETTINGS nor PING nor GOAWAY. */
  lemma BlockEndIsUnanswered(engine: Engine, ep: Endpoint, f: Frame, plan: ReceivePlan)
    requires plan.stream.Some? && EndsBlockOf(OnReceive(engine, ep, f).event, plan.stream.value)
    ensures AllOctets(AckFor(plan.acks, f)) == [] && !f.GoAwayFrame?
  {
    hide HasFlag;
  }

  /** On the end of the awaited block the loop stops without answering. */
  lemma BlockEndAdvances(env: Env, s: Snapshot, s1: Snapshot, s2: Snapshot, fs: seq<Frame>, f: Frame)
    requires Advanced(env, s, s1, fs) && TakeFrame(s1.incoming) == Got(f, s2.incoming)
    requires env.goal.Scripted? && env.goal.plan.until == UntilEndStream && env.goal.plan.stream.Some?
    requires EndsBlockOf(OnReceive(env.engine, s1.endpoint, f).event, env.goal.plan.stream.value)
    requires s2.endpoint == OnReceive(env.engine, s1.endpoint, f).endpoint && s2.sent == s1.sent
    requires var h := HandleEvent(env.display, s1.capture, OnReceive(env.engine, s1.endpoint, f).event);
      !h.failed && s2.capture == h.capture
    ensures Advanced(env, s, s2, fs + [f]) && Reached(env, s, s2, fs + [f]) && !f.GoAwayFrame?
    ensures PlanMet(env.goal.plan, OnReceive(env.engine, s1.endpoint, f).event, |fs| + 1)
  {
    hide Advanced, Reached, TakeFrame, OnReceive, HandleEvent, AckFor, AllOctets, EndsBlockOf;
    BlockEndIsUnanswered(env.engine, s1.endpoint, f, env.goal.plan);
    assert s1.sent + [] == s1.sent;
    AdvanceOne(env, s, s1, s2, fs, f);
  }

  // ---------------------------------------------------------------- handshake

  function HelloSettings(maxTable: uint32): Frame {
    NewSettingsFrame(0, [Setting(SETTING_ENABLE_PUSH, 0), Setting(SETTING_INITIAL_WINDOW_SIZE, 65535),
                         Setting(SETTING_HEADER_TABLE_SIZE, maxTable)])
  }

  /** The state once the preface and the first SETTINGS are out. */
  function AfterHello(engine: Engine, s: Snapshot, maxTable: uint32): Snapshot {
    var hello := HelloSettings(maxTable);
    s.(sent := s.sent + CONNECTION_PREFACE + Octets(hello), endpoint := OnSend(engine, s.endpoint, hello).endpoint)
  }

  lemma HelloMarshals(maxTable: uint32)
    ensures Marshal(HelloSettings(maxTable)).Some?
  {
    hide MarshalHeader, SettingBytes;
    var settings := HelloSettings(maxTable).settings;
    assert settings[..2][..1][..0] == [];
    assert |SettingsBytes(settings[..2][..1])| == 6;
    assert |SettingsBytes(settings[..2])| == 12;
    assert |SettingsBytes(settings)| == 18;
  }

  method SendHello(h2c: Client, maxTable: uint32, out: OutputController) returns (ok: bool)
    requires h2c.Valid()
    modifies h2c.conn`sent, h2c.requestCodec, h2c.responseCodec, h2c.sentHeaderBlock, out
    ensures ok ==> Snap(h2c, out) == AfterHello(h2c.requestCodec.engine, old(Snap(h2c, out)), maxTable)
    ensures Dependable(h2c, out) ==> ok
  {
    hide Marshal, Octets, OnSend, NewSettingsFrame, Client.View;
    HelloMarshals(maxTable);
    ok := h2c.SendRaw(CONNECTION_PREFACE);
    if !ok { return false; }
    ok := out.PrintNotice(SentSide, "CONNECTION_PREFACE");
    if !ok { return false; }
    ok := SendFrameAndReport(h2c, out, HelloSettings(maxTable));
  }

  method StartSession(h2c: Client, maxTable: uint32, out: OutputController) returns (ok: bool, ghost fs: seq<Frame>)
    requires h2c.Valid()
    modifies h2c.Footprint(), out, out.capture
    ensures var env := EnvOf(h2c, out, Handshake);
      var start := AfterHello(h2c.requestCodec.engine, old(Snap(h2c, out)), maxTable);
      && (ok || Dependable(h2c, out) ==> RunsTo(env, start, ok, fs))
      && (ok ==> Advanced(env, start, Snap(h2c, out), fs))
      && (Dependable(h2c, out) ==> Reached(env, start, Snap(h2c, out), fs))
  {
    hide TakeFrame, RunsTo, Advanced, Reached, AllContinue, VerdictsAfter, SawGoAway, OnReceive, AckFor, AllOctets;
    hide CaptureEvent, Shows, LineFor, Client.View, HasFlag, AfterHello;
    fs := [];
    ok := SendHello(h2c, maxTable, out);
    if !ok { return false, fs; }
    ghost var env := EnvOf(h2c, out, Handshake);
    ghost var start := AfterHello(h2c.requestCodec.engine, old(Snap(h2c, out)), maxTable);
    NothingRead(env, start);
    while true
      invariant Advanced(env, start, Snap(h2c, out), fs)
      invariant AllContinue(VerdictsAfter(env, start, fs))
      decreases |h2c.conn.incoming|
    {
      ghost var before := Snap(h2c, out);
      FramesAreNotEmpty(before.incoming);
      var receipt := h2c.ReceiveFrame();
      if !receipt.Event? {
        if Dependable(h2c, out) { NoFrameLeft(env, start, before, fs); }
        StoppedThere(env, start, before, Snap(h2c, out), fs);
        return false, fs;
      }
      var event := receipt.event;
      ghost var seen := fs;
      fs := fs + [event.frame];
      VerdictOne(env, start, before, seen, event.frame, h2c.conn.incoming);
      ok := out.HandleReceived(event);
      if !ok {
        if Dependable(h2c, out) { FailedThere(env, start, before, Snap(h2c, out), seen, event.frame); }
        return false, fs;
      }
      ok := AckControlFrame(h2c, out, event.frame);
      if !ok { return false, fs; }
      AdvanceOne(env, start, before, Snap(h2c, out), seen, event.frame);
      match event.frame {
        case SettingsFrame(h, _) =>
          if !HasFlag(h.flags, FLAG_ACK) { return true, fs; }
        case GoAwayFrame(_, _, _, _) => return true, fs;
        case _ =>
      }
    }
  }
}
