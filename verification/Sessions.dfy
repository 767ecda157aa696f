/**
  The receive loops of the command line client: handshake, response, ping, observe and the scripted
  receive action (session.go, script_receive.go). `RunsTo` says where a loop ends as a function of
  the octets waiting on the connection; `Advanced` says what it did on the way.
 */
module Sessions {
  import opened Results
  import opened Wire
  import opened Frames
  import opened Streams
  import opened Hpack
  import opened HeaderBlocks
  import opened Endpoints
  import opened Captures
  import opened CaptureLaws

  // ---------------------------------------------------------------- acknowledgements

  datatype AckPolicy = AckPolicy(settings: bool, ping: bool)

  const ACK_ALL := AckPolicy(true, true)

  predicate IsAck(f: Frame) {
    HasFlag(f.header.flags, FLAG_ACK)
  }

  function NewSettingsFrame(flags: uint8, settings: seq<Setting>): Frame {
    SettingsFrame(Header(ToUint32(|SettingsBytes(settings)|), TYPE_SETTINGS, flags, 0), settings)
  }

  function NewPingFrame(flags: uint8, data: PingData): Frame {
    PingFrame(Header(PING_LENGTH, TYPE_PING, flags, 0), data)
  }

  /** RFC 9113, sections 6.5.3 and 6.7: one answer to each SETTINGS and PING that is not itself an answer. */
  function AckFor(policy: AckPolicy, f: Frame): seq<Frame> {
    if f.SettingsFrame? && policy.settings && !IsAck(f) then [NewSettingsFrame(FLAG_ACK, [])]
    else if f.PingFrame? && policy.ping && !IsAck(f) then [NewPingFrame(FLAG_ACK, f.pingData)]
    else []
  }

  function Acks(policy: AckPolicy, fs: seq<Frame>): seq<Frame> {
    if fs == [] then [] else Acks(policy, fs[..|fs| - 1]) + AckFor(policy, fs[|fs| - 1])
  }

  /** Sending an acknowledgement always marshals and changes neither codecs nor trackers. */
  lemma AcksAreInvisible(engine: Engine, ep: Endpoint, policy: AckPolicy, f: Frame)
    ensures forall ack :: ack in AckFor(policy, f) ==> OnSend(engine, ep, ack).endpoint == ep && Marshal(ack).Some?
  {
    hide MarshalHeader, HasFlag;
    assert SettingsBytes([]) == [];
  }

  // ---------------------------------------------------------------- where a loop ends

  datatype Until = NoUntil | UntilSettings | UntilSettingsAck | UntilPingAck | UntilGoAway | UntilEndStream | UntilOther

  datatype ReceivePlan = ReceivePlan(until: Until, stream: Option<uint32>, count: int64, acks: AckPolicy)

  datatype Goal =
    | Handshake
    | Response(stream: uint32)
    | PingReply(want: PingData)
    | Observe(maxRecv: nat)
    | Scripted(plan: ReceivePlan)

  datatype Verdict = Continue | Stop | Fail

  function StopIf(b: bool): Verdict {
    if b then Stop else Continue
  }

  predicate EndsBlockOf(e: FrameEvent, stream: uint32) {
    e.complete && e.streamID == stream && e.endStream
  }

  predicate EndsDataOf(f: Frame, stream: uint32) {
    DataEndsStream(f) && f.header.streamID == stream
  }

  predicate HeadersEndStream(f: Frame, stream: uint32) {
    f.HeadersFrame? && f.header.streamID == stream && HasFlag(f.header.flags, FLAG_END_STREAM)
  }

  /** Whether a script's receive action is content with its `n`-th event. */
  predicate PlanMet(plan: ReceivePlan, e: FrameEvent, n: nat) {
    var f := e.frame;
    match plan.until
    case NoUntil => f.GoAwayFrame? || n >= plan.count
    case UntilSettings => f.SettingsFrame? && !IsAck(f)
    case UntilSettingsAck => f.SettingsFrame? && IsAck(f)
    case UntilPingAck => f.PingFrame? && IsAck(f)
    case UntilGoAway => f.GoAwayFrame?
    case UntilEndStream =>
      && plan.stream.Some?
      && var id := plan.stream.value;
      EndsBlockOf(e, id) || EndsDataOf(f, id) || HeadersEndStream(f, id)
    case UntilOther => false
  }

  /** What the loop does after its `n`-th event; `refused` tells that the output controller failed on it. */
  function VerdictOn(goal: Goal, refused: bool, e: FrameEvent, n: nat): Verdict {
    var f := e.frame;
    if refused then Fail
    else match goal
      case Handshake => StopIf((f.SettingsFrame? && !IsAck(f)) || f.GoAwayFrame?)
      case Response(stream) =>
        if f.GoAwayFrame? then Stop
        else if e.error.Some? then Fail
        else StopIf(EndsBlockOf(e, stream) || EndsDataOf(f, stream))
      case PingReply(want) => StopIf((f.PingFrame? && IsAck(f) && f.pingData == want) || f.GoAwayFrame?)
      case Observe(maxRecv) => StopIf(f.GoAwayFrame? || (maxRecv > 0 && n >= maxRecv))
      case Scripted(plan) => if e.error.Some? then Fail else StopIf(PlanMet(plan, e, n))
  }

  datatype Env = Env(engine: Engine, display: Display, capturing: bool, goal: Goal)

  function PolicyOf(goal: Goal): AckPolicy {
    if goal.Scripted? then goal.plan.acks else ACK_ALL
  }

  predicate Refused(env: Env, e: FrameEvent) {
    e.error.Some? && (env.display.decodeHeaders || env.capturing)
  }

  function Verdicts(env: Env, events: seq<FrameEvent>): (vs: seq<Verdict>)
    ensures |vs| == |events|
  {
    if events == [] then []
    else
      var e := events[|events| - 1];
      Verdicts(env, events[..|events| - 1]) + [VerdictOn(env.goal, Refused(env, e), e, |events|)]
  }

  predicate AllContinue(vs: seq<Verdict>) {
    forall i :: 0 <= i < |vs| ==> vs[i] == Continue
  }

  /** What the loops can touch, as one value. */
  datatype Snapshot = Snapshot(incoming: bytes, sent: bytes, endpoint: Endpoint, capture: Option<Capture>)

  function VerdictsAfter(env: Env, s: Snapshot, fs: seq<Frame>): (vs: seq<Verdict>)
    ensures |vs| == |fs|
  {
    Verdicts(env, Receiving(env.engine, s.endpoint, fs).events)
  }

  /**
    Started from `s`, the loop reads exactly `fs`: it goes on after every frame but the last, and
    ends well on a frame that meets its goal, badly on one that breaks it or where no frame can be read.
   */
  predicate RunsTo(env: Env, s: Snapshot, ok: bool, fs: seq<Frame>) {
    && var batch := Delivered(s.incoming, |fs|);
    && batch.Some? && batch.value.frames == fs
    && var vs := VerdictsAfter(env, s, fs);
    if AllContinue(vs) then !ok && !TakeFrame(batch.value.rest).Got?
    else AllContinue(vs[..|vs| - 1]) && vs[|vs| - 1] == if ok then Stop else Fail
  }

  /** From `s` to `s'`: exactly `fs` was read, tracked, captured and acknowledged, in order. */
  predicate Advanced(env: Env, s: Snapshot, s': Snapshot, fs: seq<Frame>) {
    && Delivered(s.incoming, |fs|) == Some(Batch(fs, s'.incoming))
    && var history := Receiving(env.engine, s.endpoint, fs);
    && s'.endpoint == history.endpoint
    && s'.sent == s.sent + AllOctets(Acks(PolicyOf(env.goal), fs))
    && var run := HandleAll(env.display, s.capture, history.events);
    && run.stoppedAt.None?
    && s'.capture == run.capture
    && s'.capture.Some? == s.capture.Some? == env.capturing
  }

  /**
    From `s` to `s'` with `fs` read, whether the run went well or not: the same, but nothing is said of
    the octets left, which a malformed or unfinished frame may have used up.
   */
  predicate Reached(env: Env, s: Snapshot, s': Snapshot, fs: seq<Frame>) {
    && var history := Receiving(env.engine, s.endpoint, fs);
    && s'.endpoint == history.endpoint
    && s'.sent == s.sent + AllOctets(Acks(PolicyOf(env.goal), fs))
    && s'.capture == HandleAll(env.display, s.capture, history.events).capture
    && s'.capture.Some? == s.capture.Some? == env.capturing
  }

  predicate SawGoAway(fs: seq<Frame>) {
    exists i :: 0 <= i < |fs| && fs[i].GoAwayFrame?
  }

  // ---------------------------------------------------------------- one more frame

  lemma NothingRead(env: Env, s: Snapshot)
    requires s.capture.Some? == env.capturing
    ensures Advanced(env, s, s, [])
    ensures AllContinue(VerdictsAfter(env, s, [])) && !SawGoAway([])
  {
  }

  lemma VerdictsSnoc(env: Env, s: Snapshot, fs: seq<Frame>, f: Frame)
    ensures var before := Receiving(env.engine, s.endpoint, fs);
      var e := OnReceive(env.engine, before.endpoint, f).event;
      VerdictsAfter(env, s, fs + [f])
        == VerdictsAfter(env, s, fs) + [VerdictOn(env.goal, Refused(env, e), e, |fs| + 1)]
  {
    hide OnReceive, VerdictOn, Refused;
    var before := Receiving(env.engine, s.endpoint, fs);
    var e := OnReceive(env.engine, before.endpoint, f).event;
    ReceivingSnoc(env.engine, s.endpoint, fs, f);
    assert (before.events + [e])[..|fs|] == before.events;
  }

  lemma AcksSnoc(policy: AckPolicy, fs: seq<Frame>, f: Frame)
    ensures Acks(policy, fs + [f]) == Acks(policy, fs) + AckFor(policy, f)
    ensures AllOctets(Acks(policy, fs + [f])) == AllOctets(Acks(policy, fs)) + AllOctets(AckFor(policy, f))
  {
    hide Octets, IsAck;
    assert (fs + [f])[..|fs|] == fs;
    var acks, more := Acks(policy, fs), AckFor(policy, f);
    if more == [] {
      assert acks + [] == acks;
      assert AllOctets(acks) + [] == AllOctets(acks);
    } else {
      assert more == [more[0]];
      AllOctetsSnoc(acks, more[0]);
      AllOctetsSnoc([], more[0]);
      assert [] + [more[0]] == [more[0]];
      assert AllOctets([]) + Octets(more[0]) == Octets(more[0]);
    }
  }

  lemma HandleAllSnoc(d: Display, c: Option<Capture>, events: seq<FrameEvent>, e: FrameEvent)
    requires HandleAll(d, c, events).stoppedAt.None?
    ensures var before := HandleAll(d, c, events); var h := HandleEvent(d, before.capture, e);
      HandleAll(d, c, events + [e])
        == Shown(h.capture, before.lines + h.lines, if h.failed then Some(|events|) else None)
  {
    hide HandleEvent;
    assert (events + [e])[..|events|] == events;
  }

  lemma AdvanceOne(env: Env, s: Snapshot, s1: Snapshot, s2: Snapshot, fs: seq<Frame>, f: Frame)
    requires Advanced(env, s, s1, fs)
    requires TakeFrame(s1.incoming) == Got(f, s2.incoming)
    requires s2.endpoint == OnReceive(env.engine, s1.endpoint, f).endpoint
    requires s2.sent == s1.sent + AllOctets(AckFor(PolicyOf(env.goal), f))
    requires var h := HandleEvent(env.display, s1.capture, OnReceive(env.engine, s1.endpoint, f).event);
      !h.failed && s2.capture == h.capture
    ensures Advanced(env, s, s2, fs + [f]) && Reached(env, s, s2, fs + [f])
  {
    hide TakeFrame, Delivered, OnReceive, Receiving, Acks, AckFor, AllOctets, HandleAll, CaptureEvent, Shows;
    var e := OnReceive(env.engine, s1.endpoint, f).event;
    DeliveredSnoc(s.incoming, fs, s1.incoming, f, s2.incoming);
    ReceivingSnoc(env.engine, s.endpoint, fs, f);
    AcksSnoc(PolicyOf(env.goal), fs, f);
    HandleAllSnoc(env.display, s.capture, Receiving(env.engine, s.endpoint, fs).events, e);
  }

  /** Where no further frame came, nothing else changed. */
  lemma StoppedThere(env: Env, s: Snapshot, s1: Snapshot, s2: Snapshot, fs: seq<Frame>)
    requires Advanced(env, s, s1, fs)
    requires s2.endpoint == s1.endpoint && s2.sent == s1.sent && s2.capture == s1.capture
    ensures Reached(env, s, s2, fs)
  {
    hide Delivered, Receiving, Acks, AllOctets, HandleAll;
  }

  /** A frame on which the run fails has carried an error, and so asked for no answer. */
  lemma FailedThere(env: Env, s: Snapshot, s1: Snapshot, s2: Snapshot, fs: seq<Frame>, f: Frame)
    requires Advanced(env, s, s1, fs)
    requires OnReceive(env.engine, s1.endpoint, f).event.error.Some?
    requires s2.endpoint == OnReceive(env.engine, s1.endpoint, f).endpoint && s2.sent == s1.sent
    requires s2.capture == HandleEvent(env.display, s1.capture, OnReceive(env.engine, s1.endpoint, f).event).capture
    ensures Reached(env, s, s2, fs + [f])
  {
    ErrorAsksNothing(env.engine, s1.endpoint, f, PolicyOf(env.goal));
    hide Delivered, OnReceive, Receiving, Acks, AckFor, AllOctets, HandleAll, CaptureEvent, Shows;
    var e := OnReceive(env.engine, s1.endpoint, f).event;
    ReceivingSnoc(env.engine, s.endpoint, fs, f);
    AcksSnoc(PolicyOf(env.goal), fs, f);
    HandleAllSnoc(env.display, s.capture, Receiving(env.engine, s.endpoint, fs).events, e);
    assert AllOctets(Acks(PolicyOf(env.goal), fs)) + [] == AllOctets(Acks(PolicyOf(env.goal), fs));
  }

  lemma ErrorAsksNothing(engine: Engine, ep: Endpoint, f: Frame, policy: AckPolicy)
    requires OnReceive(engine, ep, f).event.error.Some?
    ensures AckFor(policy, f) == [] && AllOctets(AckFor(policy, f)) == []
  {
    hide HasFlag;
  }

  lemma AdvancedIsReached(env: Env, s: Snapshot, s': Snapshot, fs: seq<Frame>)
    requires Advanced(env, s, s', fs)
    ensures Reached(env, s, s', fs)
  {
    hide Delivered, Receiving, Acks, AllOctets, HandleAll;
  }

  lemma GoAwaySnoc(fs: seq<Frame>, f: Frame)
    ensures SawGoAway(fs + [f]) <==> SawGoAway(fs) || f.GoAwayFrame?
  {
    var all := fs + [f];
    assert all[|fs|] == f;
    assert forall i :: 0 <= i < |fs| ==> all[i] == fs[i];
  }

  /** How reading one more frame decides where the loop ends. */
  lemma VerdictOne(env: Env, s: Snapshot, s1: Snapshot, fs: seq<Frame>, f: Frame, rest: bytes)
    requires Advanced(env, s, s1, fs) && AllContinue(VerdictsAfter(env, s, fs))
    requires TakeFrame(s1.incoming) == Got(f, rest)
    ensures var e := OnReceive(env.engine, s1.endpoint, f).event;
      match VerdictOn(env.goal, Refused(env, e), e, |fs| + 1)
      case Continue => AllContinue(VerdictsAfter(env, s, fs + [f]))
      case Stop => RunsTo(env, s, true, fs + [f])
      case Fail => RunsTo(env, s, false, fs + [f])
  {
    hide TakeFrame, Delivered, Verdicts, VerdictOn, Refused, OnReceive, Receiving, Acks, AllOctets, HandleAll;
    var vs := VerdictsAfter(env, s, fs);
    VerdictsSnoc(env, s, fs, f);
    DeliveredSnoc(s.incoming, fs, s1.incoming, f, rest);
    var all := VerdictsAfter(env, s, fs + [f]);
    assert all[..|all| - 1] == vs && all[|all| - 1] == all[|vs|];
  }

  lemma NoFrameLeft(env: Env, s: Snapshot, s1: Snapshot, fs: seq<Frame>)
    requires Advanced(env, s, s1, fs) && AllContinue(VerdictsAfter(env, s, fs))
    requires !TakeFrame(s1.incoming).Got?
    ensures RunsTo(env, s, false, fs)
  {
    hide TakeFrame, Delivered, Verdicts, Receiving, Acks, AllOctets, HandleAll;
  }

  lemma FramesAreNotEmpty(s: bytes)
    ensures match TakeFrame(s) case Got(_, rest) => |rest| < |s| case _ => true
  {
    hide ParseFrame;
  }
}
