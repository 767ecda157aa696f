/** Where each loop stops, told from the frames read and not through the loops' own tests. */
module SessionGoals {
  import opened Wire
  import opened Frames
  import opened Streams
  import opened Hpack
  import opened HeaderBlocks
  import opened Endpoints
  import opened Sessions
  import opened SessionLaws
  import opened SessionLoops
  import opened FrameLayout

  /** The lowest bit of the flags: ACK on SETTINGS and PING, END_STREAM on HEADERS and DATA. */
  predicate LowBit(f: Frame) {
    f.header.flags % 2 == 1
  }

  predicate OnStream(f: Frame, stream: uint32) {
    f.header.streamID == stream
  }

  predicate CompletesEnd(e: FrameEvent, stream: uint32) {
    e.complete && e.endStream && e.streamID == stream
  }

  /** What a script waits for. */
  predicate Awaited(plan: ReceivePlan, e: FrameEvent, n: nat) {
    var f := e.frame;
    match plan.until
    case UntilSettings => f.SettingsFrame? && !LowBit(f)
    case UntilSettingsAck => f.SettingsFrame? && LowBit(f)
    case UntilPingAck => f.PingFrame? && LowBit(f)
    case UntilGoAway => f.GoAwayFrame?
    case UntilEndStream =>
      && plan.stream.Some?
      && var id := plan.stream.value;
      ((f.DataFrame? || f.HeadersFrame?) && OnStream(f, id) && LowBit(f)) || CompletesEnd(e, id)
    case NoUntil => f.GoAwayFrame? || n >= plan.count
    case UntilOther => false
  }

  /** The frames on which a loop with this goal ends well, as its `n`-th. */
  predicate StopsOn(goal: Goal, e: FrameEvent, n: nat) {
    var f := e.frame;
    match goal
    case Handshake => f.GoAwayFrame? || (f.SettingsFrame? && !LowBit(f))
    case Response(id) => f.GoAwayFrame? || (f.DataFrame? && OnStream(f, id) && LowBit(f)) || CompletesEnd(e, id)
    case PingReply(want) => f.GoAwayFrame? || (f.PingFrame? && LowBit(f) && f.pingData == want)
    case Observe(maxRecv) => f.GoAwayFrame? || (maxRecv > 0 && n >= maxRecv)
    case Scripted(plan) => Awaited(plan, e, n)
  }

  /** An error ends a loop badly if headers are decoded or captured, and a response or a script in any case. */
  predicate FailsOn(env: Env, e: FrameEvent) {
    e.error.Some? && (env.display.decodeHeaders || env.capturing || env.goal.Response? || env.goal.Scripted?)
  }

  predicate GoesOn(env: Env, e: FrameEvent, n: nat) {
    !FailsOn(env, e) && !StopsOn(env.goal, e, n)
  }

  /** Only frames with header fragments carry errors. */
  predicate ErrorOnHeaders(e: FrameEvent) {
    e.error.Some? ==> e.frame.HeadersFrame? || e.frame.PushPromiseFrame? || e.frame.ContinuationFrame?
  }

  lemma VerdictIsTold(env: Env, e: FrameEvent, n: nat)
    requires ErrorOnHeaders(e)
    ensures VerdictOn(env.goal, Refused(env, e), e, n)
         == if FailsOn(env, e) then Fail else if StopsOn(env.goal, e, n) then Stop else Continue
  {
  }

  lemma ErrorsAreOnHeaders(engine: Engine, ep: Endpoint, f: Frame)
    ensures ErrorOnHeaders(OnReceive(engine, ep, f).event)
  {
    hide HasFlag;
  }

  lemma {:induction false} ReceivedErrorsAreOnHeaders(engine: Engine, ep: Endpoint, fs: seq<Frame>)
    ensures forall i :: 0 <= i < |fs| ==> ErrorOnHeaders(Receiving(engine, ep, fs).events[i])
  {
    if fs != [] {
      hide ErrorOnHeaders, OnReceive;
      var init, last := fs[..|fs| - 1], fs[|fs| - 1];
      ReceivedErrorsAreOnHeaders(engine, ep, init);
      ErrorsAreOnHeaders(engine, Receiving(engine, ep, init).endpoint, last);
    }
  }

  lemma VerdictAt(env: Env, s: Snapshot, fs: seq<Frame>, i: nat)
    requires i < |fs|
    ensures var e := EventsOf(env, s, fs)[i];
      && e.frame == fs[i]
      && VerdictsAfter(env, s, fs)[i]
         == if FailsOn(env, e) then Fail else if StopsOn(env.goal, e, i + 1) then Stop else Continue
  {
    hide Receiving, VerdictsAfter, VerdictOn, Refused, FailsOn, StopsOn, ErrorOnHeaders;
    LastVerdict(env, s, fs, i);
    ReceivedErrorsAreOnHeaders(env.engine, s.endpoint, fs);
    VerdictIsTold(env, EventsOf(env, s, fs)[i], i + 1);
  }

  /** The frames `fs` are read, the loop goes on after each but the last, and ends there as `ok` says. */
  predicate EndsAsTold(env: Env, s: Snapshot, ok: bool, fs: seq<Frame>) {
    var batch, events, n := Delivered(s.incoming, |fs|), EventsOf(env, s, fs), |fs|;
    && batch.Some? && batch.value.frames == fs
    && (forall i :: 0 <= i < n - 1 ==> GoesOn(env, events[i], i + 1))
    && if ok then n > 0 && !FailsOn(env, events[n - 1]) && StopsOn(env.goal, events[n - 1], n)
       else
         || (n > 0 && FailsOn(env, events[n - 1]))
         || ((n > 0 ==> GoesOn(env, events[n - 1], n)) && !TakeFrame(batch.value.rest).Got?)
  }

  /** Exactly where a loop ends: at the first frame that meets its goal or breaks it, or where none can be read. */
  lemma LoopEndsExactly(env: Env, s: Snapshot, ok: bool, fs: seq<Frame>)
    ensures RunsTo(env, s, ok, fs) <==> EndsAsTold(env, s, ok, fs)
  {
    hide TakeFrame, Delivered, Receiving, VerdictsAfter, FailsOn, StopsOn, EventsOf;
    var vs, events := VerdictsAfter(env, s, fs), EventsOf(env, s, fs);
    forall i | 0 <= i < |fs|
      ensures vs[i]
           == if FailsOn(env, events[i]) then Fail else if StopsOn(env.goal, events[i], i + 1) then Stop else Continue
    {
      VerdictAt(env, s, fs, i);
    }
    if fs != [] {
      var init := vs[..|vs| - 1];
      assert forall i :: 0 <= i < |init| ==> init[i] == vs[i];
      assert AllContinue(vs) <==> AllContinue(init) && vs[|vs| - 1] == Continue;
    }
  }

  // ---------------------------------------------------------------- what a session opens with

  const PREFACE_TEXT := "PRI * HTTP/2.0\r\n\r\nSM\r\n\r\n"

  /** The preface of RFC 9113, section 3.4. */
  lemma PrefaceIsText()
    ensures |CONNECTION_PREFACE| == |PREFACE_TEXT| == 24
    ensures forall i :: 0 <= i < 24 ==> CONNECTION_PREFACE[i] as int == PREFACE_TEXT[i] as int
  {
  }

  /** The first SETTINGS as a peer reads it: no push, a window of 65535 octets, the table size asked for. */
  lemma PeerReadsHello(maxTable: uint32, rest: bytes)
    ensures TakeFrame(Octets(HelloSettings(maxTable)) + rest)
         == Got(SettingsFrame(Header(18, 4, 0, 0), [Setting(2, 0), Setting(4, 65535), Setting(1, maxTable)]), rest)
  {
    hide TakeFrame, Marshal, Octets;
    var hello := HelloSettings(maxTable);
    HelloLength(maxTable);
    OneFrame(hello, rest);
  }

  lemma HelloLength(maxTable: uint32)
    ensures |SettingsBytes(HelloSettings(maxTable).settings)| == 18
  {
    SettingsAreLaid(HelloSettings(maxTable).settings);
  }
}
