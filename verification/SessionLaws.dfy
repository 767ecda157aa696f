/** What follows from `RunsTo` and `Advanced` for whole sessions. */
module SessionLaws {
  import opened Results
  import opened Wire
  import opened Frames
  import opened FrameLaws
  import opened Streams
  import opened Hpack
  import opened HeaderBlocks
  import opened HeaderBlockLaws
  import opened Endpoints
  import opened Captures
  import opened CaptureLaws
  import opened EndToEnd
  import opened Sessions

  // ---------------------------------------------------------------- the outcome is a function of the octets

  lemma {:induction false} ReceivingPrefix(engine: Engine, ep: Endpoint, fs: seq<Frame>, m: nat)
    requires m <= |fs|
    ensures Receiving(engine, ep, fs[..m]).events == Receiving(engine, ep, fs).events[..m]
    decreases |fs|
  {
    hide OnReceive;
    if m < |fs| {
      var init := fs[..|fs| - 1];
      ReceivingPrefix(engine, ep, init, m);
      assert init[..m] == fs[..m];
      assert Receiving(engine, ep, fs).events[..|init|] == Receiving(engine, ep, init).events;
    } else {
      assert fs[..m] == fs;
    }
  }

  lemma {:induction false} VerdictsPrefix(env: Env, events: seq<FrameEvent>, m: nat)
    requires m <= |events|
    ensures Verdicts(env, events[..m]) == Verdicts(env, events)[..m]
    decreases |events|
  {
    hide VerdictOn, Refused;
    if m < |events| {
      VerdictsPrefix(env, events[..|events| - 1], m);
      assert events[..|events| - 1][..m] == events[..m];
      assert Verdicts(env, events)[..|events| - 1] == Verdicts(env, events[..|events| - 1]);
    } else {
      assert events[..m] == events;
    }
  }

  lemma VerdictsAfterPrefix(env: Env, s: Snapshot, fs: seq<Frame>, m: nat)
    requires m <= |fs|
    ensures VerdictsAfter(env, s, fs[..m]) == VerdictsAfter(env, s, fs)[..m]
  {
    hide Verdicts, Receiving;
    ReceivingPrefix(env.engine, s.endpoint, fs, m);
    VerdictsPrefix(env, Receiving(env.engine, s.endpoint, fs).events, m);
  }

  /** Before its last frame a run always went on. */
  lemma RunContinuesBeforeItsEnd(env: Env, s: Snapshot, ok: bool, fs: seq<Frame>, m: nat)
    requires RunsTo(env, s, ok, fs) && m < |fs|
    ensures AllContinue(VerdictsAfter(env, s, fs[..m]))
  {
    hide TakeFrame, Delivered, VerdictsAfter;
    VerdictsAfterPrefix(env, s, fs, m);
    var vs := VerdictsAfter(env, s, fs);
    assert vs[..m] == vs[..|vs| - 1][..m];
  }

  lemma NoShorterRun(env: Env, s: Snapshot, ok1: bool, fs1: seq<Frame>, ok2: bool, fs2: seq<Frame>)
    requires RunsTo(env, s, ok1, fs1) && RunsTo(env, s, ok2, fs2)
    ensures |fs1| >= |fs2|
  {
    hide TakeFrame, Delivered, VerdictsAfter;
    if |fs1| < |fs2| {
      DeliveredPrefix(s.incoming, |fs1|, |fs2|);
      RunContinuesBeforeItsEnd(env, s, ok2, fs2, |fs1|);
    }
  }

  /**
    However reads are chunked and writes are split, a loop that ends without trouble of its own has
    read the same frames and succeeded or failed alike: both depend on the waiting octets only.
   */
  lemma OutcomeIsDetermined(env: Env, s: Snapshot, ok1: bool, fs1: seq<Frame>, ok2: bool, fs2: seq<Frame>)
    requires RunsTo(env, s, ok1, fs1) && RunsTo(env, s, ok2, fs2)
    ensures fs1 == fs2 && ok1 == ok2
  {
    hide TakeFrame, Delivered, VerdictsAfter;
    NoShorterRun(env, s, ok1, fs1, ok2, fs2);
    NoShorterRun(env, s, ok2, fs2, ok1, fs1);
  }

  /** And so is everything such a run left behind: codecs, trackers, capture, octets sent and unread. */
  lemma EffectIsDetermined(env: Env, s: Snapshot, fs1: seq<Frame>, s1: Snapshot, fs2: seq<Frame>, s2: Snapshot)
    requires RunsTo(env, s, true, fs1) && Advanced(env, s, s1, fs1)
    requires RunsTo(env, s, true, fs2) && Advanced(env, s, s2, fs2)
    ensures s1 == s2
  {
    hide RunsTo, Delivered, Receiving, HandleAll, Acks, AllOctets;
    OutcomeIsDetermined(env, s, true, fs1, true, fs2);
  }

  // ---------------------------------------------------------------- stop positions

  lemma LastVerdict(env: Env, s: Snapshot, fs: seq<Frame>, i: nat)
    requires i < |fs|
    ensures var e := Receiving(env.engine, s.endpoint, fs).events[i];
      VerdictsAfter(env, s, fs)[i] == VerdictOn(env.goal, Refused(env, e), e, i + 1)
    ensures Receiving(env.engine, s.endpoint, fs).events[i].frame == fs[i]
  {
    hide VerdictOn, Refused, OnReceive;
    var upTo := fs[..i + 1];
    VerdictsAfterPrefix(env, s, fs, i + 1);
    ReceivingPrefix(env.engine, s.endpoint, fs, i + 1);
    assert upTo[..i] == fs[..i] && upTo[i] == fs[i];
    var before := Receiving(env.engine, s.endpoint, fs[..i]);
    EventKeepsFrame(env.engine, before.endpoint, fs[i]);
    var events := Receiving(env.engine, s.endpoint, upTo).events;
    assert events[i] == OnReceive(env.engine, before.endpoint, fs[i]).event;
    assert Verdicts(env, events)[i] == VerdictOn(env.goal, Refused(env, events[i]), events[i], i + 1);
  }

  /** The goals that end with the connection: all but scripted waits for something else. */
  predicate EndsOnGoAway(goal: Goal) {
    goal.Scripted? ==> goal.plan.until == NoUntil || goal.plan.until == UntilGoAway
  }

  /** The number of frames a goal is content with, if it counts. */
  function Limit(goal: Goal): Option<int> {
    match goal
    case Observe(maxRecv) => if maxRecv > 0 then Some(maxRecv) else None
    case Scripted(plan) => if plan.until == NoUntil then Some(plan.count) else None
    case _ => None
  }

  /** A loop that ends on GOAWAY reads none before its last frame, and its flag tells whether that is one. */
  lemma GoAwayIsLast(env: Env, s: Snapshot, fs: seq<Frame>)
    requires RunsTo(env, s, true, fs) && EndsOnGoAway(env.goal)
    ensures |fs| > 0 && forall i :: 0 <= i < |fs| - 1 ==> !fs[i].GoAwayFrame?
    ensures SawGoAway(fs) <==> fs[|fs| - 1].GoAwayFrame?
  {
    hide TakeFrame, Delivered, VerdictsAfter, Receiving, Refused;
    forall i | 0 <= i < |fs| - 1 ensures !fs[i].GoAwayFrame? {
      LastVerdict(env, s, fs, i);
      var vs := VerdictsAfter(env, s, fs);
      assert vs[i] == vs[..|vs| - 1][i];
    }
  }

  /** Counting loops read min(count, position of the first GOAWAY) frames. */
  lemma CountingLoopsStopExactly(env: Env, s: Snapshot, fs: seq<Frame>)
    requires RunsTo(env, s, true, fs) && Limit(env.goal).Some? && Limit(env.goal).value > 0
    ensures var n := Limit(env.goal).value;
      && 0 < |fs| <= n
      && (forall i :: 0 <= i < |fs| - 1 ==> !fs[i].GoAwayFrame?)
      && (fs[|fs| - 1].GoAwayFrame? || |fs| == n)
  {
    hide TakeFrame, Delivered, VerdictsAfter, Receiving, Refused;
    GoAwayIsLast(env, s, fs);
    LastVerdict(env, s, fs, |fs| - 1);
    if |fs| > 1 {
      LastVerdict(env, s, fs, |fs| - 2);
      var vs := VerdictsAfter(env, s, fs);
      assert vs[|fs| - 2] == vs[..|vs| - 1][|fs| - 2];
    }
  }

  // ---------------------------------------------------------------- acknowledgement traces

  /** One entry for each frame that asks for an answer, in order: nothing for SETTINGS, the data for PING. */
  datatype Question = SettingsAsked | PingAsked(data: PingData)

  predicate Asks(policy: AckPolicy, f: Frame) {
    f.header.flags % 2 == 0 && ((f.SettingsFrame? && policy.settings) || (f.PingFrame? && policy.ping))
  }

  function QuestionOf(f: Frame): Question {
    if f.PingFrame? then PingAsked(f.pingData) else SettingsAsked
  }

  /** The questions a policy answers. */
  function Questions(policy: AckPolicy, fs: seq<Frame>): seq<Question> {
    if fs == [] then []
    else
      var f := fs[|fs| - 1];
      Questions(policy, fs[..|fs| - 1]) + if Asks(policy, f) then [QuestionOf(f)] else []
  }

  function AnswerTo(q: Question): Frame {
    match q
    case SettingsAsked => SettingsFrame(Header(0, 0x4, 0x1, 0), [])
    case PingAsked(data) => PingFrame(Header(8, 0x6, 0x1, 0), data)
  }

  function Answers(qs: seq<Question>): (r: seq<Frame>)
    ensures |r| == |qs|
  {
    if qs == [] then [] else Answers(qs[..|qs| - 1]) + [AnswerTo(qs[|qs| - 1])]
  }

  /** Every question is answered once, in the order asked, a PING with its own data. */
  lemma {:induction false} AnswersMatchQuestions(policy: AckPolicy, fs: seq<Frame>)
    ensures Acks(policy, fs) == Answers(Questions(policy, fs))
  {
    if fs != [] {
      var init, f := fs[..|fs| - 1], fs[|fs| - 1];
      AnswersMatchQuestions(policy, init);
      AckIsAnswer(policy, f);
      hide Asks, AckFor;
      var qs := Questions(policy, init);
      if Asks(policy, f) {
        assert (qs + [QuestionOf(f)])[..|qs|] == qs;
      } else {
        assert qs + [] == qs && Acks(policy, init) + [] == Acks(policy, init);
      }
    }
  }

  lemma AckIsAnswer(policy: AckPolicy, f: Frame)
    ensures AckFor(policy, f) == if Asks(policy, f) then [AnswerTo(QuestionOf(f))] else []
  {
    assert SettingsBytes([]) == [];
  }

  /** Answers ask nothing, so two such clients never answer each other forever. */
  lemma {:induction false} AnswersAskNothing(policy: AckPolicy, qs: seq<Question>)
    ensures Questions(policy, Answers(qs)) == []
    ensures Acks(policy, Answers(qs)) == []
  {
    if qs != [] {
      hide IsAck;
      AnswersAskNothing(policy, qs[..|qs| - 1]);
      AnswerIsNoQuestion(qs[|qs| - 1]);
    }
  }

  lemma AnswerIsNoQuestion(q: Question)
    ensures IsAck(AnswerTo(q))
    ensures Sendable(AnswerTo(q)) && LowStream(AnswerTo(q)) && Canon(AnswerTo(q)) == AnswerTo(q)
  {
    assert SettingsBytes([]) == [];
    assert HasFlag(0x1, 0x1);
  }

  /** What a loop writes reads back, at the peer, as exactly its answers. */
  lemma {:induction false} AnswersArrive(qs: seq<Question>, rest: bytes)
    ensures Delivered(AllOctets(Answers(qs)) + rest, |qs|) == Some(Batch(Answers(qs), rest))
  {
    AnswersAreCanonical(qs);
    StreamRoundTrip(Answers(qs), rest);
  }

  lemma {:induction false} AnswersAreCanonical(qs: seq<Question>)
    ensures forall i :: 0 <= i < |qs| ==> Sendable(Answers(qs)[i])
    ensures AllCanon(Answers(qs)) == Answers(qs)
  {
    hide Sendable, Canon, LowStream, AnswerTo;
    if qs != [] {
      AnswersAreCanonical(qs[..|qs| - 1]);
      AnswerIsNoQuestion(qs[|qs| - 1]);
    }
  }

  /** A script's receive action answers what it is told to, every other loop everything. */
  function Answering(goal: Goal): AckPolicy {
    match goal
    case Scripted(plan) => plan.acks
    case _ => AckPolicy(true, true)
  }

  /**
    The trace of a successful loop: one answer on the wire to each question its policy answers, in
    order, and nothing else; a peer reading the octets gets those answers. Session loops answer every
    SETTINGS and PING, a script's receive action those it is told to.
   */
  lemma SessionAnswersItsQuestions(env: Env, s: Snapshot, s': Snapshot, fs: seq<Frame>)
    requires Advanced(env, s, s', fs)
    ensures s.sent <= s'.sent
    ensures var qs := Questions(Answering(env.goal), fs);
      Delivered(s'.sent[|s.sent|..], |qs|) == Some(Batch(Answers(qs), []))
  {
    hide Delivered, Receiving, HandleAll, Acks, AllOctets, Questions, Answers;
    var policy := PolicyOf(env.goal);
    AnswersMatchQuestions(policy, fs);
    AnswersArrive(Questions(policy, fs), []);
    var octets := AllOctets(Answers(Questions(policy, fs)));
    assert octets + [] == octets == s'.sent[|s.sent|..];
  }

  // ---------------------------------------------------------------- what a session captured

  /** The events of a run of the loop. */
  function EventsOf(env: Env, s: Snapshot, fs: seq<Frame>): (events: seq<FrameEvent>)
    ensures |events| == |fs|
  {
    Receiving(env.engine, s.endpoint, fs).events
  }

  /** A successful loop with a capture saw no error and captured all its events. */
  lemma SessionCapturesItsEvents(env: Env, s: Snapshot, s': Snapshot, fs: seq<Frame>)
    requires Advanced(env, s, s', fs) && s.capture.Some?
    ensures s'.capture == Some(CaptureAll(s.capture.value, EventsOf(env, s, fs)))
    ensures NoErrors(EventsOf(env, s, fs))
    ensures |EventsOf(env, s, fs)| == |fs| && forall i :: 0 <= i < |fs| ==> OneKind(EventsOf(env, s, fs)[i])
  {
    hide Delivered, Receiving, HandleAll, Acks, AllOctets, CaptureAll, OneKind;
    UnstoppedCapture(env.display, s.capture.value, EventsOf(env, s, fs));
    EventsAreOneKind(env.engine, s.endpoint, fs);
  }

  /**
    After a successful loop, from whatever capture it started with, each stream has grown by what was
    read on it, its body by the DATA; the selection is settled by the events alone.
   */
  lemma SessionCapturesWhatItRead(env: Env, s: Snapshot, s': Snapshot, fs: seq<Frame>, id: uint32)
    requires Advanced(env, s, s', fs) && s.capture.Some?
    ensures var c, events := s.capture.value, EventsOf(env, s, fs);
      && s'.capture.Some?
      && StreamIn(s'.capture.value, id) == Extended(StreamIn(c, id), id, events)
      && BodyOf(id, events) == SentBody(id, fs)
      && (!c.explicitStream ==> s'.capture.value.selectedStream == Settled(c.selectedStream, events))
  {
    hide Advanced, Receiving, CaptureAll, BodyOf, SentBody, Extended, Settled, Mentioned, OneKind;
    var c, events := s.capture.value, EventsOf(env, s, fs);
    SessionCapturesItsEvents(env, s, s', fs);
    CaptureDescribesStreams(c, events, id);
    BodyOfReceiving(env.engine, s.endpoint, fs, id);
    SelectionSettles(c, events);
  }

  lemma OneKindConcat(es: seq<FrameEvent>, fs: seq<FrameEvent>)
    requires forall i :: 0 <= i < |es| ==> OneKind(es[i])
    requires forall i :: 0 <= i < |fs| ==> OneKind(fs[i])
    ensures forall i :: 0 <= i < |es + fs| ==> OneKind((es + fs)[i])
  {
    hide OneKind;
  }

  lemma {:induction false} BodyOfConcat(s: uint32, es: seq<FrameEvent>, fs: seq<FrameEvent>)
    ensures BodyOf(s, es + fs) == BodyOf(s, es) + BodyOf(s, fs)
  {
    hide *;
    if fs == [] {
      BodyOfNothing(s);
      assert es + fs == es && BodyOf(s, es) + [] == BodyOf(s, es);
    } else {
      var init, last := fs[..|fs| - 1], fs[|fs| - 1];
      BodyOfConcat(s, es, init);
      BodyConcatStep(s, es, init, last);
      assert init + [last] == fs;
    }
  }

  lemma BodyOfNothing(s: uint32)
    ensures BodyOf(s, []) == []
  {
  }

  lemma BodyConcatStep(s: uint32, es: seq<FrameEvent>, fs: seq<FrameEvent>, f: FrameEvent)
    requires BodyOf(s, es + fs) == BodyOf(s, es) + BodyOf(s, fs)
    ensures BodyOf(s, es + (fs + [f])) == BodyOf(s, es) + BodyOf(s, fs + [f])
  {
    hide *;
    BodySnoc(s, es + fs, f);
    BodySnoc(s, fs, f);
    assert es + fs + [f] == es + (fs + [f]);
  }

  /**
    Two loops one after the other, as the handshake and the loop of a mode: in between frames may be
    sent, but the capture stays. What is written out in the end is one stream as all the events of both
    loops tell it, with the DATA of both in order.
   */
  lemma TwoSessionsCaptureAsOne(
    env1: Env, s1: Snapshot, s2: Snapshot, fs1: seq<Frame>, env2: Env, s3: Snapshot, s4: Snapshot, fs2: seq<Frame>)
    requires Advanced(env1, s1, s2, fs1) && Advanced(env2, s3, s4, fs2)
    requires s1.capture.Some? && s3.capture == s2.capture
    ensures var c := s1.capture.value;
      var events := EventsOf(env1, s1, fs1) + EventsOf(env2, s3, fs2);
      var id := if c.explicitStream then c.targetStreamID else Settled(c.selectedStream, events);
      && s4.capture.Some?
      && Selected(s4.capture.value)
         == (if (c.explicitStream || id != 0) && (id in c.streams || Mentioned(id, events))
             then Some(Extended(StreamIn(c, id), id, events)) else None)
      && BodyOf(id, events) == SentBody(id, fs1) + SentBody(id, fs2)
  {
    hide Advanced, EventsOf, CaptureAll, BodyOf, SentBody, Extended, Settled, Selected, Mentioned, OneKind;
    var c := s1.capture.value;
    var es1, es2 := EventsOf(env1, s1, fs1), EventsOf(env2, s3, fs2);
    SessionCapturesItsEvents(env1, s1, s2, fs1);
    SessionCapturesItsEvents(env2, s3, s4, fs2);
    CaptureAllConcat(c, es1, es2);
    OneKindConcat(es1, es2);
    SelectedStreamIsComplete(c, es1 + es2);
    var id := if c.explicitStream then c.targetStreamID else Settled(c.selectedStream, es1 + es2);
    SessionBodies(env1, s1, fs1, id);
    SessionBodies(env2, s3, fs2, id);
    BodyOfConcat(id, es1, es2);
  }

  lemma SessionBodies(env: Env, s: Snapshot, fs: seq<Frame>, id: uint32)
    ensures BodyOf(id, EventsOf(env, s, fs)) == SentBody(id, fs)
  {
    hide Receiving, BodyOf, SentBody;
    BodyOfReceiving(env.engine, s.endpoint, fs, id);
  }

  // ---------------------------------------------------------------- from sent frames to a loop's outcome

  lemma CanonKeepsGoAway(f: Frame)
    ensures Canon(f).GoAwayFrame? <==> f.GoAwayFrame?
  {
    hide Payload, HasFlag, Low31;
  }

  /** The frames end with their only GOAWAY, and the loop's limit allows for all of them. */
  predicate EndsWithGoAway(fs: seq<Frame>, maxRecv: nat) {
    && |fs| > 0 && fs[|fs| - 1].GoAwayFrame? && (forall i :: 0 <= i < |fs| - 1 ==> !fs[i].GoAwayFrame?)
    && (maxRecv == 0 || |fs| <= maxRecv)
  }

  lemma QuietEventIsPassed(env: Env, e: FrameEvent, maxRecv: nat, n: nat)
    requires env.goal == Observe(maxRecv) && e.error.None?
    ensures VerdictOn(env.goal, Refused(env, e), e, n) == StopIf(e.frame.GoAwayFrame? || (maxRecv > 0 && n >= maxRecv))
  {
  }

  /** Observing well-formed traffic that ends with GOAWAY ends well, having read exactly what was sent. */
  lemma ObserverReadsToGoAway(
    env: Env, s: Snapshot, maxRecv: nat, fs: seq<Frame>, cuts: seq<seq<Frame>>, ms: seq<Message>, rest: bytes)
    requires env.goal == Observe(maxRecv) && EndsWithGoAway(fs, maxRecv)
    requires ArrivesWell(env.engine, s.endpoint, fs, cuts, ms) && s.incoming == AllOctets(fs) + rest
    ensures RunsTo(env, s, true, AllCanon(fs))
  {
    hide TakeFrame, Delivered, Receiving, VerdictsAfter, EndsWithGoAway, ArrivesWell, AllOctets, AllCanon, NoErrors;
    ArrivesSendable(env.engine, s.endpoint, fs, cuts, ms);
    StreamRoundTrip(fs, rest);
    ArrivalIsErrorFree(env.engine, s.endpoint, fs, cuts, ms);
    NotEmpty(fs, maxRecv);
    var vs := VerdictsAfter(env, s, AllCanon(fs));
    forall i | 0 <= i < |fs| ensures vs[i] == if i == |fs| - 1 then Stop else Continue {
      ObserverVerdict(env, s, maxRecv, fs, i);
    }
    assert vs[|vs| - 1] == Stop;
    assert AllContinue(vs[..|vs| - 1]) && !AllContinue(vs);
  }

  lemma NotEmpty(fs: seq<Frame>, maxRecv: nat)
    requires EndsWithGoAway(fs, maxRecv)
    ensures |fs| > 0
  {
  }

  lemma ObserverVerdict(env: Env, s: Snapshot, maxRecv: nat, fs: seq<Frame>, i: nat)
    requires env.goal == Observe(maxRecv) && EndsWithGoAway(fs, maxRecv) && i < |fs|
    requires NoErrors(Receiving(env.engine, s.endpoint, AllCanon(fs)).events)
    ensures VerdictsAfter(env, s, AllCanon(fs))[i] == if i == |fs| - 1 then Stop else Continue
  {
    hide Receiving, VerdictsAfter, VerdictOn, Refused, Canon;
    LastVerdict(env, s, AllCanon(fs), i);
    CanonKeepsGoAway(fs[i]);
    QuietEventIsPassed(env, Receiving(env.engine, s.endpoint, AllCanon(fs)).events[i], maxRecv, i + 1);
  }

  lemma ArrivesSendable(engine: Engine, ep: Endpoint, fs: seq<Frame>, cuts: seq<seq<Frame>>, ms: seq<Message>)
    requires ArrivesWell(engine, ep, fs, cuts, ms)
    ensures forall i :: 0 <= i < |fs| ==> Sendable(fs[i])
  {
    hide RunSeenAlike, LowData, Receiving, Flatten, CutsOf, HeaderFrames, NoDecodeFailure, Sendable;
  }

  /**
    End to end with the loop in it: on a dependable connection, where a loop always ends as `RunsTo` says,
    observing such traffic succeeds, and every stream's captured body has grown by the data sent on it.
   */
  lemma ObservedBodiesEndToEnd(
    env: Env, s: Snapshot, s': Snapshot, ok: bool, got: seq<Frame>, maxRecv: nat,
    fs: seq<Frame>, cuts: seq<seq<Frame>>, ms: seq<Message>, rest: bytes, id: uint32)
    requires env.goal == Observe(maxRecv) && EndsWithGoAway(fs, maxRecv) && s.capture.Some?
    requires ArrivesWell(env.engine, s.endpoint, fs, cuts, ms) && s.incoming == AllOctets(fs) + rest
    requires RunsTo(env, s, ok, got) && (ok ==> Advanced(env, s, s', got))
    ensures ok && got == AllCanon(fs) && s'.incoming == rest && s'.capture.Some?
    ensures StreamIn(s'.capture.value, id).body == StreamIn(s.capture.value, id).body + SentBody(id, fs)
  {
    hide RunsTo, Advanced, AllOctets, SentBody, BodyOf, HeadersOf, Ended, EventsOf;
    ObserverReadsToGoAway(env, s, maxRecv, fs, cuts, ms, rest);
    OutcomeIsDetermined(env, s, ok, got, true, AllCanon(fs));
    SessionCapturesWhatItRead(env, s, s', got, id);
    ArrivesLow(env.engine, s.endpoint, fs, cuts, ms);
    hide ArrivesWell, LowData;
    CanonKeepsBody(fs, id);
    ArrivesSendable(env.engine, s.endpoint, fs, cuts, ms);
    StreamRoundTrip(fs, rest);
    LeftByAdvance(env, s, s', got);
  }

  lemma ArrivesLow(engine: Engine, ep: Endpoint, fs: seq<Frame>, cuts: seq<seq<Frame>>, ms: seq<Message>)
    requires ArrivesWell(engine, ep, fs, cuts, ms)
    ensures forall i :: 0 <= i < |fs| ==> LowData(fs[i])
  {
    hide AllSendable, RunSeenAlike, LowData, Receiving, Flatten, CutsOf, HeaderFrames, NoDecodeFailure;
  }

  lemma LeftByAdvance(env: Env, s: Snapshot, s': Snapshot, fs: seq<Frame>)
    requires Advanced(env, s, s', fs)
    ensures Delivered(s.incoming, |fs|) == Some(Batch(fs, s'.incoming))
  {
    hide Delivered, Receiving, HandleAll, Acks, AllOctets;
  }
}
