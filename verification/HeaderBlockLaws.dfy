/** What reassembly promises over whole frame sequences. */
module HeaderBlockLaws {
  import opened Wire
  import opened Frames
  import opened FrameLaws
  import opened Streams
  import opened Hpack
  import opened HeaderBlocks

  /** The machine's state after a run, and everything it observed that was not quiet. */
  datatype Run = Run(last: Tracking, seen: seq<Observation>)

  function Loud(o: Observation): seq<Observation> {
    if o.Quiet? then [] else [o]
  }

  function Reassemble(a: Tracking, fs: seq<Frame>): Run {
    if fs == [] then Run(a, [])
    else
      var before := Reassemble(a, fs[..|fs| - 1]);
      var step := Assemble(before.last, fs[|fs| - 1]);
      Run(step.next, before.seen + Loud(step.seen))
  }

  lemma ReassembleSnoc(a: Tracking, fs: seq<Frame>, f: Frame)
    ensures Reassemble(a, fs + [f])
         == var before := Reassemble(a, fs); var step := Assemble(before.last, f);
            Run(step.next, before.seen + Loud(step.seen))
  {
    assert (fs + [f])[..|fs|] == fs;
  }

  /** A run that goes on with `gs`. */
  function Then(run: Run, gs: seq<Frame>): Run {
    var more := Reassemble(run.last, gs);
    Run(more.last, run.seen + more.seen)
  }

  lemma {:induction false} ReassembleConcat(a: Tracking, fs: seq<Frame>, gs: seq<Frame>)
    ensures Reassemble(a, fs + gs) == Then(Reassemble(a, fs), gs)
  {
    hide *;
    if gs == [] {
      ConcatNothing(a, fs);
    } else {
      var init, last := gs[..|gs| - 1], gs[|gs| - 1];
      ReassembleConcat(a, fs, init);
      ConcatStep(a, fs, init, last);
      assert init + [last] == gs;
    }
  }

  lemma ConcatNothing(a: Tracking, fs: seq<Frame>)
    ensures Reassemble(a, fs + []) == Then(Reassemble(a, fs), [])
  {
    hide Assemble;
    assert fs + [] == fs && Reassemble(a, fs).seen + [] == Reassemble(a, fs).seen;
  }

  lemma ConcatStep(a: Tracking, fs: seq<Frame>, gs: seq<Frame>, g: Frame)
    requires Reassemble(a, fs + gs) == Then(Reassemble(a, fs), gs)
    ensures Reassemble(a, fs + (gs + [g])) == Then(Reassemble(a, fs), gs + [g])
  {
    hide Reassemble, Assemble, Loud;
    ReassembleSnoc(a, fs + gs, g);
    ReassembleSnoc(Reassemble(a, fs).last, gs, g);
    assert fs + gs + [g] == fs + (gs + [g]);
  }

  // ---------------------------------------------------------------- sender and receiver agree

  predicate LowStream(f: Frame) {
    f.header.streamID < 0x8000_0000
  }

  predicate CarriesHeaders(f: Frame) {
    f.HeadersFrame? || f.PushPromiseFrame? || f.ContinuationFrame?
  }

  /**
    The frames on which cutting the stream id to 31 bits makes no difference to a machine in state `a`:
    the id is small, or not looked at, or refused both before and after the cut.
   */
  predicate SeenAlike(a: Tracking, f: Frame) {
    var id := f.header.streamID;
    || LowStream(f)
    || !CarriesHeaders(f)
    || (a.Open? && !f.ContinuationFrame?)
    || (f.ContinuationFrame? && (a.Idle? || (a.stream != id && a.stream != Low31(id))))
  }

  /** Exactly when one frame is observed alike before and after the wire, from any state. */
  lemma PeerStepExactly(a: Tracking, f: Frame)
    ensures Assemble(a, Canon(f)) == Assemble(a, f) <==> SeenAlike(a, f)
  {
    hide Payload, HasFlag, Low31;
    if !LowStream(f) { CutDiffers(f.header.streamID); }
  }

  lemma CutDiffers(id: uint32)
    requires id >= 0x8000_0000
    ensures Low31(id) != id
  {
  }

  /** The reference machine's steps, one for each frame. */
  function StepsOf(a: Tracking, fs: seq<Frame>): (steps: seq<Step>)
    ensures |steps| == |fs|
  {
    if fs == [] then []
    else
      var init := fs[..|fs| - 1];
      StepsOf(a, init) + [Assemble(Reassemble(a, init).last, fs[|fs| - 1])]
  }

  predicate RunSeenAlike(a: Tracking, fs: seq<Frame>) {
    fs != [] ==>
      var init := fs[..|fs| - 1];
      RunSeenAlike(a, init) && SeenAlike(Reassemble(a, init).last, fs[|fs| - 1])
  }

  lemma RunInit(a: Tracking, fs: seq<Frame>)
    requires fs != []
    ensures var init := fs[..|fs| - 1]; var step := Assemble(Reassemble(a, init).last, fs[|fs| - 1]);
      && StepsOf(a, fs) == StepsOf(a, init) + [step]
      && Reassemble(a, fs) == Run(step.next, Reassemble(a, init).seen + Loud(step.seen))
  {
    hide Assemble;
  }

  lemma {:induction false} StepsDetermineRun(a: Tracking, fs: seq<Frame>, gs: seq<Frame>)
    requires StepsOf(a, fs) == StepsOf(a, gs)
    ensures Reassemble(a, fs) == Reassemble(a, gs)
  {
    if fs == [] {
      assert |StepsOf(a, gs)| == 0;
    } else {
      hide *;
      assert |gs| == |StepsOf(a, gs)| == |fs|;
      var n := |fs| - 1;
      RunInit(a, fs);
      RunInit(a, gs);
      assert StepsOf(a, fs)[..n] == StepsOf(a, fs[..n]) && StepsOf(a, gs)[..n] == StepsOf(a, gs[..n]);
      assert StepsOf(a, fs)[n] == StepsOf(a, gs)[n];
      StepsDetermineRun(a, fs[..n], gs[..n]);
    }
  }

  /**
    Whole runs: a sender and its peer, which sees every stream id cut to 31 bits, take the same steps
    if and only if each frame is one that the machine, where it then stands, sees alike.
   */
  lemma {:induction false} PeerAgreesExactly(a: Tracking, fs: seq<Frame>)
    ensures StepsOf(a, AllCanon(fs)) == StepsOf(a, fs) <==> RunSeenAlike(a, fs)
  {
    if fs == [] {
      assert AllCanon(fs) == [];
    } else {
      hide Assemble, Canon, SeenAlike, StepsOf, Reassemble, AllCanon;
      var init, last := fs[..|fs| - 1], fs[|fs| - 1];
      PeerAgreesExactly(a, init);
      AllCanonInit(fs);
      RunInit(a, fs);
      RunInit(a, AllCanon(fs));
      var here, there := StepsOf(a, fs), StepsOf(a, AllCanon(fs));
      assert here[..|init|] == StepsOf(a, init) && there[..|init|] == StepsOf(a, AllCanon(init));
      if RunSeenAlike(a, init) {
        StepsDetermineRun(a, AllCanon(init), init);
        PeerStepExactly(Reassemble(a, init).last, last);
        assert here[|init|] == there[|init|] <==> SeenAlike(Reassemble(a, init).last, last);
      }
    }
  }

  /** In particular ids below 2^31 are enough. */
  lemma {:induction false} LowStreamsAreSeenAlike(a: Tracking, fs: seq<Frame>)
    requires forall i :: 0 <= i < |fs| ==> LowStream(fs[i])
    ensures RunSeenAlike(a, fs)
  {
    hide LowStream, Reassemble;
    if fs != [] { LowStreamsAreSeenAlike(a, fs[..|fs| - 1]); }
  }

  /**
    The blocks, streams, END_STREAM bits and faults a sender observes are then the ones its peer
    observes, whatever padding and priority were used.
   */
  lemma PeerSeesSameBlocks(a: Tracking, fs: seq<Frame>)
    requires RunSeenAlike(a, fs)
    ensures Reassemble(a, AllCanon(fs)) == Reassemble(a, fs)
  {
    hide *;
    PeerAgreesExactly(a, fs);
    StepsDetermineRun(a, AllCanon(fs), fs);
  }

  // ---------------------------------------------------------------- fragmentation and interleaving

  function HeaderFrames(fs: seq<Frame>): seq<Frame> {
    if fs == [] then []
    else HeaderFrames(fs[..|fs| - 1]) + if CarriesHeaders(fs[|fs| - 1]) then [fs[|fs| - 1]] else []
  }

  lemma {:induction false} OnlyHeaderFramesMatter(a: Tracking, fs: seq<Frame>)
    ensures Reassemble(a, fs) == Reassemble(a, HeaderFrames(fs))
  {
    if fs != [] {
      var init, last := fs[..|fs| - 1], fs[|fs| - 1];
      OnlyHeaderFramesMatter(a, init);
      if CarriesHeaders(last) {
        ReassembleSnoc(a, HeaderFrames(init), last);
      } else {
        assert HeaderFrames(init) + [] == HeaderFrames(init);
        assert Reassemble(a, init).seen + [] == Reassemble(a, init).seen;
      }
    }
  }

  datatype Message = Message(stream: uint32, endStream: bool, block: bytes)

  function Fragment(f: Frame): bytes {
    if CarriesHeaders(f) then f.block else []
  }

  function Joined(fs: seq<Frame>): bytes {
    if fs == [] then [] else Joined(fs[..|fs| - 1]) + Fragment(fs[|fs| - 1])
  }

  predicate Ends(f: Frame) {
    HasFlag(f.header.flags, FLAG_END_HEADERS)
  }

  /** END_STREAM counts on HEADERS only. */
  predicate EndsStream(f: Frame) {
    f.HeadersFrame? && HasFlag(f.header.flags, FLAG_END_STREAM)
  }

  /** `fs` is one header block of `stream`, cut anywhere, still without its last fragment. */
  predicate Unfinished(fs: seq<Frame>, stream: uint32) {
    && |fs| > 0
    && (fs[0].HeadersFrame? || fs[0].PushPromiseFrame?)
    && (forall i :: 0 < i < |fs| ==> fs[i].ContinuationFrame?)
    && (forall i :: 0 <= i < |fs| ==> fs[i].header.streamID == stream && !Ends(fs[i]))
  }

  /** `fs` is `m` cut into a first frame and any number of CONTINUATIONs. */
  predicate Cut(fs: seq<Frame>, m: Message) {
    && |fs| > 0
    && (fs[0].HeadersFrame? || fs[0].PushPromiseFrame?)
    && (forall i :: 0 < i < |fs| ==> fs[i].ContinuationFrame?)
    && (forall i :: 0 <= i < |fs| ==> fs[i].header.streamID == m.stream)
    && (forall i :: 0 <= i < |fs| ==> (Ends(fs[i]) <==> i == |fs| - 1))
    && EndsStream(fs[0]) == m.endStream
    && Joined(fs) == m.block
  }

  lemma MiddleFragment(a: Tracking, f: Frame)
    requires a.Open? && f.ContinuationFrame? && f.header.streamID == a.stream && !Ends(f)
    ensures Assemble(a, f) == Step(a.(block := a.block + Fragment(f)), Quiet)
  {
    hide HasFlag;
  }

  lemma FirstFragment(f: Frame)
    requires (f.HeadersFrame? || f.PushPromiseFrame?) && !Ends(f) && f.header.streamID != 0
    ensures Assemble(Idle, f) == Step(Open(f.header.streamID, Fragment(f), EndsStream(f)), Quiet)
  {
    hide HasFlag;
  }

  lemma {:induction false} UnfinishedIsOpen(fs: seq<Frame>, stream: uint32)
    requires Unfinished(fs, stream) && stream != 0
    ensures Reassemble(Idle, fs) == Run(Open(stream, Joined(fs), EndsStream(fs[0])), [])
  {
    hide Assemble, Fragment, Ends, EndsStream;
    var init, last := fs[..|fs| - 1], fs[|fs| - 1];
    if |fs| == 1 {
      FirstFragment(last);
      assert Reassemble(Idle, init) == Run(Idle, []);
      assert Joined(fs) == [] + Fragment(last) == Fragment(last);
    } else {
      UnfinishedIsOpen(init, stream);
      MiddleFragment(Reassemble(Idle, init).last, last);
    }
  }

  lemma LastFragment(a: Tracking, f: Frame)
    requires a.Open? && f.ContinuationFrame? && f.header.streamID == a.stream && Ends(f)
    ensures Assemble(a, f) == Step(Idle, Block(a.stream, a.endStream, a.block + Fragment(f)))
  {
    hide HasFlag;
  }

  lemma SingleFragment(f: Frame)
    requires (f.HeadersFrame? || f.PushPromiseFrame?) && Ends(f)
    ensures Assemble(Idle, f) == Step(Idle, Block(f.header.streamID, EndsStream(f), Fragment(f)))
  {
    hide HasFlag;
  }

  lemma CutIsDecodedOnce(fs: seq<Frame>, m: Message)
    requires Cut(fs, m) && (m.stream != 0 || |fs| == 1)
    ensures Reassemble(Idle, fs) == Run(Idle, [Block(m.stream, m.endStream, m.block)])
  {
    hide HasFlag, Assemble, Fragment, Ends, EndsStream, CarriesHeaders;
    var init, last := fs[..|fs| - 1], fs[|fs| - 1];
    if |fs| == 1 {
      SingleFragment(last);
      assert Reassemble(Idle, init) == Run(Idle, []);
      assert Joined(fs) == [] + Fragment(last) == Fragment(last);
    } else {
      UnfinishedIsOpen(init, m.stream);
      LastFragment(Reassemble(Idle, init).last, last);
    }
  }

  /** Stream 0 marks "nothing pending", so a block cut there falls apart: every CONTINUATION faults. */
  lemma {:induction false} ZeroStreamFallsApart(fs: seq<Frame>)
    requires |fs| > 0 && (fs[0].HeadersFrame? || fs[0].PushPromiseFrame?)
    requires fs[0].header.streamID == 0 && !Ends(fs[0])
    requires forall i :: 0 < i < |fs| ==> fs[i].ContinuationFrame?
    ensures Reassemble(Idle, fs) == Run(Idle, seq(|fs| - 1, _ => Fault(UnexpectedContinuation)))
  {
    hide HasFlag;
    var init, last := fs[..|fs| - 1], fs[|fs| - 1];
    if |fs| == 1 {
      assert Reassemble(Idle, init) == Run(Idle, []);
      assert Reassemble(Idle, fs).seen == [];
    } else {
      ZeroStreamFallsApart(init);
      assert Reassemble(Idle, fs).seen == Reassemble(Idle, init).seen + [Fault(UnexpectedContinuation)];
      assert Reassemble(Idle, fs).seen == seq(|fs| - 1, _ => Fault(UnexpectedContinuation));
    }
  }

  lemma ZeroStartIsQuiet(f: Frame)
    requires (f.HeadersFrame? || f.PushPromiseFrame?) && f.header.streamID == 0 && !Ends(f)
    ensures Assemble(Idle, f) == Step(Idle, Quiet) && Loud(Quiet) == []
  {
    hide HasFlag;
  }

  /**
    A start on stream 0 without END_HEADERS leaves octets behind in the tracker, but no run can tell:
    whatever follows is observed as if that frame had never come.
   */
  lemma StaleBlockIsNeverSeen(a: Tracking, fs: seq<Frame>, f: Frame, gs: seq<Frame>)
    requires Reassemble(a, fs).last.Idle?
    requires (f.HeadersFrame? || f.PushPromiseFrame?) && f.header.streamID == 0 && !Ends(f)
    ensures Reassemble(a, fs + [f] + gs) == Reassemble(a, fs + gs)
  {
    hide *;
    ZeroStartIsQuiet(f);
    ReassembleSnoc(a, fs, f);
    assert Reassemble(a, fs).seen + [] == Reassemble(a, fs).seen;
    ReassembleConcat(a, fs + [f], gs);
    ReassembleConcat(a, fs, gs);
  }

  /**
    Fragmentation and interleaving: however one header block is cut and whatever other frames come in
    between, it is decoded exactly once, whole, with END_STREAM from its first frame, and nothing stays
    pending. This holds if and only if the block is not one cut up on stream 0.
   */
  lemma FragmentationInvariance(fs: seq<Frame>, m: Message)
    requires Cut(HeaderFrames(fs), m)
    ensures Reassemble(Idle, fs) == Run(Idle, [Block(m.stream, m.endStream, m.block)])
       <==> m.stream != 0 || |HeaderFrames(fs)| == 1
  {
    hide Reassemble, Assemble, Joined, HasFlag;
    var cs := HeaderFrames(fs);
    OnlyHeaderFramesMatter(Idle, fs);
    if m.stream != 0 || |cs| == 1 {
      CutIsDecodedOnce(cs, m);
    } else {
      ZeroStreamFallsApart(cs);
      assert Reassemble(Idle, cs).seen[0] == Fault(UnexpectedContinuation);
    }
  }

  predicate WholeMessage(fs: seq<Frame>, m: Message) {
    Cut(fs, m) && (m.stream != 0 || |fs| == 1)
  }

  function Flatten(cuts: seq<seq<Frame>>): seq<Frame> {
    if cuts == [] then [] else Flatten(cuts[..|cuts| - 1]) + cuts[|cuts| - 1]
  }

  predicate CutsOf(cuts: seq<seq<Frame>>, ms: seq<Message>) {
    if ms == [] || cuts == [] then ms == [] && cuts == []
    else WholeMessage(cuts[|cuts| - 1], ms[|ms| - 1]) && CutsOf(cuts[..|cuts| - 1], ms[..|ms| - 1])
  }

  function BlockOf(m: Message): Observation {
    Block(m.stream, m.endStream, m.block)
  }

  function Blocks(ms: seq<Message>): seq<Observation> {
    if ms == [] then [] else Blocks(ms[..|ms| - 1]) + [BlockOf(ms[|ms| - 1])]
  }

  lemma OneMoreMessage(before: seq<Frame>, done: seq<Observation>, cut: seq<Frame>, m: Message)
    requires Reassemble(Idle, before) == Run(Idle, done) && WholeMessage(cut, m)
    ensures Reassemble(Idle, before + cut) == Run(Idle, done + [BlockOf(m)])
  {
    CutIsDecodedOnce(cut, m);
    hide Reassemble, Cut;
    ReassembleConcat(Idle, before, cut);
  }

  lemma {:induction false} MessagesAreDecodedInOrder(cuts: seq<seq<Frame>>, ms: seq<Message>)
    requires CutsOf(cuts, ms)
    ensures Reassemble(Idle, Flatten(cuts)) == Run(Idle, Blocks(ms))
  {
    if ms != [] {
      hide Reassemble, WholeMessage;
      var cut, m := cuts[|cuts| - 1], ms[|ms| - 1];
      MessagesAreDecodedInOrder(cuts[..|cuts| - 1], ms[..|ms| - 1]);
      OneMoreMessage(Flatten(cuts[..|cuts| - 1]), Blocks(ms[..|ms| - 1]), cut, m);
    }
  }

  /** Traffic carrying the messages `ms`, however cut and interleaved, yields those blocks in order. */
  lemma TrafficYieldsItsMessages(fs: seq<Frame>, cuts: seq<seq<Frame>>, ms: seq<Message>)
    requires HeaderFrames(fs) == Flatten(cuts) && CutsOf(cuts, ms)
    ensures Reassemble(Idle, fs) == Run(Idle, Blocks(ms))
  {
    hide Reassemble;
    OnlyHeaderFramesMatter(Idle, fs);
    MessagesAreDecodedInOrder(cuts, ms);
  }

  // ---------------------------------------------------------------- runs of the tracker itself

  /** A tracker and its codec after a run, with the events reported. */
  datatype Tracked = Tracked(pending: Tracking, codec: CodecState, events: seq<FrameEvent>)

  function Track(engine: Engine, codec: CodecState, a: Tracking, fs: seq<Frame>): Tracked {
    if fs == [] then Tracked(a, codec, [])
    else
      var f := fs[|fs| - 1];
      var before := Track(engine, codec, a, fs[..|fs| - 1]);
      var step := Assemble(before.pending, f);
      Tracked(step.next, CodecAfter(before.codec, step.seen),
              before.events + [EventFor(engine, before.codec, f, step.seen)])
  }

  method ConsumeAll(tracker: HeaderBlockTracker, codec: Codec, fs: seq<Frame>) returns (events: seq<FrameEvent>)
    modifies tracker, codec
    ensures Tracked(tracker.Pending(), codec.State(), events)
         == Track(codec.engine, old(codec.State()), old(tracker.Pending()), fs)
  {
    hide Assemble, EventFor, CodecAfter, HeaderBlockTracker.Pending;
    events := [];
    for i := 0 to |fs|
      invariant Tracked(tracker.Pending(), codec.State(), events)
             == Track(codec.engine, old(codec.State()), old(tracker.Pending()), fs[..i])
    {
      var event := tracker.Consume(fs[i], codec);
      events := events + [event];
      assert fs[..i + 1][..i] == fs[..i];
    }
    assert fs[..|fs|] == fs;
  }

  /**
    Two trackers with nothing pending, whatever octets each still holds from an earlier start on
    stream 0, report the same events on every run and decode the same blocks.
   */
  method StaleOctetsAreNeverSeen(
    one: HeaderBlockTracker, other: HeaderBlockTracker, codec1: Codec, codec2: Codec, fs: seq<Frame>)
    returns (events1: seq<FrameEvent>, events2: seq<FrameEvent>)
    requires one != other && codec1 != codec2
    requires one.pendingStream == 0 && other.pendingStream == 0
    requires codec1.engine == codec2.engine && codec1.State() == codec2.State()
    modifies one, other, codec1, codec2
    ensures events1 == events2
    ensures codec1.State() == codec2.State() && one.Pending() == other.Pending()
  {
    hide Track, Codec.State;
    events1 := ConsumeAll(one, codec1, fs);
    events2 := ConsumeAll(other, codec2, fs);
  }
}
