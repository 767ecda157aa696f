/**
  Header blocks told from the frames alone: which fragments are waiting for their CONTINUATION, what
  each frame then brings about, and which fault each situation is.
 */
module HeaderBlockHistory {
  import opened Results
  import opened Wire
  import opened Frames
  import opened Hpack
  import opened HeaderBlocks
  import opened HeaderBlockLaws
  import opened Endpoints
  import opened FrameLayout

  predicate IsStart(f: Frame) {
    f.HeadersFrame? || f.PushPromiseFrame?
  }

  /** What `f` brings about while the fragments `waiting` are waiting. */
  function Outcome(waiting: seq<Frame>, f: Frame): Observation {
    if IsStart(f) then
      if waiting != [] then Fault(Interrupted)
      else if Ends(f) then Block(f.header.streamID, EndsStream(f), f.block)
      else Quiet
    else if f.ContinuationFrame? then
      if waiting == [] then Fault(UnexpectedContinuation)
      else if f.header.streamID != waiting[0].header.streamID then Fault(StreamMismatch)
      else if Ends(f) then Block(waiting[0].header.streamID, EndsStream(waiting[0]), Joined(waiting) + f.block)
      else Quiet
    else Quiet
  }

  /** What the flags of a fragment mean, by their digits (RFC 9113, sections 6.2, 6.6 and 6.10). */
  lemma MarksAreDigits(f: Frame)
    ensures Ends(f) <==> f.header.flags / 4 % 2 == 1
    ensures EndsStream(f) <==> f.HeadersFrame? && f.header.flags % 2 == 1
  {
    hide HasFlag;
    FlagIsDigit(f.header.flags);
  }

  /** Stream 0 also means that nothing is waiting, so a block begun there is not kept. */
  predicate IsKept(f: Frame) {
    f.ContinuationFrame? || (IsStart(f) && f.header.streamID != 0)
  }

  /** The fragments kept since the last fault or completed block. */
  function Waiting(fs: seq<Frame>): seq<Frame> {
    if fs == [] then []
    else
      var waiting, f := Waiting(fs[..|fs| - 1]), fs[|fs| - 1];
      if !Outcome(waiting, f).Quiet? then []
      else if IsKept(f) then waiting + [f]
      else waiting
  }

  function Outcomes(fs: seq<Frame>): seq<Observation> {
    if fs == [] then []
    else
      var init := fs[..|fs| - 1];
      Outcomes(init) + Loud(Outcome(Waiting(init), fs[|fs| - 1]))
  }

  /** The machine's state when exactly these fragments are waiting. */
  function Holding(waiting: seq<Frame>): Tracking
    requires waiting != [] ==> waiting[0].header.streamID != 0
  {
    if waiting == [] then Idle else Open(waiting[0].header.streamID, Joined(waiting), EndsStream(waiting[0]))
  }

  /** What is waiting is one block on a nonzero stream, still without its last fragment. */
  predicate IsPartOfOne(waiting: seq<Frame>) {
    waiting != [] ==> Unfinished(waiting, waiting[0].header.streamID) && waiting[0].header.streamID != 0
  }

  lemma JoinedSnoc(fs: seq<Frame>, f: Frame)
    ensures Joined(fs + [f]) == Joined(fs) + Fragment(f)
  {
    hide Fragment;
    assert (fs + [f])[..|fs|] == fs;
  }

  lemma OneMoreFragment(waiting: seq<Frame>, f: Frame)
    requires IsPartOfOne(waiting) && Outcome(waiting, f).Quiet?
    ensures IsKept(f) ==>
      IsPartOfOne(waiting + [f]) && Assemble(Holding(waiting), f) == Step(Holding(waiting + [f]), Quiet)
    ensures !IsKept(f) ==> Assemble(Holding(waiting), f) == Step(Holding(waiting), Quiet)
  {
    if IsKept(f) {
      if waiting == [] { FirstIsKept(f); } else { NextIsKept(waiting, f); }
    } else {
      hide HasFlag, Joined;
    }
  }

  lemma FirstIsKept(f: Frame)
    requires IsKept(f) && Outcome([], f).Quiet?
    ensures IsPartOfOne([] + [f]) && Assemble(Idle, f) == Step(Holding([] + [f]), Quiet)
  {
    hide HasFlag;
    assert [] + [f] == [f];
    JoinedSnoc([], f);
    assert Joined([]) == [] && [] + Fragment(f) == Fragment(f);
  }

  lemma NextIsKept(waiting: seq<Frame>, f: Frame)
    requires waiting != [] && IsPartOfOne(waiting) && IsKept(f) && Outcome(waiting, f).Quiet?
    ensures IsPartOfOne(waiting + [f]) && Assemble(Holding(waiting), f) == Step(Holding(waiting + [f]), Quiet)
  {
    JoinedSnoc(waiting, f);
    hide HasFlag, Joined;
    assert (waiting + [f])[0] == waiting[0];
  }

  lemma LoudFrame(waiting: seq<Frame>, f: Frame)
    requires IsPartOfOne(waiting) && !Outcome(waiting, f).Quiet?
    ensures Assemble(Holding(waiting), f) == Step(Idle, Outcome(waiting, f))
  {
    hide HasFlag, Joined;
  }

  /**
    From the start of a connection, after any frames: the machine holds exactly the fragments kept since
    the last fault or completed block, and has observed what each frame brought about. Something is
    pending if and only if fragments are waiting.
   */
  lemma {:induction false} TrackerFollowsHistory(fs: seq<Frame>)
    ensures IsPartOfOne(Waiting(fs))
    ensures Reassemble(Idle, fs) == Run(Holding(Waiting(fs)), Outcomes(fs))
  {
    if fs != [] {
      hide Assemble, Outcome, IsKept, Holding, IsPartOfOne, Loud;
      var init, f := fs[..|fs| - 1], fs[|fs| - 1];
      TrackerFollowsHistory(init);
      NothingIsPartOfOne();
      if Outcome(Waiting(init), f).Quiet? {
        OneMoreFragment(Waiting(init), f);
      } else {
        LoudFrame(Waiting(init), f);
      }
    }
  }

  lemma NothingIsPartOfOne()
    ensures IsPartOfOne([]) && Holding([]) == Idle
  {
  }

  // ---------------------------------------------------------------- the fragments as a suffix of the run

  /** How many frames there are up to the last fault or completed block. */
  function SettledAt(fs: seq<Frame>): (n: nat)
    ensures n <= |fs|
  {
    if fs == [] then 0
    else
      var init := fs[..|fs| - 1];
      if !Outcome(Waiting(init), fs[|fs| - 1]).Quiet? then |fs| else SettledAt(init)
  }

  function Kept(fs: seq<Frame>): seq<Frame> {
    if fs == [] then [] else Kept(fs[..|fs| - 1]) + if IsKept(fs[|fs| - 1]) then [fs[|fs| - 1]] else []
  }

  /** What is waiting is all that was kept of the frames after the last fault or completed block. */
  lemma {:induction false} WaitingIsSinceSettled(fs: seq<Frame>)
    ensures Waiting(fs) == Kept(fs[SettledAt(fs)..])
  {
    if fs != [] {
      hide Outcome, IsKept;
      var n := |fs| - 1;
      var init, f, p := fs[..n], fs[n], SettledAt(fs);
      WaitingIsSinceSettled(init);
      if Outcome(Waiting(init), f).Quiet? {
        assert fs[p..][..n - p] == init[p..] && fs[p..][n - p] == f;
        assert Waiting(init) + [] == Waiting(init);
      } else {
        assert fs[|fs|..] == [];
      }
    }
  }

  // ---------------------------------------------------------------- faults

  /** A fault or a completed block leaves nothing behind: what follows is seen as from the start. */
  lemma LoudnessSettles(fs: seq<Frame>, f: Frame, gs: seq<Frame>)
    requires !Outcome(Waiting(fs), f).Quiet?
    ensures Reassemble(Idle, fs + [f] + gs)
         == Run(Reassemble(Idle, gs).last, Reassemble(Idle, fs + [f]).seen + Reassemble(Idle, gs).seen)
  {
    hide Assemble, Outcome, Reassemble, Holding, IsPartOfOne;
    assert (fs + [f])[..|fs|] == fs;
    TrackerFollowsHistory(fs + [f]);
    NothingIsPartOfOne();
    ReassembleConcat(Idle, fs + [f], gs);
  }

  /** Which fault a frame is, in terms of what is waiting. */
  lemma FaultsExactly(fs: seq<Frame>, f: Frame)
    ensures var waiting, seen := Waiting(fs), Assemble(Reassemble(Idle, fs).last, f).seen;
      && (seen == Fault(Interrupted) <==> IsStart(f) && waiting != [])
      && (seen == Fault(UnexpectedContinuation) <==> f.ContinuationFrame? && waiting == [])
      && (seen == Fault(StreamMismatch) <==>
            f.ContinuationFrame? && waiting != [] && f.header.streamID != waiting[0].header.streamID)
      && seen != Fault(DecodeFailed)
  {
    hide Assemble, Reassemble, Holding, IsPartOfOne, Joined, Ends, EndsStream;
    TrackerFollowsHistory(fs);
    if Outcome(Waiting(fs), f).Quiet? { OneMoreFragment(Waiting(fs), f); } else { LoudFrame(Waiting(fs), f); }
  }

  /** HEADERS on 1, complete HEADERS on 3, CONTINUATION on 1: two faults, and the first block is never decoded. */
  lemma InterruptedBlockIsGone(a: bytes, x: bytes, b: bytes)
    ensures var fs := [HeadersFrame(Header(0, TYPE_HEADERS, 0, 1), 0, None, a),
                       HeadersFrame(Header(0, TYPE_HEADERS, 4, 3), 0, None, x),
                       ContinuationFrame(Header(0, TYPE_CONTINUATION, 4, 1), b)];
      Reassemble(Idle, fs) == Run(Idle, [Fault(Interrupted), Fault(UnexpectedContinuation)])
  {
    var f1 := HeadersFrame(Header(0, TYPE_HEADERS, 0, 1), 0, None, a);
    var f2 := HeadersFrame(Header(0, TYPE_HEADERS, 4, 3), 0, None, x);
    var f3 := ContinuationFrame(Header(0, TYPE_CONTINUATION, 4, 1), b);
    assert Assemble(Idle, f1) == Step(Open(1, a, false), Quiet) by { assert !HasFlag(0, 4) && !HasFlag(0, 1); }
    assert Assemble(Open(1, a, false), f2) == Step(Idle, Fault(Interrupted)) by { hide HasFlag; }
    assert Assemble(Idle, f3) == Step(Idle, Fault(UnexpectedContinuation)) by { hide HasFlag; }
    assert Reassemble(Idle, []) == Run(Idle, []);
    hide Assemble, Reassemble, HasFlag;
    ReassembleSnoc(Idle, [], f1);
    ReassembleSnoc(Idle, [f1], f2);
    ReassembleSnoc(Idle, [f1, f2], f3);
    assert [] + [f1] == [f1] && [f1] + [f2] == [f1, f2] && [f1, f2] + [f3] == [f1, f2, f3];
  }

  // ---------------------------------------------------------------- events

  /**
    What an event reports: a completed block exactly where the frames make one, with its stream, its
    END_STREAM bit and whatever the decoder answers to its octets; the fault where they make one.
   */
  predicate Reports(engine: Engine, ops: seq<DecoderOp>, o: Observation, f: Frame, e: FrameEvent) {
    && e.frame == f
    && (e.complete <==> o.Block?)
    && match o
       case Quiet => e.error.None? && e.headers == []
       case Fault(failure) => e.error == Some(failure) && e.headers == []
       case Block(stream, endStream, octets) =>
         && e.streamID == stream && e.endStream == endStream
         && match engine.decode(ops, octets)
            case None => e.error == Some(DecodeFailed) && e.headers == []
            case Some(fields) => e.error.None? && e.headers == fields
  }

  lemma OutcomeIsSeen(fs: seq<Frame>, f: Frame)
    ensures Assemble(Reassemble(Idle, fs).last, f).seen == Outcome(Waiting(fs), f)
  {
    hide Assemble, Reassemble, Outcome, Holding, IsPartOfOne;
    TrackerFollowsHistory(fs);
    if Outcome(Waiting(fs), f).Quiet? { OneMoreFragment(Waiting(fs), f); } else { LoudFrame(Waiting(fs), f); }
  }

  /** Received frames are reported with the answers of the response decoder. */
  lemma ReceivedEventTellsOutcome(engine: Engine, ep: Endpoint, fs: seq<Frame>, f: Frame)
    requires ep.received == Reassemble(Idle, fs).last
    ensures Reports(engine, ep.response.decoderOps, Outcome(Waiting(fs), f), f, OnReceive(engine, ep, f).event)
  {
    hide Assemble, Reassemble, Outcome, WithReceivedSettings;
    OutcomeIsSeen(fs, f);
  }

  /** Sent ones with those of the request codec's decoder. */
  lemma SentEventTellsOutcome(engine: Engine, ep: Endpoint, fs: seq<Frame>, f: Frame)
    requires ep.sent == Reassemble(Idle, fs).last
    ensures Reports(engine, ep.request.decoderOps, Outcome(Waiting(fs), f), f, OnSend(engine, ep, f).event)
  {
    hide Assemble, Reassemble, Outcome, WithSentSettings;
    OutcomeIsSeen(fs, f);
  }
}
