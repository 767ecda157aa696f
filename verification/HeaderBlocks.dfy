/**
  Reassembly of header blocks from HEADERS or PUSH_PROMISE and CONTINUATION (client/event.go;
  RFC 9113, sections 4.3 and 6.10). `Assemble` is the reference machine: nothing pending, or a
  block open on a nonzero stream. The tracker below encodes "nothing pending" as stream 0 and may
  hold left-over octets then; it is proved to behave as the reference machine all the same.
 */
module HeaderBlocks {
  import opened Results
  import opened Wire
  import opened Frames
  import opened Hpack

  datatype Assembly = Idle | Open(stream: uint32, block: bytes, endStream: bool)

  type Tracking = a: Assembly | a.Open? ==> a.stream != 0 witness Idle

  datatype Failure = UnexpectedContinuation | StreamMismatch | Interrupted | DecodeFailed

  datatype Observation = Quiet | Block(stream: uint32, endStream: bool, octets: bytes) | Fault(failure: Failure)

  datatype Step = Step(next: Tracking, seen: Observation)

  function Start(a: Tracking, stream: uint32, endStream: bool, endHeaders: bool, block: bytes): Step {
    if a.Open? then Step(Idle, Fault(Interrupted))
    else if endHeaders then Step(Idle, Block(stream, endStream, block))
    else if stream == 0 then Step(Idle, Quiet)
    else Step(Open(stream, block, endStream), Quiet)
  }

  function Assemble(a: Tracking, f: Frame): Step {
    var h := f.header;
    match f
    case HeadersFrame(_, _, _, block) =>
      Start(a, h.streamID, HasFlag(h.flags, FLAG_END_STREAM), HasFlag(h.flags, FLAG_END_HEADERS), block)
    case PushPromiseFrame(_, _, _, block) =>
      Start(a, h.streamID, false, HasFlag(h.flags, FLAG_END_HEADERS), block)
    case ContinuationFrame(_, block) =>
      if a.Idle? then Step(Idle, Fault(UnexpectedContinuation))
      else if h.streamID != a.stream then Step(Idle, Fault(StreamMismatch))
      else if HasFlag(h.flags, FLAG_END_HEADERS) then Step(Idle, Block(a.stream, a.endStream, a.block + block))
      else Step(a.(block := a.block + block), Quiet)
    case _ => Step(a, Quiet)
  }

  datatype FrameEvent = FrameEvent(
    frame: Frame,
    complete: bool,
    streamID: uint32,
    endStream: bool,
    headers: seq<HeaderField>,
    error: Option<Failure>)

  function PlainEvent(f: Frame): FrameEvent {
    FrameEvent(f, false, 0, false, [], None)
  }

  /** What is reported for an observation; only a completed block is shown to the decoder. */
  function EventFor(engine: Engine, codec: CodecState, f: Frame, seen: Observation): FrameEvent {
    match seen
    case Quiet => PlainEvent(f)
    case Fault(e) => PlainEvent(f).(error := Some(e))
    case Block(stream, endStream, octets) =>
      match engine.decode(codec.decoderOps, octets)
      case None => FrameEvent(f, true, stream, endStream, [], Some(DecodeFailed))
      case Some(fields) => FrameEvent(f, true, stream, endStream, fields, None)
  }

  function CodecAfter(codec: CodecState, seen: Observation): CodecState {
    if seen.Block? then codec.AfterDecode(seen.octets) else codec
  }

  class HeaderBlockTracker {
    var pendingStream: uint32
    var pendingBlock: bytes
    var pendingEnd: bool

    /** The block in progress. While `pendingStream` is 0 the other two fields mean nothing. */
    ghost function Pending(): Tracking
      reads this
    {
      if pendingStream == 0 then Idle else Open(pendingStream, pendingBlock, pendingEnd)
    }

    constructor ()
      ensures Pending() == Idle
    {
      pendingStream, pendingBlock, pendingEnd := 0, [], false;
    }

    method Consume(f: Frame, codec: Codec) returns (event: FrameEvent)
      modifies this, codec
      ensures Pending() == Assemble(old(Pending()), f).next
      ensures codec.State() == CodecAfter(old(codec.State()), Assemble(old(Pending()), f).seen)
      ensures event == EventFor(codec.engine, old(codec.State()), f, Assemble(old(Pending()), f).seen)
    {
      hide HasFlag;
      event := PlainEvent(f);
      var h := f.header;
      match f {
        case HeadersFrame(_, _, _, block) =>
          event := ConsumeHeaderStart(event, h.streamID, HasFlag(h.flags, FLAG_END_STREAM),
                                      HasFlag(h.flags, FLAG_END_HEADERS), block, codec);
        case PushPromiseFrame(_, _, _, block) =>
          event := ConsumeHeaderStart(event, h.streamID, false, HasFlag(h.flags, FLAG_END_HEADERS), block, codec);
        case ContinuationFrame(_, block) =>
          if pendingStream == 0 {
            event := event.(error := Some(UnexpectedContinuation));
            return;
          }
          if h.streamID != pendingStream {
            event := event.(error := Some(StreamMismatch));
            Reset();
            return;
          }
          pendingBlock := pendingBlock + block;
          if HasFlag(h.flags, FLAG_END_HEADERS) {
            event := Finish(event, pendingStream, pendingEnd, pendingBlock, codec);
          }
        case _ =>
      }
    }

    method ConsumeHeaderStart(initial: FrameEvent, stream: uint32, endStream: bool, endHeaders: bool,
                              block: bytes, codec: Codec)
      returns (event: FrameEvent)
      requires initial == PlainEvent(initial.frame)
      modifies this, codec
      ensures Pending() == Start(old(Pending()), stream, endStream, endHeaders, block).next
      ensures codec.State()
           == CodecAfter(old(codec.State()), Start(old(Pending()), stream, endStream, endHeaders, block).seen)
      ensures event == EventFor(codec.engine, old(codec.State()), initial.frame,
                                Start(old(Pending()), stream, endStream, endHeaders, block).seen)
    {
      event := initial;
      if pendingStream != 0 {
        event := event.(error := Some(Interrupted));
        Reset();
        return;
      }
      if endHeaders {
        event := Finish(event, stream, endStream, block, codec);
        return;
      }
      pendingStream := stream;
      pendingBlock := block;
      pendingEnd := endStream;
    }

    method Finish(initial: FrameEvent, stream: uint32, endStream: bool, block: bytes, codec: Codec)
      returns (event: FrameEvent)
      requires initial == PlainEvent(initial.frame)
      modifies this, codec
      ensures Pending() == Idle
      ensures codec.State() == old(codec.State()).AfterDecode(block)
      ensures event == EventFor(codec.engine, old(codec.State()), initial.frame, Block(stream, endStream, block))
    {
      event := initial.(complete := true, streamID := stream, endStream := endStream);
      var fields := codec.DecodeDetailed(block);
      if fields.None? {
        event := event.(error := Some(DecodeFailed));
        Reset();
        return;
      }
      event := event.(headers := fields.value);
      Reset();
    }

    method Reset()
      modifies this
      ensures Pending() == Idle
    {
      pendingStream := 0;
      pendingBlock := [];
      pendingEnd := false;
    }
  }
}
