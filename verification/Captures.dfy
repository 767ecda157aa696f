/** What is kept of received streams, and how events reach it and the display (output.go, output_capture.go). */
module Captures {
  import opened Results
  import opened Wire
  import opened Frames
  import opened Hpack
  import opened HeaderBlocks

  datatype CapturedStream = CapturedStream(headers: seq<HeaderField>, body: bytes, done: bool)

  const EMPTY_STREAM := CapturedStream([], [], false)

  datatype Capture = Capture(
    explicitStream: bool,
    targetStreamID: uint32,
    selectedStream: uint32,
    streams: map<uint32, CapturedStream>)

  function StreamIn(c: Capture, id: uint32): CapturedStream {
    if id in c.streams then c.streams[id] else EMPTY_STREAM
  }

  /** Who is selected once `id` has ended. */
  function Select(c: Capture, id: uint32): uint32 {
    if c.explicitStream then (if id == c.targetStreamID then id else c.selectedStream)
    else if c.selectedStream == 0 then id
    else c.selectedStream
  }

  function Record(c: Capture, id: uint32, headers: seq<HeaderField>, data: bytes, endStream: bool): Capture {
    var s := StreamIn(c, id);
    var s' := CapturedStream(s.headers + headers, s.body + data, s.done || endStream);
    c.(streams := c.streams[id := s'], selectedStream := if endStream then Select(c, id) else c.selectedStream)
  }

  predicate HasHeaders(e: FrameEvent) {
    e.complete && |e.headers| > 0
  }

  predicate DataEndsStream(f: Frame) {
    f.DataFrame? && HasFlag(f.header.flags, FLAG_END_STREAM)
  }

  function CaptureEvent(c: Capture, e: FrameEvent): Capture {
    var c1 := if HasHeaders(e) then Record(c, e.streamID, e.headers, [], e.endStream) else c;
    if e.frame.DataFrame?
    then Record(c1, e.frame.header.streamID, [], e.frame.data, DataEndsStream(e.frame))
    else c1
  }

  /** The stream whose body and headers would be written out. */
  function Selected(c: Capture): Option<CapturedStream> {
    var id := if c.explicitStream then c.targetStreamID else c.selectedStream;
    if (c.explicitStream || id != 0) && id in c.streams then Some(c.streams[id]) else None
  }

  class CaptureManager {
    const explicitStream: bool
    const targetStreamID: uint32
    var selectedStream: uint32
    var streams: map<uint32, CapturedStream>

    ghost function View(): Capture
      reads this
    {
      Capture(explicitStream, targetStreamID, selectedStream, streams)
    }

    constructor Explicit(streamID: uint32)
      ensures View() == Capture(true, streamID, 0, map[])
    {
      explicitStream, targetStreamID, selectedStream, streams := true, streamID, 0, map[];
    }

    constructor Auto()
      ensures View() == Capture(false, 0, 0, map[])
    {
      explicitStream, targetStreamID, selectedStream, streams := false, 0, 0, map[];
    }

    method Stream(streamID: uint32) returns (s: CapturedStream)
      modifies this`streams
      ensures s == StreamIn(old(View()), streamID)
      ensures streams == old(streams)[streamID := s]
    {
      if streamID !in streams {
        streams := streams[streamID := EMPTY_STREAM];
      }
      s := streams[streamID];
    }

    method RecordHeaders(streamID: uint32, headers: seq<HeaderField>, endStream: bool)
      modifies this
      ensures View() == Record(old(View()), streamID, headers, [], endStream)
    {
      var s := Stream(streamID);
      s := s.(headers := s.headers + headers);
      if endStream {
        s := s.(done := true);
        SelectStream(streamID);
      }
      streams := streams[streamID := s];
      assert s.body + [] == s.body;
    }

    method RecordData(streamID: uint32, data: bytes, endStream: bool)
      modifies this
      ensures View() == Record(old(View()), streamID, [], data, endStream)
    {
      var s := Stream(streamID);
      s := s.(body := s.body + data);
      if endStream {
        s := s.(done := true);
        SelectStream(streamID);
      }
      streams := streams[streamID := s];
      assert s.headers + [] == s.headers;
    }

    method SelectStream(streamID: uint32)
      modifies this`selectedStream
      ensures selectedStream == Select(old(View()), streamID)
    {
      if explicitStream {
        if streamID == targetStreamID {
          selectedStream := streamID;
        }
        return;
      }
      if selectedStream == 0 {
        selectedStream := streamID;
      }
    }

    method SelectedStream() returns (s: Option<CapturedStream>)
      ensures s == Selected(View())
    {
      if explicitStream {
        return if targetStreamID in streams then Some(streams[targetStreamID]) else None;
      }
      if selectedStream == 0 {
        return None;
      }
      return if selectedStream in streams then Some(streams[selectedStream]) else None;
    }
  }

  // ---------------------------------------------------------------- display

  datatype Direction = SentSide | ReceivedSide

  datatype FrameName =
    | Data | Headers | Priority | RstStream | Settings | PushPromise | Ping | GoAway | WindowUpdate | Continuation | Raw

  function NameOf(f: Frame): FrameName {
    match f
    case DataFrame(_, _, _) => Data
    case HeadersFrame(_, _, _, _) => Headers
    case PriorityFrame(_, _) => Priority
    case RSTStreamFrame(_, _) => RstStream
    case SettingsFrame(_, _) => Settings
    case PushPromiseFrame(_, _, _, _) => PushPromise
    case PingFrame(_, _) => Ping
    case GoAwayFrame(_, _, _, _) => GoAway
    case WindowUpdateFrame(_, _) => WindowUpdate
    case ContinuationFrame(_, _) => Continuation
    case RawFrame(_, _) => Raw
  }

  datatype Format = Text | JsonLines

  /** Everything that only concerns what is shown. Empty filter sets let everything through. */
  datatype Display = Display(
    format: Format,
    dataLimit: nat,
    decodeHeaders: bool,
    frameFilters: set<FrameName>,
    directions: set<Direction>,
    streamFilter: Option<uint32>)

  predicate ShowsDirection(d: Display, direction: Direction) {
    d.directions == {} || direction in d.directions
  }

  predicate Shows(d: Display, direction: Direction, f: Frame) {
    && ShowsDirection(d, direction)
    && (d.frameFilters == {} || NameOf(f) in d.frameFilters)
    && (d.streamFilter.Some? ==> f.header.streamID == 0 || f.header.streamID == d.streamFilter.value)
  }

  datatype Line =
    | FrameLine(format: Format, limit: nat, direction: Direction, frame: Frame, headers: seq<HeaderField>)
    | Notice(format: Format, direction: Direction, text: string)

  function LineFor(d: Display, direction: Direction, e: FrameEvent): Line {
    FrameLine(d.format, d.dataLimit, direction, e.frame, if d.decodeHeaders then e.headers else [])
  }

  /** What is shown of an event, if the filters let it through. */
  function LinesFor(d: Display, direction: Direction, e: FrameEvent): seq<Line> {
    if Shows(d, direction, e.frame) then [LineFor(d, direction, e)] else []
  }

  datatype Handled = Handled(capture: Option<Capture>, lines: seq<Line>, failed: bool)

  /** A received event: an undecodable block stops the run if anyone cares; capture comes before display. */
  function HandleEvent(d: Display, c: Option<Capture>, e: FrameEvent): Handled {
    if e.error.Some? && (d.decodeHeaders || c.Some?) then Handled(c, [], true)
    else Handled(if c.Some? then Some(CaptureEvent(c.value, e)) else None,
                 LinesFor(d, ReceivedSide, e), false)
  }

  class OutputController {
    const display: Display
    const capture: CaptureManager?
    const writerWorks: bool
    var shown: seq<Line>

    ghost function Captured(): Option<Capture>
      reads capture
    {
      if capture == null then None else Some(capture.View())
    }

    constructor (display: Display, capture: CaptureManager?, writerWorks: bool)
      ensures this.display == display && this.capture == capture && this.writerWorks == writerWorks
      ensures shown == []
    {
      this.display, this.capture, this.writerWorks, shown := display, capture, writerWorks, [];
    }

    method Write(line: Line) returns (ok: bool)
      modifies this
      ensures ok ==> shown == old(shown) + [line]
      ensures !ok ==> shown == old(shown)
      ensures writerWorks ==> ok
    {
      var breaks: bool := *;
      ok := writerWorks || !breaks;
      if ok { shown := shown + [line]; }
    }

    method PrintNotice(direction: Direction, text: string) returns (ok: bool)
      modifies this
      ensures writerWorks ==> ok
      ensures ok ==>
        shown == old(shown)
              + (if ShowsDirection(display, direction) then [Notice(display.format, direction, text)] else [])
    {
      if !ShowsDirection(display, direction) { return true; }
      ok := Write(Notice(display.format, direction, text));
    }

    method HandleSent(event: FrameEvent) returns (ok: bool)
      modifies this
      ensures writerWorks ==> ok
      ensures ok ==> shown == old(shown) + LinesFor(display, SentSide, event)
    {
      if !Shows(display, SentSide, event.frame) { return true; }
      ok := Write(LineFor(display, SentSide, event));
    }

    method HandleReceived(event: FrameEvent) returns (ok: bool)
      modifies this, capture
      ensures var h := HandleEvent(display, old(Captured()), event);
        && Captured() == h.capture
        && (ok ==> !h.failed && shown == old(shown) + h.lines)
        && (writerWorks ==> ok == !h.failed)
    {
      hide Shows, CaptureEvent;
      if event.error.Some? && (display.decodeHeaders || capture != null) { return false; }
      CaptureReceived(event);
      if !Shows(display, ReceivedSide, event.frame) { return true; }
      ok := Write(LineFor(display, ReceivedSide, event));
    }

    method CaptureReceived(event: FrameEvent)
      modifies capture
      ensures capture != null ==> capture.View() == CaptureEvent(old(capture.View()), event)
    {
      hide HasFlag;
      if capture == null { return; }
      if event.complete && |event.headers| > 0 {
        capture.RecordHeaders(event.streamID, event.headers, event.endStream);
      }
      if event.frame.DataFrame? {
        var h := event.frame.header;
        capture.RecordData(h.streamID, event.frame.data, HasFlag(h.flags, FLAG_END_STREAM));
      }
    }
  }
}
