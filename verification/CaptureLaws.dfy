/** The capture of a whole run, described without its bookkeeping. */
module CaptureLaws {
  import opened Results
  import opened Wire
  import opened Frames
  import opened Hpack
  import opened HeaderBlocks
  import opened Captures

  function CaptureAll(c: Capture, events: seq<FrameEvent>): Capture {
    if events == [] then c
    else CaptureEvent(CaptureAll(c, events[..|events| - 1]), events[|events| - 1])
  }

  // ---------------------------------------------------------------- what one stream received

  function DataOf(s: uint32, f: Frame): bytes {
    if f.DataFrame? && f.header.streamID == s then f.data else []
  }

  function FieldsOf(s: uint32, e: FrameEvent): seq<HeaderField> {
    if HasHeaders(e) && e.streamID == s then e.headers else []
  }

  predicate Mentions(s: uint32, e: FrameEvent) {
    (HasHeaders(e) && e.streamID == s) || (e.frame.DataFrame? && e.frame.header.streamID == s)
  }

  predicate EndsIn(s: uint32, e: FrameEvent) {
    || (HasHeaders(e) && e.streamID == s && e.endStream)
    || (DataEndsStream(e.frame) && e.frame.header.streamID == s)
  }

  /** DATA of stream `s` in the order received. */
  function BodyOf(s: uint32, events: seq<FrameEvent>): bytes {
    if events == [] then []
    else BodyOf(s, events[..|events| - 1]) + DataOf(s, events[|events| - 1].frame)
  }

  /** Header lists completed on stream `s` in the order received. */
  function HeadersOf(s: uint32, events: seq<FrameEvent>): seq<HeaderField> {
    if events == [] then []
    else HeadersOf(s, events[..|events| - 1]) + FieldsOf(s, events[|events| - 1])
  }

  predicate Mentioned(s: uint32, events: seq<FrameEvent>) {
    exists i :: 0 <= i < |events| && Mentions(s, events[i])
  }

  predicate Ended(s: uint32, events: seq<FrameEvent>) {
    exists i :: 0 <= i < |events| && EndsIn(s, events[i])
  }

  /** What stream `s` is known for after `events`, when it was known for `before`. */
  ghost function Extended(before: CapturedStream, s: uint32, events: seq<FrameEvent>): CapturedStream {
    CapturedStream(before.headers + HeadersOf(s, events), before.body + BodyOf(s, events),
                   before.done || Ended(s, events))
  }

  ghost predicate DescribesStream(c: Capture, after: Capture, s: uint32, events: seq<FrameEvent>) {
    && (s in after.streams <==> s in c.streams || Mentioned(s, events))
    && StreamIn(after, s) == Extended(StreamIn(c, s), s, events)
  }

  lemma ExistsSnoc(events: seq<FrameEvent>, e: FrameEvent, s: uint32)
    ensures Mentioned(s, events + [e]) <==> Mentioned(s, events) || Mentions(s, e)
    ensures Ended(s, events + [e]) <==> Ended(s, events) || EndsIn(s, e)
  {
    hide Mentions, EndsIn;
    var all := events + [e];
    assert all[|events|] == e;
    forall i | 0 <= i < |events| ensures all[i] == events[i] { }
  }

  lemma OneStreamStep(c: Capture, e: FrameEvent, s: uint32)
    ensures var next := CaptureEvent(c, e); var before := StreamIn(c, s);
      && (s in next.streams <==> s in c.streams || Mentions(s, e))
      && StreamIn(next, s) == CapturedStream(before.headers + FieldsOf(s, e), before.body + DataOf(s, e.frame),
                                             before.done || EndsIn(s, e))
  {
    hide HasFlag;
    assert StreamIn(c, s).headers + [] == StreamIn(c, s).headers;
    assert StreamIn(c, s).body + [] == StreamIn(c, s).body;
  }

  lemma NothingMore(before: CapturedStream, s: uint32)
    ensures Extended(before, s, []) == before && !Mentioned(s, [])
  {
    assert before.headers + [] == before.headers && before.body + [] == before.body;
  }

  lemma OneMoreEvent(before: CapturedStream, s: uint32, events: seq<FrameEvent>, e: FrameEvent)
    ensures var now := Extended(before, s, events);
      Extended(before, s, events + [e])
        == CapturedStream(now.headers + FieldsOf(s, e), now.body + DataOf(s, e.frame), now.done || EndsIn(s, e))
  {
    hide DataOf, FieldsOf, EndsIn, Ended, Mentioned;
    assert (events + [e])[..|events|] == events;
    ExistsSnoc(events, e, s);
    var now := Extended(before, s, events);
    assert before.headers + (HeadersOf(s, events) + FieldsOf(s, e)) == now.headers + FieldsOf(s, e);
    assert before.body + (BodyOf(s, events) + DataOf(s, e.frame)) == now.body + DataOf(s, e.frame);
  }

  /**
    After any run from any capture, each stream's body has grown by the in-order concatenation of its
    DATA, its headers by that of its completed header lists, and it counts as done once END_STREAM was
    recorded for it.
   */
  lemma {:induction false} CaptureDescribesStreams(c: Capture, events: seq<FrameEvent>, s: uint32)
    ensures DescribesStream(c, CaptureAll(c, events), s, events)
  {
    if events == [] {
      NothingMore(StreamIn(c, s), s);
    } else {
      hide CaptureEvent, Extended, Mentioned, Mentions, FieldsOf, DataOf, EndsIn, Ended;
      var init, last := events[..|events| - 1], events[|events| - 1];
      assert events == init + [last];
      CaptureDescribesStreams(c, init, s);
      ExistsSnoc(init, last, s);
      OneMoreEvent(StreamIn(c, s), s, init, last);
      OneStreamStep(CaptureAll(c, init), last, s);
    }
  }

  lemma {:induction false} CaptureAllConcat(c: Capture, es: seq<FrameEvent>, fs: seq<FrameEvent>)
    ensures CaptureAll(c, es + fs) == CaptureAll(CaptureAll(c, es), fs)
  {
    if fs == [] {
      assert es + fs == es;
    } else {
      hide CaptureEvent;
      CaptureAllConcat(c, es, fs[..|fs| - 1]);
      assert (es + fs)[..|es + fs| - 1] == es + fs[..|fs| - 1];
    }
  }

  // ---------------------------------------------------------------- ends seen and ends recorded

  /** END_STREAM as anyone reading the traffic sees it; the capture does not record it on a block without fields. */
  predicate SeesEnd(s: uint32, e: FrameEvent) {
    || (e.complete && e.streamID == s && e.endStream)
    || (DataEndsStream(e.frame) && e.frame.header.streamID == s)
  }

  predicate SawEnd(s: uint32, events: seq<FrameEvent>) {
    exists i :: 0 <= i < |events| && SeesEnd(s, events[i])
  }

  /** HEADERS with END_STREAM whose block holds no fields: the end is in plain view, and the capture does not change. */
  lemma EmptyBlockEndsUnrecorded(codec: CodecState, stream: uint32, c: Capture)
    ensures var engine := Engine((_, _) => Some([]), (_, _) => Some([]));
      var f := HeadersFrame(Header(0, TYPE_HEADERS, FLAG_END_STREAM + FLAG_END_HEADERS, stream), 0, None, []);
      var e := EventFor(engine, codec, f, Assemble(Idle, f).seen);
      && SeesEnd(stream, e) && EndedBy(e) == 0
      && CaptureEvent(c, e) == c
  {
    assert HasFlag(0x5, FLAG_END_STREAM) && HasFlag(0x5, FLAG_END_HEADERS);
  }

  /** A stream is known to have ended exactly as seen, unless its end was only ever seen on blocks without fields. */
  lemma EndIsRecordedExactly(c: Capture, events: seq<FrameEvent>, s: uint32)
    ensures var known := StreamIn(c, s).done; var done := StreamIn(CaptureAll(c, events), s).done;
      && (done ==> known || SawEnd(s, events))
      && (done == (known || SawEnd(s, events)) <==> known || !SawEnd(s, events) || Ended(s, events))
  {
    hide CaptureAll, HeadersOf, BodyOf, HasHeaders;
    CaptureDescribesStreams(c, events, s);
    assert forall i :: 0 <= i < |events| && EndsIn(s, events[i]) ==> SeesEnd(s, events[i]) by { HeadersAreComplete(); }
  }

  lemma HeadersAreComplete()
    ensures forall e: FrameEvent :: HasHeaders(e) ==> e.complete
  {
  }

  // ---------------------------------------------------------------- selection

  /** The stream whose END_STREAM the event records, or 0. */
  function EndedBy(e: FrameEvent): uint32 {
    if HasHeaders(e) && e.endStream then e.streamID
    else if DataEndsStream(e.frame) then e.frame.header.streamID
    else 0
  }

  /** The first nonzero stream that ended, searching from the front; 0 if there is none. */
  function FirstEnded(events: seq<FrameEvent>): uint32 {
    if events == [] then 0
    else if EndedBy(events[0]) != 0 then EndedBy(events[0])
    else FirstEnded(events[1..])
  }

  /** The selection after `events`, when `selected` was selected before: the first to be selected stays. */
  function Settled(selected: uint32, events: seq<FrameEvent>): uint32 {
    if selected != 0 then selected else FirstEnded(events)
  }

  lemma {:induction false} FirstEndedSnoc(events: seq<FrameEvent>, e: FrameEvent)
    ensures FirstEnded(events + [e]) == if FirstEnded(events) != 0 then FirstEnded(events) else EndedBy(e)
  {
    hide EndedBy;
    if events == [] {
      assert [] + [e] == [e];
    } else {
      FirstEndedSnoc(events[1..], e);
      assert (events + [e])[1..] == events[1..] + [e];
    }
  }

  /** A header event never carries DATA as well. */
  predicate OneKind(e: FrameEvent) {
    e.complete ==> !e.frame.DataFrame?
  }

  lemma SelectionStep(c: Capture, e: FrameEvent)
    requires OneKind(e)
    ensures var next := CaptureEvent(c, e);
      && next.explicitStream == c.explicitStream && next.targetStreamID == c.targetStreamID
      && (!c.explicitStream ==>
            next.selectedStream == if c.selectedStream != 0 then c.selectedStream else EndedBy(e))
  {
    hide HasFlag;
  }

  /**
    Auto mode settles on the first nonzero stream to end and never changes its mind; explicit mode
    always answers for its target.
   */
  lemma {:induction false} SelectionSettles(c: Capture, events: seq<FrameEvent>)
    requires forall i :: 0 <= i < |events| ==> OneKind(events[i])
    ensures var after := CaptureAll(c, events);
      && after.explicitStream == c.explicitStream && after.targetStreamID == c.targetStreamID
      && (!c.explicitStream ==> after.selectedStream == Settled(c.selectedStream, events))
  {
    if events != [] {
      hide CaptureEvent, EndedBy, OneKind;
      var init, last := events[..|events| - 1], events[|events| - 1];
      SelectionSettles(c, init);
      SelectionStep(CaptureAll(c, init), last);
      assert events == init + [last];
      FirstEndedSnoc(init, last);
    }
  }

  /** The stream whose END_STREAM the event shows, or 0. */
  function SeenEndBy(e: FrameEvent): uint32 {
    if e.complete && e.endStream then e.streamID
    else if DataEndsStream(e.frame) then e.frame.header.streamID
    else 0
  }

  /** Where the first end of a nonzero stream is seen; the length if there is none. */
  function FirstSeenAt(events: seq<FrameEvent>): (i: nat)
    ensures i <= |events|
    ensures i < |events| ==> SeenEndBy(events[i]) != 0
    ensures forall j :: 0 <= j < i ==> SeenEndBy(events[j]) == 0
  {
    if events == [] || SeenEndBy(events[0]) != 0 then 0 else FirstSeenAt(events[1..]) + 1
  }

  lemma RecordedEndIsSeen(e: FrameEvent)
    requires OneKind(e) && EndedBy(e) != 0
    ensures SeenEndBy(e) == EndedBy(e)
  {
    hide HasFlag;
  }

  /** The event at `j` is the next one after `i` to record an end. */
  predicate RecordsNext(events: seq<FrameEvent>, i: nat, j: nat) {
    i < j < |events| && EndedBy(events[j]) != 0 && forall k :: i < k < j ==> EndedBy(events[k]) == 0
  }

  lemma {:induction false} FirstEndedIsFirst(events: seq<FrameEvent>, j: nat)
    requires j <= |events|
    requires forall k :: 0 <= k < j ==> EndedBy(events[k]) == 0
    ensures j < |events| && EndedBy(events[j]) != 0 ==> FirstEnded(events) == EndedBy(events[j])
    ensures j == |events| ==> FirstEnded(events) == 0
  {
    hide EndedBy;
    if j > 0 { FirstEndedIsFirst(events[1..], j - 1); }
  }

  /** The first event from `from` on to record an end; the length if there is none. */
  function RecordedFrom(events: seq<FrameEvent>, from: nat): (j: nat)
    requires from <= |events|
    ensures from <= j <= |events|
    ensures forall k :: from <= k < j ==> EndedBy(events[k]) == 0
    ensures j < |events| ==> EndedBy(events[j]) != 0
    decreases |events| - from
  {
    if from == |events| || EndedBy(events[from]) != 0 then from else RecordedFrom(events, from + 1)
  }

  /**
    Auto mode selects the stream whose end is seen first if and only if that end is recorded, or the
    next end that is recorded is of the same stream.
   */
  lemma AutoSelectsFirstSeenExactly(c: Capture, events: seq<FrameEvent>)
    requires c.selectedStream == 0 && !c.explicitStream
    requires forall i :: 0 <= i < |events| ==> OneKind(events[i])
    ensures var i := FirstSeenAt(events);
      if i == |events| then CaptureAll(c, events).selectedStream == 0
      else CaptureAll(c, events).selectedStream == SeenEndBy(events[i])
           <==> EndedBy(events[i]) != 0
                || exists j: nat :: RecordsNext(events, i, j) && EndedBy(events[j]) == SeenEndBy(events[i])
  {
    SelectionSettles(c, events);
    hide CaptureAll, EndedBy, SeenEndBy, OneKind, FirstSeenAt, FirstEnded, RecordedFrom;
    var i := FirstSeenAt(events);
    forall j | 0 <= j < |events| ensures EndedBy(events[j]) != 0 ==> SeenEndBy(events[j]) == EndedBy(events[j]) {
      if EndedBy(events[j]) != 0 { RecordedEndIsSeen(events[j]); }
    }
    var j := RecordedFrom(events, i);
    FirstEndedIsFirst(events, j);
    if j < |events| && i < j { assert RecordsNext(events, i, j); }
  }

  /** Otherwise it skips that stream: here for one that ended on a block without fields. */
  lemma AutoSelectionCanSkip(e1: FrameEvent, e2: FrameEvent)
    requires OneKind(e1) && e1.complete && e1.endStream && e1.streamID != 0 && e1.headers == []
    requires OneKind(e2) && DataEndsStream(e2.frame)
    ensures SeenEndBy(e1) == e1.streamID
    ensures CaptureAll(Capture(false, 0, 0, map[]), [e1, e2]).selectedStream == e2.frame.header.streamID
  {
    hide HasFlag;
    var c := Capture(false, 0, 0, map[]);
    assert [e1, e2][..1] == [e1] && [e1][..0] == [];
    assert CaptureAll(c, [e1]) == CaptureEvent(c, e1) == c;
  }

  /** What would be written out after a run: nothing, or one stream's headers and body. */
  lemma SelectedStreamIsComplete(c: Capture, events: seq<FrameEvent>)
    requires forall i :: 0 <= i < |events| ==> OneKind(events[i])
    ensures var s := if c.explicitStream then c.targetStreamID else Settled(c.selectedStream, events);
      Selected(CaptureAll(c, events))
        == if (c.explicitStream || s != 0) && (s in c.streams || Mentioned(s, events))
           then Some(Extended(StreamIn(c, s), s, events))
           else None
  {
    hide CaptureAll, Settled, Mentioned, Extended;
    SelectionSettles(c, events);
    var s := if c.explicitStream then c.targetStreamID else Settled(c.selectedStream, events);
    CaptureDescribesStreams(c, events, s);
  }

  // ---------------------------------------------------------------- display never influences capture

  /** A run through the output controller: it stops at the first event that fails. */
  datatype Shown = Shown(capture: Option<Capture>, lines: seq<Line>, stoppedAt: Option<nat>)

  function HandleAll(d: Display, c: Option<Capture>, events: seq<FrameEvent>): (r: Shown)
    ensures r.stoppedAt.Some? ==> r.stoppedAt.value < |events|
  {
    if events == [] then Shown(c, [], None)
    else
      var before := HandleAll(d, c, events[..|events| - 1]);
      if before.stoppedAt.Some? then before
      else
        var h := HandleEvent(d, before.capture, events[|events| - 1]);
        Shown(h.capture, before.lines + h.lines, if h.failed then Some(|events| - 1) else None)
  }

  /** Exactly what is hidden: what a nonempty filter does not list, but stream 0 never by the stream filter. */
  lemma HiddenExactly(d: Display, direction: Direction, f: Frame)
    ensures !Shows(d, direction, f) <==>
      || (d.directions != {} && direction !in d.directions)
      || (d.frameFilters != {} && NameOf(f) !in d.frameFilters)
      || (d.streamFilter.Some? && f.header.streamID != 0 && f.header.streamID != d.streamFilter.value)
  {
  }

  /** Each kind of frame has its own name in the filters. */
  lemma NamesAreKinds(f: Frame)
    ensures NameOf(f).Data? <==> f.DataFrame?
    ensures NameOf(f).Headers? <==> f.HeadersFrame?
    ensures NameOf(f).Priority? <==> f.PriorityFrame?
    ensures NameOf(f).RstStream? <==> f.RSTStreamFrame?
    ensures NameOf(f).Settings? <==> f.SettingsFrame?
    ensures NameOf(f).PushPromise? <==> f.PushPromiseFrame?
    ensures NameOf(f).Ping? <==> f.PingFrame?
    ensures NameOf(f).GoAway? <==> f.GoAwayFrame?
    ensures NameOf(f).WindowUpdate? <==> f.WindowUpdateFrame?
    ensures NameOf(f).Continuation? <==> f.ContinuationFrame?
    ensures NameOf(f).Raw? <==> f.RawFrame?
  {
  }

  /** One line for each event that is not hidden, with its header fields if headers are decoded. */
  function LinesOf(d: Display, events: seq<FrameEvent>): seq<Line> {
    if events == [] then []
    else
      var e := events[|events| - 1];
      LinesOf(d, events[..|events| - 1])
        + if Shows(d, ReceivedSide, e.frame)
          then [FrameLine(d.format, d.dataLimit, ReceivedSide, e.frame, if d.decodeHeaders then e.headers else [])]
          else []
  }

  lemma {:induction false} RunShowsItsEvents(d: Display, c: Option<Capture>, events: seq<FrameEvent>)
    ensures var r := HandleAll(d, c, events);
      r.lines == LinesOf(d, if r.stoppedAt.None? then events else events[..r.stoppedAt.value])
  {
    hide CaptureEvent, Shows;
    if events != [] {
      var init := events[..|events| - 1];
      RunShowsItsEvents(d, c, init);
      var r := HandleAll(d, c, init);
      if r.stoppedAt.Some? { assert init[..r.stoppedAt.value] == events[..r.stoppedAt.value]; }
      assert r.lines + [] == r.lines;
    }
  }

  /**
    Two displays over the same capture reach the same capture and stop at the same event, whatever
    their filters, format and limits. Header decoding may differ too once something is captured.
   */
  lemma {:induction false} DisplayNeverInfluencesCapture(
    d1: Display, d2: Display, c: Option<Capture>, events: seq<FrameEvent>)
    requires c.Some? || d1.decodeHeaders == d2.decodeHeaders
    ensures var r1, r2 := HandleAll(d1, c, events), HandleAll(d2, c, events);
      r1.capture == r2.capture && r1.stoppedAt == r2.stoppedAt && r1.capture.Some? == c.Some?
  {
    hide CaptureEvent, Shows;
    if events != [] {
      DisplayNeverInfluencesCapture(d1, d2, c, events[..|events| - 1]);
    }
  }

  /** A captured run that did not stop saw no error, and its capture is the fold over all its events. */
  lemma {:induction false} UnstoppedCapture(d: Display, c: Capture, events: seq<FrameEvent>)
    ensures var r := HandleAll(d, Some(c), events);
      r.stoppedAt.None? ==>
        r.capture == Some(CaptureAll(c, events)) && forall i :: 0 <= i < |events| ==> events[i].error.None?
  {
    hide CaptureEvent, Shows;
    if events != [] {
      UnstoppedCapture(d, c, events[..|events| - 1]);
    }
  }
}
