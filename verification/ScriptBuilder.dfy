/**
  The frame builder of script_frame.go in its own order: fields are parsed one by one, and the header
  block is compressed in the middle, so that a later bad field comes too late to spare the compressor.
 */
module ScriptBuilder {
  import opened Results
  import opened Wire
  import opened Frames
  import opened Hpack
  import opened Clients
  import opened ScriptValues
  import opened ScriptFrames

  // ---------------------------------------------------------------- when the compressor is asked

  /** The fields handed to the compressor, if the builder gets that far. */
  function Compressed(text: Text, action: Table): Option<seq<HeaderField>> {
    var t :- ActionTypeOf(text, action);
    if t != HeadersAction && t != PushPromiseAction then None
    else
      var stream :- Require(Uint32Field(action, KStreamID));
      var promised :- if t == HeadersAction then Some(0) else Require(Uint32Field(action, KPromisedStreamID));
      var flags :- FlagsOf(text, if t == HeadersAction then HEADERS_FLAGS else PUSH_PROMISE_FLAGS, action);
      FieldsToCompress(text, action)
  }

  function FieldsToCompress(text: Text, action: Table): Option<seq<HeaderField>> {
    var plan :- PlanBlock(text, action);
    if plan.Compress? then Some(plan.fields) else None
  }

  function Answer(engine: Engine, ops: seq<EncoderOp>, asked: Option<seq<HeaderField>>): Option<bytes> {
    if asked.Some? then engine.encode(ops, asked.value) else None
  }

  function OpsAfter(ops: seq<EncoderOp>, asked: Option<seq<HeaderField>>): seq<EncoderOp> {
    if asked.Some? then ops + [Encode(asked.value)] else ops
  }

  function CodecAfterBuild(codec: CodecState, asked: Option<seq<HeaderField>>): CodecState {
    codec.(encoderOps := OpsAfter(codec.encoderOps, asked))
  }

  // ---------------------------------------------------------------- what asking means for the frame

  /** An action that does not reach the compressor builds the same frame whatever it would have answered. */
  lemma CompressorIsIgnored(text: Text, action: Table, answer1: Option<bytes>, answer2: Option<bytes>)
    requires Compressed(text, action).None?
    ensures BuildFrame(text, action, answer1) == BuildFrame(text, action, answer2)
  {
    hide FlagsOf, PriorityFields, Sized, HasFlag, HeaderList, Uint32Field, Uint8Field, ListField, StringField;
    hide BuildSettings, BuildContinuation, BuildData, BuildPing, BuildGoAway, BuildWindowUpdate, BuildRSTStream;
    hide BuildPriority, BuildRaw;
  }

  /** The fields that are looked at after the block has been compressed. */
  predicate LateFieldsOk(text: Text, action: Table) {
    && !Uint8Field(action, KPadLength).Wrong?
    && (ActionTypeOf(text, action) == Some(HeadersAction) ==>
          var flags := FlagsOf(text, HEADERS_FLAGS, action);
          flags.Some? && HasFlag(flags.value, FLAG_PRIORITY) ==> PriorityFields(action).Some?)
  }

  /**
    An action that reaches the compressor builds a frame if and only if the compressor answers and the
    fields after the block are good, and the answer is the frame's block. With a bad late field the
    compressor has moved on for a frame that is never sent.
   */
  lemma CompressedBlockIsSent(text: Text, action: Table, answer: Option<bytes>)
    requires Compressed(text, action).Some?
    ensures var f := BuildFrame(text, action, answer);
      && (f.Some? <==> answer.Some? && LateFieldsOk(text, action))
      && (f.Some? ==> (f.value.HeadersFrame? || f.value.PushPromiseFrame?) && Some(f.value.block) == answer)
  {
    hide FlagsOf, PriorityFields, HasFlag, HeaderList, Uint32Field, Uint8Field, ListField, StringField, Payload;
    hide ToUint32, BuildSettings, BuildContinuation, BuildData, BuildPing, BuildGoAway, BuildWindowUpdate;
    hide BuildRSTStream, BuildPriority, BuildRaw;
  }

  // ---------------------------------------------------------------- the builder

  method BuildHeaderBlock(h2c: Client, text: Text, action: Table) returns (block: Option<bytes>)
    requires h2c.Valid()
    modifies h2c.requestCodec
    ensures var asked := FieldsToCompress(text, action);
      && block == BlockOf(text, action, Answer(h2c.requestCodec.engine, old(h2c.requestCodec.encoderOps), asked))
      && h2c.requestCodec.State() == CodecAfterBuild(old(h2c.requestCodec.State()), asked)
  {
    hide HeaderList;
    var headers := ListField(action, KHeaders);
    if headers.Wrong? { return None; }
    var hex := StringField(action, KBlockHex);
    if hex.Wrong? { return None; }
    if headers.Present? == hex.Present? { return None; }
    if hex.Present? { return text.parseHex(hex.value); }
    var fields := ParseHeaderFields(text, headers.value);
    if fields.None? { return None; }
    block := h2c.EncodeHeaders(fields.value);
  }

  method BuildSettingsFrame(text: Text, action: Table) returns (r: Option<Frame>)
    ensures r == BuildSettings(text, action)
  {
    hide FlagsOf, SettingList, Payload;
    var entries := ListField(action, KSettings);
    if entries.Wrong? { return None; }
    var settings := ParseScriptSettings(text, if entries.Present? then entries.value else []);
    if settings.None? { return None; }
    var flags := ParseFlags(text, SETTINGS_FLAGS, action);
    if flags.None? { return None; }
    r := Some(Sized(SettingsFrame(Header(0, TYPE_SETTINGS, flags.value, 0), settings.value)));
  }

  method BuildHeadersFrame(h2c: Client, text: Text, action: Table) returns (r: Option<Frame>)
    requires h2c.Valid() && ActionTypeOf(text, action) == Some(HeadersAction)
    modifies h2c.requestCodec
    ensures var asked := Compressed(text, action);
      && r == BuildHeaders(text, action, Answer(h2c.requestCodec.engine, old(h2c.requestCodec.encoderOps), asked))
      && h2c.requestCodec.State() == CodecAfterBuild(old(h2c.requestCodec.State()), asked)
  {
    hide FlagsOf, BlockOf, FieldsToCompress, PriorityFields, HasFlag, Uint32Field, Uint8Field, Payload, ToUint32;
    hide Answer;
    var stream := Uint32Field(action, KStreamID);
    if !stream.Present? { return None; }
    var flags := ParseFlags(text, HEADERS_FLAGS, action);
    if flags.None? { return None; }
    var block := BuildHeaderBlock(h2c, text, action);
    if block.None? { return None; }
    var priority: Option<PriorityParam> := None;
    if HasFlag(flags.value, FLAG_PRIORITY) {
      priority := PriorityFields(action);
      if priority.None? { return None; }
    }
    var padLength: uint8 := 0;
    var pad := Uint8Field(action, KPadLength);
    if pad.Wrong? { return None; }
    if pad.Present? {
      padLength := pad.value;
    }
    var header := Header(0, TYPE_HEADERS, flags.value, stream.value);
    r := Some(Sized(HeadersFrame(header, padLength, priority, block.value)));
  }

  method BuildContinuationFrame(text: Text, action: Table) returns (r: Option<Frame>)
    ensures r == BuildContinuation(text, action)
  {
    hide FlagsOf, Payload, Uint32Field, StringField;
    var stream := Uint32Field(action, KStreamID);
    if !stream.Present? { return None; }
    var flags := ParseFlags(text, CONTINUATION_FLAGS, action);
    if flags.None? { return None; }
    var hex := StringField(action, KBlockHex);
    if !hex.Present? { return None; }
    var block := text.parseHex(hex.value);
    if block.None? { return None; }
    r := Some(Sized(ContinuationFrame(Header(0, TYPE_CONTINUATION, flags.value, stream.value), block.value)));
  }

  method BuildDataFrame(text: Text, action: Table) returns (r: Option<Frame>)
    ensures r == BuildData(text, action)
  {
    hide FlagsOf, DataFieldOf, Payload, Uint32Field, Uint8Field, ToUint32;
    var stream := Uint32Field(action, KStreamID);
    if !stream.Present? { return None; }
    var flags := ParseFlags(text, DATA_FLAGS, action);
    if flags.None? { return None; }
    var data := DataFieldOf(text, action, KData, KDataHex);
    if data.None? { return None; }
    var padLength := Uint8Field(action, KPadLength);
    if padLength.Wrong? { return None; }
    var header := Header(0, TYPE_DATA, flags.value, stream.value);
    if padLength.Present? {
      return Some(Sized(DataFrame(header, padLength.value, data.value)));
    }
    r := Some(Sized(DataFrame(header, 0, data.value)));
  }

  method BuildPushPromiseFrame(h2c: Client, text: Text, action: Table) returns (r: Option<Frame>)
    requires h2c.Valid() && ActionTypeOf(text, action) == Some(PushPromiseAction)
    modifies h2c.requestCodec
    ensures var asked := Compressed(text, action);
      && r == BuildPushPromise(text, action, Answer(h2c.requestCodec.engine, old(h2c.requestCodec.encoderOps), asked))
      && h2c.requestCodec.State() == CodecAfterBuild(old(h2c.requestCodec.State()), asked)
  {
    hide FlagsOf, BlockOf, FieldsToCompress, Uint32Field, Uint8Field, Payload, ToUint32, Answer;
    var stream := Uint32Field(action, KStreamID);
    if !stream.Present? { return None; }
    var promised := Uint32Field(action, KPromisedStreamID);
    if !promised.Present? { return None; }
    var flags := ParseFlags(text, PUSH_PROMISE_FLAGS, action);
    if flags.None? { return None; }
    var block := BuildHeaderBlock(h2c, text, action);
    if block.None? { return None; }
    var padLength: uint8 := 0;
    var pad := Uint8Field(action, KPadLength);
    if pad.Wrong? { return None; }
    if pad.Present? {
      padLength := pad.value;
    }
    var header := Header(0, TYPE_PUSH_PROMISE, flags.value, stream.value);
    r := Some(Sized(PushPromiseFrame(header, padLength, promised.value, block.value)));
  }

  method BuildScriptFrame(h2c: Client, text: Text, action: Table) returns (r: Option<Frame>)
    requires h2c.Valid()
    modifies h2c.requestCodec
    ensures var asked := Compressed(text, action);
      && r == BuildFrame(text, action, Answer(h2c.requestCodec.engine, old(h2c.requestCodec.encoderOps), asked))
      && h2c.requestCodec.State() == CodecAfterBuild(old(h2c.requestCodec.State()), asked)
  {
    hide BuildSettings, BuildHeaders, BuildContinuation, BuildData, BuildPing, BuildGoAway, BuildWindowUpdate;
    hide BuildRSTStream, BuildPriority, BuildPushPromise, BuildRaw, ActionTypeOf, Answer;
    hide FieldsToCompress, FlagsOf, Uint32Field;
    var t := ActionTypeOf(text, action);
    if t.None? { return None; }
    match t.value {
      case SettingsAction => r := BuildSettingsFrame(text, action);
      case HeadersAction => r := BuildHeadersFrame(h2c, text, action);
      case ContinuationAction => r := BuildContinuationFrame(text, action);
      case DataAction => r := BuildDataFrame(text, action);
      case PingAction => r := BuildPing(text, action);
      case GoAwayAction => r := BuildGoAway(text, action);
      case WindowUpdateAction => r := BuildWindowUpdate(action);
      case RSTStreamAction => r := BuildRSTStream(text, action);
      case PriorityAction => r := BuildPriority(action);
      case PushPromiseAction => r := BuildPushPromiseFrame(h2c, text, action);
      case RawAction => r := BuildRaw(text, action);
      case _ => r := None;
    }
  }
}
