/**
  The codec wrapper of package hpack. Compression itself is a parameter: an `Engine` answers from
  the whole history of operations it was given, which is all a deterministic coder can depend on.
 */
module Hpack {
  import opened Results
  import opened Wire

  const INITIAL_HEADER_TABLE_SIZE: uint32 := 4096

  datatype HeaderField = HeaderField(name: string, value: string)

  datatype DecoderOp = AllowMax(limit: uint32) | SetMax(size: uint32) | Decode(block: bytes)

  datatype EncoderOp = SetLimit(limit: uint32) | SetSize(size: uint32) | Encode(fields: seq<HeaderField>)

  datatype Engine = Engine(
    decode: (seq<DecoderOp>, bytes) -> Option<seq<HeaderField>>,
    encode: (seq<EncoderOp>, seq<HeaderField>) -> Option<bytes>)

  datatype CodecState = CodecState(maxSize: uint32, encoderOps: seq<EncoderOp>, decoderOps: seq<DecoderOp>) {

    function WithMaxTableSize(v: uint32): CodecState {
      CodecState(v, encoderOps + [SetLimit(v), SetSize(v)], decoderOps + [AllowMax(v), SetMax(v)])
    }

    function WithAllowedMax(v: uint32): CodecState {
      this.(decoderOps := decoderOps + [AllowMax(v)])
    }

    function AfterDecode(block: bytes): CodecState {
      this.(decoderOps := decoderOps + [Decode(block)])
    }
  }

  function FreshCodec(encoderMax: uint32, decoderMax: uint32, allowedMax: uint32): CodecState {
    CodecState(encoderMax, [SetLimit(encoderMax), SetSize(encoderMax)], [AllowMax(allowedMax), SetMax(decoderMax)])
  }

  /** The limit the decoder holds its peer to: the last one allowed. */
  function AllowedLimit(ops: seq<DecoderOp>): Option<uint32> {
    if ops == [] then None
    else match ops[|ops| - 1]
      case AllowMax(v) => Some(v)
      case _ => AllowedLimit(ops[..|ops| - 1])
  }

  /** The table size a decoder works with: the last one set. */
  function DecoderSize(ops: seq<DecoderOp>): Option<uint32> {
    if ops == [] then None
    else match ops[|ops| - 1]
      case SetMax(v) => Some(v)
      case _ => DecoderSize(ops[..|ops| - 1])
  }

  /** The table size an encoder may use at most, and the one it uses. */
  function EncoderLimit(ops: seq<EncoderOp>): Option<uint32> {
    if ops == [] then None
    else match ops[|ops| - 1]
      case SetLimit(v) => Some(v)
      case _ => EncoderLimit(ops[..|ops| - 1])
  }

  function EncoderSize(ops: seq<EncoderOp>): Option<uint32> {
    if ops == [] then None
    else match ops[|ops| - 1]
      case SetSize(v) => Some(v)
      case _ => EncoderSize(ops[..|ops| - 1])
  }

  /** The header blocks a decoder was given, in order. */
  function Decoded(ops: seq<DecoderOp>): seq<bytes> {
    if ops == [] then []
    else match ops[|ops| - 1]
      case Decode(b) => Decoded(ops[..|ops| - 1]) + [b]
      case _ => Decoded(ops[..|ops| - 1])
  }

  lemma OpsSnoc(ops: seq<DecoderOp>, op: DecoderOp)
    ensures AllowedLimit(ops + [op]) == if op.AllowMax? then Some(op.limit) else AllowedLimit(ops)
    ensures Decoded(ops + [op]) == Decoded(ops) + if op.Decode? then [op.block] else []
    ensures DecoderSize(ops + [op]) == if op.SetMax? then Some(op.size) else DecoderSize(ops)
  {
    assert (ops + [op])[..|ops|] == ops;
  }

  lemma EncoderOpsSnoc(ops: seq<EncoderOp>, op: EncoderOp)
    ensures EncoderLimit(ops + [op]) == if op.SetLimit? then Some(op.limit) else EncoderLimit(ops)
    ensures EncoderSize(ops + [op]) == if op.SetSize? then Some(op.size) else EncoderSize(ops)
  {
    assert (ops + [op])[..|ops|] == ops;
  }

  /** All sizes of a codec: its encoder's limit and size, what its decoder is allowed, and what it uses. */
  datatype Sizes = Sizes(limit: Option<uint32>, size: Option<uint32>, allowed: Option<uint32>, used: Option<uint32>)

  function SizesOf(codec: CodecState): Sizes {
    Sizes(EncoderLimit(codec.encoderOps), EncoderSize(codec.encoderOps),
          AllowedLimit(codec.decoderOps), DecoderSize(codec.decoderOps))
  }

  function AllOf(v: uint32): Sizes {
    Sizes(Some(v), Some(v), Some(v), Some(v))
  }

  lemma FreshSizes(encoderMax: uint32, decoderMax: uint32, allowedMax: uint32)
    ensures SizesOf(FreshCodec(encoderMax, decoderMax, allowedMax))
         == Sizes(Some(encoderMax), Some(encoderMax), Some(allowedMax), Some(decoderMax))
  {
    EncoderOpsSnoc([SetLimit(encoderMax)], SetSize(encoderMax));
    EncoderOpsSnoc([], SetLimit(encoderMax));
    OpsSnoc([AllowMax(allowedMax)], SetMax(decoderMax));
    OpsSnoc([], AllowMax(allowedMax));
    assert [] + [SetLimit(encoderMax)] == [SetLimit(encoderMax)];
    assert [] + [AllowMax(allowedMax)] == [AllowMax(allowedMax)];
    assert [SetLimit(encoderMax)] + [SetSize(encoderMax)] == [SetLimit(encoderMax), SetSize(encoderMax)];
    assert [AllowMax(allowedMax)] + [SetMax(decoderMax)] == [AllowMax(allowedMax), SetMax(decoderMax)];
  }

  /** Setting the table size sets all four. */
  lemma MaxTableSizes(codec: CodecState, v: uint32)
    ensures SizesOf(codec.WithMaxTableSize(v)) == AllOf(v)
  {
    EncoderOpsSnoc(codec.encoderOps + [SetLimit(v)], SetSize(v));
    EncoderOpsSnoc(codec.encoderOps, SetLimit(v));
    OpsSnoc(codec.decoderOps + [AllowMax(v)], SetMax(v));
    OpsSnoc(codec.decoderOps, AllowMax(v));
    assert codec.encoderOps + [SetLimit(v)] + [SetSize(v)] == codec.encoderOps + [SetLimit(v), SetSize(v)];
    assert codec.decoderOps + [AllowMax(v)] + [SetMax(v)] == codec.decoderOps + [AllowMax(v), SetMax(v)];
  }

  class Codec {
    const engine: Engine
    var maxSize: uint32
    var encoderOps: seq<EncoderOp>
    var decoderOps: seq<DecoderOp>

    ghost function State(): CodecState
      reads this
    {
      CodecState(maxSize, encoderOps, decoderOps)
    }

    constructor (engine: Engine, encoderMax: uint32, decoderMax: uint32, allowedMax: uint32)
      ensures this.engine == engine
      ensures State() == FreshCodec(encoderMax, decoderMax, allowedMax)
    {
      this.engine := engine;
      maxSize := encoderMax;
      encoderOps := [SetLimit(encoderMax), SetSize(encoderMax)];
      decoderOps := [AllowMax(allowedMax), SetMax(decoderMax)];
    }

    method SetMaxDynamicTableSize(v: uint32)
      modifies this
      ensures State() == old(State()).WithMaxTableSize(v)
    {
      maxSize := v;
      encoderOps := encoderOps + [SetLimit(v), SetSize(v)];
      decoderOps := decoderOps + [AllowMax(v), SetMax(v)];
    }

    method SetDecoderAllowedMaxDynamicTableSize(v: uint32)
      modifies this
      ensures State() == old(State()).WithAllowedMax(v)
    {
      decoderOps := decoderOps + [AllowMax(v)];
    }

    method EncodeFields(fields: seq<HeaderField>) returns (block: Option<bytes>)
      modifies this
      ensures block == engine.encode(old(encoderOps), fields)
      ensures State() == old(State()).(encoderOps := old(encoderOps) + [Encode(fields)])
    {
      block := engine.encode(encoderOps, fields);
      encoderOps := encoderOps + [Encode(fields)];
    }

    method DecodeDetailed(block: bytes) returns (fields: Option<seq<HeaderField>>)
      modifies this
      ensures fields == engine.decode(old(decoderOps), block)
      ensures State() == old(State()).AfterDecode(block)
    {
      fields := engine.decode(decoderOps, block);
      decoderOps := decoderOps + [Decode(block)];
    }
  }
}
