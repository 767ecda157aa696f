/**
  What a script table means, told from its entries and the numbers of RFC 9113 alone: no accessor and no
  builder of the program is used here. `Says` relates a table to the frame its reader should see.
 */
module ScriptMeaning {
  import opened Results
  import opened Wire
  import opened Frames
  import opened ScriptValues

  // ---------------------------------------------------------------- flags

  predicate OneBit(mask: uint8) {
    || mask == 0x1 || mask == 0x2 || mask == 0x4 || mask == 0x8
    || mask == 0x10 || mask == 0x20 || mask == 0x40 || mask == 0x80
  }

  /** The names an action type knows, with their bits. */
  function NamesOf(t: ActionType): map<string, uint8> {
    match t
    case SettingsAction => map["ACK" := 0x1]
    case PingAction => map["ACK" := 0x1]
    case HeadersAction => map["END_STREAM" := 0x1, "END_HEADERS" := 0x4, "PADDED" := 0x8, "PRIORITY" := 0x20]
    case ContinuationAction => map["END_HEADERS" := 0x4]
    case DataAction => map["END_STREAM" := 0x1, "PADDED" := 0x8]
    case PushPromiseAction => map["END_HEADERS" := 0x4, "PADDED" := 0x8]
    case _ => map[]
  }

  /** A flag is listed by its name or as a number. */
  function EntryBits(text: Text, t: ActionType, raw: string): Option<uint8> {
    var name := text.flagName(raw);
    if name in NamesOf(t) then Some(NamesOf(t)[name]) else text.parseUint8(name)
  }

  predicate Lists(text: Text, t: ActionType, raws: seq<string>, mask: uint8) {
    exists i :: 0 <= i < |raws| && EntryBits(text, t, raws[i]).Some? && HasFlag(EntryBits(text, t, raws[i]).value, mask)
  }

  /** A bit is set if and only if some entry of the list has it. */
  predicate TellsFlags(text: Text, t: ActionType, action: Table, flags: uint8) {
    && (KFlags in action ==> action[KFlags].StrList?)
    && var raws := if KFlags in action then action[KFlags].list else [];
    && (forall i :: 0 <= i < |raws| ==> EntryBits(text, t, raws[i]).Some?)
    && forall mask: uint8 :: OneBit(mask) ==> (HasFlag(flags, mask) <==> Lists(text, t, raws, mask))
  }

  // ---------------------------------------------------------------- single fields

  predicate TellsNumber(action: Table, key: Key, n: int64) {
    key in action && action[key] == Num(n)
  }

  /** Ids are numbers of 32 bits, of which the wire carries 31. */
  predicate TellsId(action: Table, key: Key, id: uint32) {
    && key in action && action[key].Num?
    && 0 <= action[key].number < 0x1_0000_0000
    && id as int == action[key].number % 0x8000_0000
  }

  /** The pad length arrives exactly if the flags say there is one. */
  predicate TellsPad(action: Table, flags: uint8, pad: uint8) {
    if KPadLength in action then
      && action[KPadLength].Num? && 0 <= action[KPadLength].number < 0x100
      && pad as int == if HasFlag(flags, 0x8) then action[KPadLength].number else 0
    else pad == 0
  }

  predicate TellsPriority(action: Table, p: PriorityParam) {
    && TellsId(action, KStreamDep, p.streamDep)
    && TellsNumber(action, KWeight, p.weight)
    && (if KExclusive in action then action[KExclusive] == Bool(p.exclusive) else !p.exclusive)
  }

  predicate TellsHex(text: Text, action: Table, key: Key, octets: bytes) {
    key in action && action[key].Str? && text.parseHex(action[key].str) == Some(octets)
  }

  predicate TellsPlain(text: Text, action: Table, key: Key, octets: bytes) {
    key in action && action[key].Str? && text.toOctets(action[key].str) == octets
  }

  /** Exactly one of the two fields is there and gives the octets. */
  predicate TellsOneOf(text: Text, action: Table, plain: Key, hex: Key, octets: bytes) {
    if plain in action then hex !in action && TellsPlain(text, action, plain, octets)
    else TellsHex(text, action, hex, octets)
  }

  predicate TellsOctets(text: Text, action: Table, plain: Key, hex: Key, octets: bytes) {
    if plain !in action && hex !in action then octets == [] else TellsOneOf(text, action, plain, hex, octets)
  }

  predicate TellsErrorCode(text: Text, action: Table, code: uint32) {
    if KErrorCode in action
    then action[KErrorCode].Str? && text.parseErrorCode(action[KErrorCode].str) == Some(code)
    else code == 0
  }

  predicate TellsSettings(text: Text, action: Table, settings: seq<Setting>) {
    if KSettings in action then
      && action[KSettings].StrList? && |settings| == |action[KSettings].list|
      && forall i :: 0 <= i < |settings| ==> text.parseSetting(action[KSettings].list[i]) == Some(settings[i])
    else settings == []
  }

  /** Octets given in hex, or what the compressor answered to the listed fields. */
  predicate TellsBlock(text: Text, action: Table, answer: Option<bytes>, block: bytes) {
    if KBlockHex in action then KHeaders !in action && TellsHex(text, action, KBlockHex, block)
    else
      && KHeaders in action && action[KHeaders].StrList?
      && (forall i :: 0 <= i < |action[KHeaders].list| ==> text.parseHeader(action[KHeaders].list[i]).Some?)
      && answer == Some(block)
  }

  // ---------------------------------------------------------------- whole tables

  predicate OnNoStream(t: ActionType) {
    t.SettingsAction? || t.PingAction? || t.GoAwayAction?
  }

  /** Every field of the frame `f` that a peer reads, in terms of the table that was sent. */
  predicate Says(text: Text, t: ActionType, action: Table, answer: Option<bytes>, f: Frame) {
    var flags := f.header.flags;
    && (if OnNoStream(t) then f.header.streamID == 0 else TellsId(action, KStreamID, f.header.streamID))
    && match t
       case SettingsAction =>
         f.SettingsFrame? && TellsFlags(text, t, action, flags) && TellsSettings(text, action, f.settings)
       case HeadersAction =>
         && f.HeadersFrame? && TellsFlags(text, t, action, flags)
         && TellsBlock(text, action, answer, f.block) && TellsPad(action, flags, f.padLength)
         && (f.priority.Some? <==> HasFlag(flags, 0x20))
         && (f.priority.Some? ==> TellsPriority(action, f.priority.value))
       case ContinuationAction =>
         f.ContinuationFrame? && TellsFlags(text, t, action, flags) && TellsHex(text, action, KBlockHex, f.block)
       case DataAction =>
         && f.DataFrame? && TellsFlags(text, t, action, flags)
         && TellsOctets(text, action, KData, KDataHex, f.data) && TellsPad(action, flags, f.padLength)
       case PingAction =>
         && f.PingFrame? && TellsFlags(text, t, action, flags)
         && TellsOneOf(text, action, KData, KDataHex, f.pingData)
       case GoAwayAction =>
         && f.GoAwayFrame? && flags == 0 && TellsId(action, KLastStreamID, f.lastStreamID)
         && TellsErrorCode(text, action, f.errorCode)
         && TellsOctets(text, action, KDebugData, KDebugHex, f.debugData)
       case WindowUpdateAction => f.WindowUpdateFrame? && flags == 0 && TellsId(action, KIncrement, f.increment)
       case RSTStreamAction => f.RSTStreamFrame? && flags == 0 && TellsErrorCode(text, action, f.errorCode)
       case PriorityAction => f.PriorityFrame? && flags == 0 && TellsPriority(action, f.param)
       case PushPromiseAction =>
         && f.PushPromiseFrame? && TellsFlags(text, t, action, flags)
         && TellsId(action, KPromisedStreamID, f.promisedStreamID)
         && TellsBlock(text, action, answer, f.block) && TellsPad(action, flags, f.padLength)
       case RawAction =>
         && f.RawFrame? && TellsNumber(action, KFrameType, f.header.typ) && TellsNumber(action, KFlags, flags)
         && TellsHex(text, action, KPayloadHex, f.payload)
       case _ => false
  }
}
