/**
  Script tables and their typed accessors (script_value.go). The field names a script may use are
  constructors of `Key`; any other name is an `OtherKey`.
 */
module ScriptValues {
  import opened Results
  import opened Wire
  import opened Frames
  import opened Hpack
  import opened Sessions

  datatype Key =
    | KType | KRepeat | KStreamIDStep | KDurationMS | KSettings | KFlags | KStreamID | KHeaders | KBlockHex
    | KStreamDep | KWeight | KExclusive | KPadLength | KData | KDataHex | KLastStreamID | KErrorCode
    | KDebugData | KDebugHex | KIncrement | KPromisedStreamID | KFrameType | KLength | KPayloadHex
    | KCount | KUntil | KAckSettings | KAckPing
    | KURL | KScheme | KHost | KAuthority | KPath | KPort | KInsecure | KSendGoAway | KTimeoutMS | KMaxTableSize
    | OtherKey(name: string)

  datatype Kind = StringKind | NumberKind | BoolKind | ListKind

  datatype Value = Str(str: string) | Num(number: int64) | Bool(boolean: bool) | StrList(list: seq<string>) {
    function Kind(): Kind {
      match this
      case Str(_) => StringKind
      case Num(_) => NumberKind
      case Bool(_) => BoolKind
      case StrList(_) => ListKind
    }
  }

  type Table = map<Key, Value>

  /** A parsed script file. */
  datatype Script = Script(connection: Table, actions: seq<Table>)

  datatype ActionType =
    | Preface | Sleep | SettingsAction | HeadersAction | ContinuationAction | DataAction | PingAction
    | GoAwayAction | WindowUpdateAction | RSTStreamAction | PriorityAction | PushPromiseAction | RawAction
    | ReceiveAction | UnknownAction

  /** The parsers of single strings, which validator and builder share. */
  datatype Text = Text(
    actionOf: string -> ActionType,
    untilOf: string -> Until,
    flagName: string -> string,
    parseUint8: string -> Option<uint8>,
    parseSetting: string -> Option<Setting>,
    parseErrorCode: string -> Option<uint32>,
    parseHex: string -> Option<bytes>,
    parseHeader: string -> Option<HeaderField>,
    toOctets: string -> bytes)

  /** A lookup finds nothing, a value of the right kind, or a value of another kind. */
  datatype Field<+T> = Absent | Present(value: T) | Wrong

  function StringField(t: Table, k: Key): Field<string> {
    if k !in t then Absent else if t[k].Str? then Present(t[k].str) else Wrong
  }

  function ListField(t: Table, k: Key): Field<seq<string>> {
    if k !in t then Absent else if t[k].StrList? then Present(t[k].list) else Wrong
  }

  function BoolField(t: Table, k: Key): Field<bool> {
    if k !in t then Absent else if t[k].Bool? then Present(t[k].boolean) else Wrong
  }

  function IntField(t: Table, k: Key): Field<int64> {
    if k !in t then Absent else if t[k].Num? then Present(t[k].number) else Wrong
  }

  function Uint32Field(t: Table, k: Key): Field<uint32> {
    match IntField(t, k)
    case Absent => Absent
    case Wrong => Wrong
    case Present(v) => if 0 <= v <= MAX_UINT32 then Present(v) else Wrong
  }

  function Uint8Field(t: Table, k: Key): Field<uint8> {
    match IntField(t, k)
    case Absent => Absent
    case Wrong => Wrong
    case Present(v) => if 0 <= v <= 0xff then Present(v) else Wrong
  }

  function Require<T>(f: Field<T>): Option<T> {
    if f.Present? then Some(f.value) else None
  }

  function Default<T>(f: Field<T>, otherwise: T): Option<T> {
    match f
    case Absent => Some(otherwise)
    case Present(v) => Some(v)
    case Wrong => None
  }
}
