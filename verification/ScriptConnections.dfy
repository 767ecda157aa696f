/** What the connection table of a script sets (script.go), and what its validation leaves open. */
module ScriptConnections {
  import opened Results
  import opened Wire
  import opened ScriptValues
  import opened ScriptSpecs

  datatype Config = Config(
    rawURL: string, scheme: string, host: string, authority: string, path: string, port: nat,
    insecure: bool, sendGoAway: bool, timeoutMS: nat, maxTable: nat)

  function OrKeep<T>(field: Field<T>, kept: T): Option<T> {
    Default(field, kept)
  }

  function InRange(field: Field<int64>, max: int64, kept: nat): Option<nat> {
    match field
    case Absent => Some(kept)
    case Wrong => None
    case Present(v) => if 0 <= v <= max then Some(v) else None
  }

  const MAX_INT64: int64 := 0x7fff_ffff_ffff_ffff

  function AppliedNames(cfg: Config, table: Table): Option<Config> {
    var rawURL :- OrKeep(StringField(table, KURL), cfg.rawURL);
    var scheme :- OrKeep(StringField(table, KScheme), cfg.scheme);
    var host :- OrKeep(StringField(table, KHost), cfg.host);
    var authority :- OrKeep(StringField(table, KAuthority), cfg.authority);
    var path :- OrKeep(StringField(table, KPath), cfg.path);
    Some(cfg.(rawURL := rawURL, scheme := scheme, host := host, authority := authority, path := path))
  }

  function AppliedLimits(cfg: Config, table: Table): Option<Config> {
    var port :- InRange(IntField(table, KPort), 65535, cfg.port);
    var insecure :- OrKeep(BoolField(table, KInsecure), cfg.insecure);
    var sendGoAway :- OrKeep(BoolField(table, KSendGoAway), cfg.sendGoAway);
    var timeoutMS :- InRange(IntField(table, KTimeoutMS), MAX_INT64, cfg.timeoutMS);
    var maxTable :- InRange(IntField(table, KMaxTableSize), MAX_INT64, cfg.maxTable);
    Some(cfg.(port := port, insecure := insecure, sendGoAway := sendGoAway,
              timeoutMS := timeoutMS, maxTable := maxTable))
  }

  function Applied(cfg: Config, table: Table): Option<Config> {
    var named :- AppliedNames(cfg, table);
    AppliedLimits(named, table)
  }

  method ApplyNames(initial: Config, table: Table) returns (r: Option<Config>)
    ensures r == AppliedNames(initial, table)
  {
    hide StringField;
    var cfg := initial;
    var url := StringField(table, KURL);
    if url.Wrong? { return None; }
    if url.Present? { cfg := cfg.(rawURL := url.value); }
    var scheme := StringField(table, KScheme);
    if scheme.Wrong? { return None; }
    if scheme.Present? { cfg := cfg.(scheme := scheme.value); }
    var host := StringField(table, KHost);
    if host.Wrong? { return None; }
    if host.Present? { cfg := cfg.(host := host.value); }
    var authority := StringField(table, KAuthority);
    if authority.Wrong? { return None; }
    if authority.Present? { cfg := cfg.(authority := authority.value); }
    var path := StringField(table, KPath);
    if path.Wrong? { return None; }
    if path.Present? { cfg := cfg.(path := path.value); }
    r := Some(cfg);
  }

  method CheckCount(table: Table, k: Key, max: int64, kept: nat) returns (r: Option<nat>)
    ensures r == InRange(IntField(table, k), max, kept)
  {
    var field := IntField(table, k);
    if field.Wrong? { return None; }
    if field.Absent? { return Some(kept); }
    if field.value < 0 || field.value > max { return None; }
    r := Some(field.value);
  }

  method ApplyLimits(initial: Config, table: Table) returns (r: Option<Config>)
    ensures r == AppliedLimits(initial, table)
  {
    hide BoolField, IntField, InRange;
    var cfg := initial;
    var port := CheckCount(table, KPort, 65535, cfg.port);
    if port.None? { return None; }
    cfg := cfg.(port := port.value);
    var insecure := BoolField(table, KInsecure);
    if insecure.Wrong? { return None; }
    if insecure.Present? { cfg := cfg.(insecure := insecure.value); }
    var sendGoAway := BoolField(table, KSendGoAway);
    if sendGoAway.Wrong? { return None; }
    if sendGoAway.Present? { cfg := cfg.(sendGoAway := sendGoAway.value); }
    var timeoutMS := CheckCount(table, KTimeoutMS, MAX_INT64, cfg.timeoutMS);
    if timeoutMS.None? { return None; }
    cfg := cfg.(timeoutMS := timeoutMS.value);
    var maxTable := CheckCount(table, KMaxTableSize, MAX_INT64, cfg.maxTable);
    if maxTable.None? { return None; }
    cfg := cfg.(maxTable := maxTable.value);
    r := Some(cfg);
  }

  method ApplyScriptConnection(initial: Config, table: Table) returns (r: Option<Config>)
    ensures r == Applied(initial, table)
  {
    hide AppliedNames, AppliedLimits;
    var named := ApplyNames(initial, table);
    if named.None? { return None; }
    r := ApplyLimits(named.value, table);
  }

  // ---------------------------------------------------------------- laws

  predicate Bounded(table: Table, k: Key, max: int) {
    k in table && table[k].Num? ==> 0 <= table[k].number <= max
  }

  predicate HasKind(table: Table, k: Key, kind: Kind) {
    k in table ==> table[k].Kind() == kind
  }

  lemma KindsAreRight(table: Table)
    requires ConnectionOk(table)
    ensures HasKind(table, KURL, StringKind) && HasKind(table, KScheme, StringKind) && HasKind(table, KHost, StringKind)
    ensures HasKind(table, KAuthority, StringKind) && HasKind(table, KPath, StringKind)
    ensures HasKind(table, KPort, NumberKind) && HasKind(table, KTimeoutMS, NumberKind)
    ensures HasKind(table, KMaxTableSize, NumberKind)
    ensures HasKind(table, KInsecure, BoolKind) && HasKind(table, KSendGoAway, BoolKind)
  {
  }

  lemma AcceptedNamesApply(cfg: Config, table: Table)
    requires ConnectionOk(table)
    ensures AppliedNames(cfg, table).Some?
  {
    KindsAreRight(table);
    hide ConnectionOk;
  }

  lemma AcceptedLimitsApply(cfg: Config, table: Table)
    requires ConnectionOk(table)
    ensures AppliedLimits(cfg, table).Some? <==>
      Bounded(table, KPort, 65535) && Bounded(table, KTimeoutMS, MAX_INT64) && Bounded(table, KMaxTableSize, MAX_INT64)
  {
    KindsAreRight(table);
    hide ConnectionOk;
  }

  /** An accepted connection table applies if and only if its numbers are in range. */
  lemma AcceptedConnectionApplies(cfg: Config, table: Table)
    requires ConnectionOk(table)
    ensures Applied(cfg, table).Some? <==>
      Bounded(table, KPort, 65535) && Bounded(table, KTimeoutMS, MAX_INT64) && Bounded(table, KMaxTableSize, MAX_INT64)
  {
    hide AppliedNames, AppliedLimits, ConnectionOk, Bounded;
    AcceptedNamesApply(cfg, table);
    AcceptedLimitsApply(AppliedNames(cfg, table).value, table);
  }

  predicate TellsString(table: Table, k: Key, kept: string, value: string) {
    if k in table then table[k] == Str(value) else value == kept
  }

  predicate TellsBool(table: Table, k: Key, kept: bool, value: bool) {
    if k in table then table[k] == Bool(value) else value == kept
  }

  predicate TellsCount(table: Table, k: Key, kept: nat, value: nat) {
    if k in table then table[k].Num? && table[k].number as int == value else value == kept
  }

  predicate NamesTold(cfg: Config, table: Table, c: Config) {
    && TellsString(table, KURL, cfg.rawURL, c.rawURL) && TellsString(table, KScheme, cfg.scheme, c.scheme)
    && TellsString(table, KHost, cfg.host, c.host) && TellsString(table, KAuthority, cfg.authority, c.authority)
    && TellsString(table, KPath, cfg.path, c.path)
  }

  predicate LimitsTold(cfg: Config, table: Table, c: Config) {
    && TellsCount(table, KPort, cfg.port, c.port)
    && TellsBool(table, KInsecure, cfg.insecure, c.insecure)
    && TellsBool(table, KSendGoAway, cfg.sendGoAway, c.sendGoAway)
    && TellsCount(table, KTimeoutMS, cfg.timeoutMS, c.timeoutMS)
    && TellsCount(table, KMaxTableSize, cfg.maxTable, c.maxTable)
  }

  lemma NamesAreTold(cfg: Config, table: Table)
    requires AppliedNames(cfg, table).Some?
    ensures NamesTold(cfg, table, AppliedNames(cfg, table).value)
  {
  }

  lemma LimitsAreTold(cfg: Config, table: Table)
    requires AppliedLimits(cfg, table).Some?
    ensures LimitsTold(cfg, table, AppliedLimits(cfg, table).value)
  {
  }

  lemma HalvesAreApart(cfg: Config, table: Table)
    ensures AppliedNames(cfg, table).Some? ==>
      var c := AppliedNames(cfg, table).value;
      && c.port == cfg.port && c.insecure == cfg.insecure && c.sendGoAway == cfg.sendGoAway
      && c.timeoutMS == cfg.timeoutMS && c.maxTable == cfg.maxTable
    ensures AppliedLimits(cfg, table).Some? ==>
      var c := AppliedLimits(cfg, table).value;
      && c.rawURL == cfg.rawURL && c.scheme == cfg.scheme && c.host == cfg.host
      && c.authority == cfg.authority && c.path == cfg.path
  {
    hide StringField, BoolField, IntField, InRange;
  }

  /** Each setting is the table's, or the one from before. */
  lemma AppliedIsTold(cfg: Config, table: Table)
    requires Applied(cfg, table).Some?
    ensures NamesTold(cfg, table, Applied(cfg, table).value) && LimitsTold(cfg, table, Applied(cfg, table).value)
  {
    hide AppliedNames, AppliedLimits, TellsString, TellsBool, TellsCount;
    var named := AppliedNames(cfg, table).value;
    NamesAreTold(cfg, table);
    LimitsAreTold(named, table);
    HalvesAreApart(cfg, table);
    HalvesAreApart(named, table);
  }

  lemma CountElsewhere(table: Table, k: Key, j: Key, max: int64, kept: nat)
    requires k in table && (k == j ==> !table[k].Num?)
    ensures InRange(IntField(table, j), max, kept).Some? ==>
      InRange(IntField(table - {k}, j), max, kept) == InRange(IntField(table, j), max, kept)
  {
  }

  lemma StringElsewhere(table: Table, k: Key, j: Key)
    requires k in table && (k == j ==> !table[k].Str?) && !StringField(table, j).Wrong?
    ensures StringField(table - {k}, j) == StringField(table, j)
  {
  }

  lemma BoolElsewhere(table: Table, k: Key, j: Key)
    requires k in table && (k == j ==> !table[k].Bool?) && !BoolField(table, j).Wrong?
    ensures BoolField(table - {k}, j) == BoolField(table, j)
  {
  }

  lemma NamesElsewhere(cfg: Config, table: Table, k: Key)
    requires AppliedNames(cfg, table).Some? && k in table && ConnectionKind(k) != Some(table[k].Kind())
    ensures AppliedNames(cfg, table - {k}) == AppliedNames(cfg, table)
  {
    hide StringField;
    StringElsewhere(table, k, KURL);
    StringElsewhere(table, k, KScheme);
    StringElsewhere(table, k, KHost);
    StringElsewhere(table, k, KAuthority);
    StringElsewhere(table, k, KPath);
  }

  lemma LimitsElsewhere(cfg: Config, table: Table, k: Key)
    requires AppliedLimits(cfg, table).Some? && k in table && ConnectionKind(k) != Some(table[k].Kind())
    ensures AppliedLimits(cfg, table - {k}) == AppliedLimits(cfg, table)
  {
    hide BoolField, IntField, InRange;
    CountElsewhere(table, k, KPort, 65535, cfg.port);
    CountElsewhere(table, k, KTimeoutMS, MAX_INT64, cfg.timeoutMS);
    CountElsewhere(table, k, KMaxTableSize, MAX_INT64, cfg.maxTable);
    BoolElsewhere(table, k, KInsecure);
    BoolElsewhere(table, k, KSendGoAway);
  }

  /** Where a connection table applies, an entry the validator would refuse is one that sets nothing. */
  lemma RefusedEntriesSetNothing(cfg: Config, table: Table, k: Key)
    requires Applied(cfg, table).Some? && k in table && ConnectionKind(k) != Some(table[k].Kind())
    ensures Applied(cfg, table - {k}) == Applied(cfg, table)
  {
    hide AppliedNames, AppliedLimits, ConnectionKind;
    NamesElsewhere(cfg, table, k);
    LimitsElsewhere(AppliedNames(cfg, table).value, table, k);
  }
}
