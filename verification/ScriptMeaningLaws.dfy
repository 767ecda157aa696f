/** The program's accessors and loops read a table as `ScriptMeaning` tells it. */
module ScriptMeaningLaws {
  import opened Results
  import opened Wire
  import opened Frames
  import opened ScriptValues
  import opened ScriptFrames
  import opened ScriptBuilder
  import opened ScriptMeaning

  // ---------------------------------------------------------------- flags

  lemma {:induction false} OrHasBit(a: nat, b: nat, bound: nat, mask: uint8)
    requires AllOnes(bound) && a <= bound && b <= bound && bound <= 0xff
    ensures HasFlag(Or(a, b, bound), mask) <==> HasFlag(a, mask) || HasFlag(b, mask)
    decreases mask
  {
    if mask > 1 {
      if bound > 0 {
        OrHasBit(a / 2, b / 2, bound / 2, mask / 2);
      } else {
        ZeroHasNoBit(mask);
      }
    }
  }

  lemma {:induction false} ZeroHasNoBit(mask: uint8)
    ensures !HasFlag(0, mask)
  {
    if mask > 1 { ZeroHasNoBit(mask / 2); }
  }

  lemma JoinHasBit(a: uint8, b: uint8, mask: uint8)
    ensures HasFlag(BitOr(a, b), mask) <==> HasFlag(a, mask) || HasFlag(b, mask)
  {
    assert AllOnes(0x7f);
    OrHasBit(a, b, 0xff, mask);
  }

  lemma EntryIsRead(text: Text, t: ActionType, names: FlagNames, raw: string)
    requires names == NamesOf(t)
    ensures FlagByte(text, names, raw) == EntryBits(text, t, raw)
  {
  }

  /** The joined byte has a bit if and only if some listed entry has it. */
  lemma {:induction false} JoinedBitsAreListed(
    text: Text, t: ActionType, names: FlagNames, raws: seq<string>, mask: uint8)
    requires names == NamesOf(t) && JoinFlags(text, names, raws).Some?
    ensures forall i :: 0 <= i < |raws| ==> EntryBits(text, t, raws[i]).Some?
    ensures HasFlag(JoinFlags(text, names, raws).value, mask) <==> Lists(text, t, raws, mask)
  {
    hide HasFlag, BitOr, NamesOf, EntryBits, FlagByte;
    if raws == [] {
      ZeroHasNoBit(mask);
    } else {
      var n := |raws| - 1;
      var init, last := raws[..n], raws[n];
      EntryIsRead(text, t, names, last);
      JoinedBitsAreListed(text, t, names, init, mask);
      JoinHasBit(JoinFlags(text, names, init).value, FlagByte(text, names, last).value, mask);
      assert forall i :: 0 <= i < n ==> init[i] == raws[i];
    }
  }

  lemma FlagsAreTold(text: Text, t: ActionType, names: FlagNames, action: Table, flags: uint8)
    requires names == NamesOf(t) && FlagsOf(text, names, action) == Some(flags)
    ensures TellsFlags(text, t, action, flags)
  {
    hide HasFlag, NamesOf, EntryBits, JoinFlags, Lists;
    var raws := if KFlags in action then action[KFlags].list else [];
    JoinedBitsAreListed(text, t, names, raws, 1);
    forall mask: uint8 | OneBit(mask) ensures HasFlag(flags, mask) <==> Lists(text, t, raws, mask) {
      JoinedBitsAreListed(text, t, names, raws, mask);
    }
  }

  lemma NamesAreKnown()
    ensures SETTINGS_FLAGS == NamesOf(SettingsAction) && HEADERS_FLAGS == NamesOf(HeadersAction)
    ensures CONTINUATION_FLAGS == NamesOf(ContinuationAction) && DATA_FLAGS == NamesOf(DataAction)
    ensures PING_FLAGS == NamesOf(PingAction) && PUSH_PROMISE_FLAGS == NamesOf(PushPromiseAction)
  {
  }

  // ---------------------------------------------------------------- single fields

  lemma NumberIsTold(action: Table, key: Key)
    ensures Uint32Field(action, key).Present? <==>
      key in action && action[key].Num? && 0 <= action[key].number < 0x1_0000_0000
    ensures Uint8Field(action, key).Present? <==>
      key in action && action[key].Num? && 0 <= action[key].number < 0x100
    ensures Uint32Field(action, key).Present? ==> action[key] == Num(Uint32Field(action, key).value)
    ensures Uint8Field(action, key).Present? ==> action[key] == Num(Uint8Field(action, key).value)
    ensures Uint32Field(action, key).Absent? <==> key !in action
    ensures Uint8Field(action, key).Absent? <==> key !in action
  {
  }

  lemma HexIsTold(text: Text, action: Table, key: Key, octets: bytes)
    requires StringField(action, key).Present? && text.parseHex(StringField(action, key).value) == Some(octets)
    ensures TellsHex(text, action, key, octets)
  {
  }

  lemma OctetsAreTold(text: Text, action: Table, plain: Key, hex: Key, octets: bytes)
    requires DataFieldOf(text, action, plain, hex) == Some(octets)
    ensures TellsOctets(text, action, plain, hex, octets)
  {
  }

  lemma PingIsTold(text: Text, action: Table, data: PingData)
    requires PingOctets(text, action) == Some(data)
    ensures TellsOneOf(text, action, KData, KDataHex, data)
  {
  }

  lemma ErrorCodeIsTold(text: Text, action: Table, code: uint32)
    requires ErrorCodeOf(text, action) == Some(code)
    ensures TellsErrorCode(text, action, code)
  {
  }

  lemma {:induction false} SettingsAreListed(text: Text, entries: seq<string>)
    requires SettingList(text, entries).Some?
    ensures var settings := SettingList(text, entries).value;
      |settings| == |entries| && forall i :: 0 <= i < |entries| ==> text.parseSetting(entries[i]) == Some(settings[i])
  {
    if entries != [] {
      SettingsAreListed(text, entries[..|entries| - 1]);
    }
  }

  lemma {:induction false} HeadersAreListed(text: Text, raws: seq<string>)
    requires HeaderList(text, raws).Some?
    ensures var fields := HeaderList(text, raws).value;
      |fields| == |raws| && forall i :: 0 <= i < |raws| ==> text.parseHeader(raws[i]) == Some(fields[i])
  {
    if raws != [] {
      HeadersAreListed(text, raws[..|raws| - 1]);
    }
  }

  lemma SettingsAreTold(text: Text, action: Table, settings: seq<Setting>)
    requires var entries := Default(ListField(action, KSettings), []);
      entries.Some? && SettingList(text, entries.value) == Some(settings)
    ensures TellsSettings(text, action, settings)
  {
    SettingsAreListed(text, Default(ListField(action, KSettings), []).value);
    hide SettingList;
  }

  lemma BlockIsTold(text: Text, action: Table, answer: Option<bytes>, block: bytes)
    requires BlockOf(text, action, answer) == Some(block)
    ensures TellsBlock(text, action, answer, block)
  {
    hide HeaderList;
    if KHeaders in action && action[KHeaders].StrList? && KBlockHex !in action {
      HeadersAreListed(text, action[KHeaders].list);
    }
  }

  /** What is handed to the compressor: the listed fields, in order. */
  lemma CompressedFieldsAreListed(text: Text, action: Table)
    requires Compressed(text, action).Some?
    ensures var fields := Compressed(text, action).value;
      && KHeaders in action && action[KHeaders].StrList? && KBlockHex !in action
      && |fields| == |action[KHeaders].list|
      && forall i :: 0 <= i < |fields| ==> text.parseHeader(action[KHeaders].list[i]) == Some(fields[i])
  {
    hide HeaderList, FlagsOf, Uint32Field, ActionTypeOf;
    HeadersAreListed(text, action[KHeaders].list);
  }
}
