/**
 * What every setting of a section reads as, with or without saving, when the
 * section already holds some settings and lacks others: a setting the
 * section holds gives its stored value; one it lacks gives the starting
 * value, which a saving read writes back in stored form.  Writing one
 * setting back never disturbs another, so each is stated against the store
 * the read starts from.
 */
module Fields {
  import opened ConfigStore
  import opened Settings
  import opened Materials
  import opened BlockTables
  import opened Records
  import opened Resolution
  import opened Persistence
  import opened WorldTypes

  /** A boolean setting: as stored when the path is present, the starting value otherwise. */
  predicate BoolField(entries: Store, path: string, d: Option<bool>, v: Option<bool>)
  {
    && (Present(entries, path) ==> v == Some(BoolAt(entries, path)))
    && (!Present(entries, path) ==> v == d)
  }

  /** An integer setting: the stored value clamped to the range when the path is present, the starting value
      clamped otherwise. */
  predicate IntField(entries: Store, path: string, d: Option<int>, min: int, max: int, v: Option<int>)
  {
    && (Present(entries, path) ==> v == Some(Clamp(IntAt(entries, path), min, max)))
    && (!Present(entries, path) ==> v == (if d.Some? then Some(Clamp(d.value, min, max)) else None))
  }

  /** A material setting: the id the stored name resolves to when the path is present, the starting id
      otherwise. */
  predicate IdField(codec: MaterialCodec, entries: Store, path: string, d: Option<int>, v: Option<int>)
  {
    && (Present(entries, path) ==> v == codec.idOf(Get(entries, path).value))
    && (!Present(entries, path) ==> v == d)
  }

  /** A material-list setting: the ids the stored names resolve to when the path is present, the starting list
      otherwise. */
  predicate IdsField(codec: MaterialCodec, entries: Store, path: string, d: Option<seq<int>>, v: Option<seq<int>>)
  {
    && (Present(entries, path) ==> v == codec.idsOf(Get(entries, path).value))
    && (!Present(entries, path) ==> v == d)
  }

  /** A block table: the membership table of the stored names, sized as the starting table, when the path is
      present and they resolve; the starting table otherwise. */
  predicate TableField(codec: MaterialCodec, entries: Store, path: string, t: Option<seq<bool>>, v: Option<seq<bool>>)
  {
    && (Present(entries, path) ==>
          v == Or(StoredTable(codec, entries, path, if t.Some? then |t.value| else TableSize), t))
    && (!Present(entries, path) ==> v == t)
  }

  /** A saving read of a path the section lacks leaves `v`, the stored form of the starting value, there. */
  ghost predicate WrittenBack(entries: Store, st: Store, path: string, withSave: bool, v: Option<Value>)
  {
    withSave && !Present(entries, path) ==> Holds(st, path, v)
  }

  /** The eight settings `readWorld` reads itself, each read from `entries` over the starting record `w`. */
  predicate SettingsFields(codec: MaterialCodec, entries: Store, worldPath: string, w: WorldRecord, r: WorldRecord)
  {
    && BoolField(entries, worldPath + ".Enabled", w.enabled, r.enabled)
    && BoolField(entries, worldPath + ".AntiTexturePackAndFreecam", w.antiTexturePackAndFreecam,
                 r.antiTexturePackAndFreecam)
    && IntField(entries, worldPath + ".AirGeneratorMaxChance", w.airGeneratorMaxChance, 40, 100,
                r.airGeneratorMaxChance)
    && BoolField(entries, worldPath + ".DarknessHideBlocks", w.darknessHideBlocks, r.darknessHideBlocks)
    && TableField(codec, entries, worldPath + ".DarknessBlocks", w.darknessBlocks, r.darknessBlocks)
    && IdField(codec, entries, worldPath + ".Mode1Block", w.mode1BlockId, r.mode1BlockId)
    && IdsField(codec, entries, worldPath + ".RandomBlocks", w.randomBlocks, r.randomBlocks)
    && TableField(codec, entries, worldPath + ".ObfuscateBlocks", w.obfuscateBlocks, r.obfuscateBlocks)
  }

  /** The seven proximity settings, each read from `entries` over the starting record `p`. */
  predicate ProximityFields(codec: MaterialCodec, entries: Store, worldPath: string, p: ProximityRecord,
                            r: ProximityRecord)
  {
    var path := worldPath + ".ProximityHider";
    && BoolField(entries, path + ".Enabled", p.enabled, r.enabled)
    && IntField(entries, path + ".Distance", p.distance, 2, 64, r.distance)
    && IdField(codec, entries, path + ".SpecialBlock", p.specialBlockId, r.specialBlockId)
    && IntField(entries, path + ".EndY", p.endY, 0, 255, r.endY)
    && BoolField(entries, path + ".UseSpecialBlock", p.useSpecialBlock, r.useSpecialBlock)
    && BoolField(entries, path + ".UseEndY", p.useEndY, r.useEndY)
    && TableField(codec, entries, path + ".ProximityHiderBlocks", p.blocks, r.blocks)
  }

  /** Each of the eight settings the section lacks holds the stored form of `w`'s value after a saving read. */
  ghost predicate SettingsWrittenBack(codec: MaterialCodec, entries: Store, st: Store, worldPath: string,
                                      w: WorldRecord, withSave: bool)
  {
    && WrittenBack(entries, st, worldPath + ".Enabled", withSave, BoolValue(w.enabled))
    && WrittenBack(entries, st, worldPath + ".AntiTexturePackAndFreecam", withSave,
                   BoolValue(w.antiTexturePackAndFreecam))
    && WrittenBack(entries, st, worldPath + ".AirGeneratorMaxChance", withSave, IntValue(w.airGeneratorMaxChance))
    && WrittenBack(entries, st, worldPath + ".DarknessHideBlocks", withSave, BoolValue(w.darknessHideBlocks))
    && WrittenBack(entries, st, worldPath + ".DarknessBlocks", withSave, IdsValue(codec, TableIdsOf(w.darknessBlocks)))
    && WrittenBack(entries, st, worldPath + ".Mode1Block", withSave, IdValue(codec, w.mode1BlockId))
    && WrittenBack(entries, st, worldPath + ".RandomBlocks", withSave, IdsValue(codec, w.randomBlocks))
    && WrittenBack(entries, st, worldPath + ".ObfuscateBlocks", withSave,
                   IdsValue(codec, TableIdsOf(w.obfuscateBlocks)))
  }

  /** Each of the seven proximity settings the section lacks holds the stored form of `p`'s value after a saving
      read. */
  ghost predicate ProximityWrittenBack(codec: MaterialCodec, entries: Store, st: Store, worldPath: string,
                                       p: ProximityRecord, withSave: bool)
  {
    var path := worldPath + ".ProximityHider";
    && WrittenBack(entries, st, path + ".Enabled", withSave, BoolValue(p.enabled))
    && WrittenBack(entries, st, path + ".Distance", withSave, IntValue(p.distance))
    && WrittenBack(entries, st, path + ".SpecialBlock", withSave, IdValue(codec, p.specialBlockId))
    && WrittenBack(entries, st, path + ".EndY", withSave, IntValue(p.endY))
    && WrittenBack(entries, st, path + ".UseSpecialBlock", withSave, BoolValue(p.useSpecialBlock))
    && WrittenBack(entries, st, path + ".UseEndY", withSave, BoolValue(p.useEndY))
    && WrittenBack(entries, st, path + ".ProximityHiderBlocks", withSave, IdsValue(codec, TableIdsOf(p.blocks)))
  }

  /** `st` answers for `path` exactly as `entries` does. */
  ghost predicate Agrees(entries: Store, st: Store, path: string)
  {
    && (path in st <==> path in entries)
    && (path in entries ==> st[path] == entries[path])
    && (Present(st, path) <==> Present(entries, path))
  }

  /** `st` answers as `entries` for the settings of section `w` named from position `k` of `names` on. */
  ghost predicate AgreeFrom(entries: Store, st: Store, w: string, names: seq<string>, k: nat)
  {
    forall j :: k <= j < |names| ==> Agrees(entries, st, w + names[j])
  }

  /** `st2` keeps every entry of `st` and has no other key but `path`. */
  ghost predicate AddsAt(st: Store, st2: Store, path: string)
  {
    Retains(st, st2) && forall k :: k in st2 ==> k in st || k == path
  }

  /** `st2` keeps every entry of `st`, and every key it adds is a setting directly inside section `w`. */
  ghost predicate Widens(st: Store, st2: Store, w: string)
  {
    && Retains(st, st2)
    && forall k :: k in st2 && k !in st ==> |w| < |k| && k[..|w|] == w && Leaf(k[|w|..])
  }

  /** Adding a key leaves a path answering as before when the path is not the key and does not hold it. */
  lemma AddsKeepsAgree(entries: Store, st: Store, st2: Store, key: string, path: string)
    requires Agrees(entries, st, path) && AddsAt(st, st2, key) && path != key && !Below(path, key)
    ensures Agrees(entries, st2, path)
  {
  }

  /** Adding the `k`th setting of a section leaves the settings named after it answering as before. */
  lemma AgreeStep(entries: Store, st: Store, st2: Store, w: string, names: seq<string>, k: nat)
    requires Apart(names) && k < |names| && AgreeFrom(entries, st, w, names, k) && AddsAt(st, st2, w + names[k])
    ensures AgreeFrom(entries, st2, w, names, k + 1)
  {
    forall j | k + 1 <= j < |names|
      ensures Agrees(entries, st2, w + names[j])
    {
      LeavesApart(w, names[j], names[k]);
      AddsKeepsAgree(entries, st, st2, w + names[k], w + names[j]);
    }
  }

  /** Adding one setting of section `w` widens the store. */
  lemma AddsWidens(st: Store, st2: Store, w: string, name: string)
    requires AddsAt(st, st2, w + name) && Leaf(name)
    ensures Widens(st, st2, w)
  {
    assert (w + name)[..|w|] == w && (w + name)[|w|..] == name;
  }

  /** Widening composes. */
  lemma WidensTrans(a: Store, b: Store, c: Store, w: string)
    requires Widens(a, b, w) && Widens(b, c, w)
    ensures Widens(a, c, w)
  {
  }

  /** Keys added directly inside section `w` leave every path of its sub-section `w + sub` answering as before. */
  lemma WidensAgreeBelow(entries: Store, st: Store, w: string, sub: string, names: seq<string>)
    requires Widens(entries, st, w) && Leaf(sub) && Apart(names)
    ensures AgreeFrom(entries, st, w + sub, names, 0)
  {
    forall j | 0 <= j < |names|
      ensures Agrees(entries, st, w + sub + names[j])
    {
      var path := w + sub + names[j];
      assert path[|w| + |sub|] == '.' && |w| + |sub| < |path|;
      forall k | k in st && k !in entries
        ensures k != path && !Below(path, k)
      {
        if |w| + |sub| < |k| {
          assert k[|w|..][|sub|] != '.';
        }
      }
    }
  }

  /** A value written back stays in any store that retains its entries. */
  lemma WrittenBackRetained(entries: Store, st: Store, st2: Store, w: string, path: string, withSave: bool,
                            v: Option<Value>)
    requires WrittenBack(entries, st, path, withSave, v) && Widens(st, st2, w)
    ensures WrittenBack(entries, st2, path, withSave, v)
  {
  }

  /** One boolean read of the `k`th setting of a section. */
  lemma BoolRead(entries: Store, st: Store, w: string, names: seq<string>, k: nat, d: Option<bool>, withSave: bool)
    requires Apart(names) && k < |names| && AgreeFrom(entries, st, w, names, k)
    ensures var r := BoolSetting(st, w + names[k], d, withSave);
            && BoolField(entries, w + names[k], d, r.value)
            && WrittenBack(entries, r.store, w + names[k], withSave, BoolValue(d))
            && AddsAt(st, r.store, w + names[k])
            && AgreeFrom(entries, r.store, w, names, k + 1)
            && Widens(st, r.store, w)
  {
    var path := w + names[k];
    assert Agrees(entries, st, path);
    if !Present(st, path) && withSave && d.None? {
      assert st - {path} == st;
    }
    AgreeStep(entries, st, BoolSetting(st, path, d, withSave).store, w, names, k);
    AddsWidens(st, BoolSetting(st, path, d, withSave).store, w, names[k]);
  }

  /** One integer read of the `k`th setting of a section. */
  lemma IntRead(entries: Store, st: Store, w: string, names: seq<string>, k: nat, d: Option<int>, min: int, max: int,
                withSave: bool)
    requires Apart(names) && k < |names| && AgreeFrom(entries, st, w, names, k)
    ensures var r := IntSetting(st, w + names[k], d, min, max, withSave);
            && IntField(entries, w + names[k], d, min, max, r.value)
            && WrittenBack(entries, r.store, w + names[k], withSave, IntValue(d))
            && AddsAt(st, r.store, w + names[k])
            && AgreeFrom(entries, r.store, w, names, k + 1)
            && Widens(st, r.store, w)
  {
    var path := w + names[k];
    assert Agrees(entries, st, path);
    if !Present(st, path) && withSave && d.None? {
      assert st - {path} == st;
    }
    AgreeStep(entries, st, IntSetting(st, path, d, min, max, withSave).store, w, names, k);
    AddsWidens(st, IntSetting(st, path, d, min, max, withSave).store, w, names[k]);
  }

  /** One material read of the `k`th setting of a section. */
  lemma IdRead(codec: MaterialCodec, entries: Store, st: Store, w: string, names: seq<string>, k: nat, d: Option<int>,
               withSave: bool)
    requires Apart(names) && k < |names| && AgreeFrom(entries, st, w, names, k)
    ensures var r := MaterialIdSetting(codec, st, w + names[k], d, withSave);
            && IdField(codec, entries, w + names[k], d, r.value)
            && WrittenBack(entries, r.store, w + names[k], withSave, IdValue(codec, d))
            && AddsAt(st, r.store, w + names[k])
            && AgreeFrom(entries, r.store, w, names, k + 1)
            && Widens(st, r.store, w)
  {
    var path := w + names[k];
    assert Agrees(entries, st, path);
    assert Get(st, path) == Get(entries, path);
    AgreeStep(entries, st, MaterialIdSetting(codec, st, path, d, withSave).store, w, names, k);
    AddsWidens(st, MaterialIdSetting(codec, st, path, d, withSave).store, w, names[k]);
  }

  /** One material-list read of the `k`th setting of a section. */
  lemma IdsRead(codec: MaterialCodec, entries: Store, st: Store, w: string, names: seq<string>, k: nat,
                d: Option<seq<int>>, withSave: bool)
    requires Apart(names) && k < |names| && AgreeFrom(entries, st, w, names, k)
    ensures var r := MaterialIdsSetting(codec, st, w + names[k], d, withSave);
            && IdsField(codec, entries, w + names[k], d, r.value)
            && WrittenBack(entries, r.store, w + names[k], withSave, IdsValue(codec, d))
            && AddsAt(st, r.store, w + names[k])
            && AgreeFrom(entries, r.store, w, names, k + 1)
            && Widens(st, r.store, w)
  {
    var path := w + names[k];
    assert Agrees(entries, st, path);
    assert Get(st, path) == Get(entries, path);
    AgreeStep(entries, st, MaterialIdsSetting(codec, st, path, d, withSave).store, w, names, k);
    AddsWidens(st, MaterialIdsSetting(codec, st, path, d, withSave).store, w, names[k]);
  }

  /** One table read of the `k`th setting of a section. */
  lemma TableRead(codec: MaterialCodec, entries: Store, st: Store, w: string, names: seq<string>, k: nat,
                  t: Option<seq<bool>>, withSave: bool)
    requires Apart(names) && k < |names| && AgreeFrom(entries, st, w, names, k)
    ensures var r := BlockMatrix(codec, st, t, TableIdsOf(t), w + names[k], withSave);
            && TableField(codec, entries, w + names[k], t, r.value)
            && WrittenBack(entries, r.store, w + names[k], withSave, IdsValue(codec, TableIdsOf(t)))
            && AddsAt(st, r.store, w + names[k])
            && AgreeFrom(entries, r.store, w, names, k + 1)
            && Widens(st, r.store, w)
  {
    var path := w + names[k];
    assert Agrees(entries, st, path);
    assert Get(st, path) == Get(entries, path);
    if t.Some? {
      TableIdsRoundTrip(t.value);
    }
    AgreeStep(entries, st, BlockMatrix(codec, st, t, TableIdsOf(t), path, withSave).store, w, names, k);
    AddsWidens(st, BlockMatrix(codec, st, t, TableIdsOf(t), path, withSave).store, w, names[k]);
  }

  /** The names of a section's own settings, in the order `readWorld` reads them. */
  lemma SectionNames()
    ensures Apart(SectionEntries) && |SectionEntries| == 10
    ensures && SectionEntries[1] == ".Enabled" && SectionEntries[2] == ".AntiTexturePackAndFreecam"
            && SectionEntries[3] == ".AirGeneratorMaxChance" && SectionEntries[4] == ".DarknessHideBlocks"
            && SectionEntries[5] == ".DarknessBlocks" && SectionEntries[6] == ".Mode1Block"
            && SectionEntries[7] == ".RandomBlocks" && SectionEntries[8] == ".ObfuscateBlocks"
            && SectionEntries[9] == ".ProximityHider"
  {
    SectionEntriesApart();
  }

  /** A store answers as itself. */
  lemma AgreeSelf(entries: Store, w: string, names: seq<string>, k: nat)
    ensures AgreeFrom(entries, entries, w, names, k)
  {
  }

  /** The first four own settings of a section, read one after the other from a store that answers as `entries`
      for them. */
  lemma {:induction false} FlagsRead(entries: Store, st: Store, worldPath: string, w: WorldRecord, withSave: bool,
                                     enabled: Read<Option<bool>>, anti: Read<Option<bool>>, air: Read<Option<int>>,
                                     hiding: Read<Option<bool>>)
    requires AgreeFrom(entries, st, worldPath, SectionEntries, 1)
    requires enabled == BoolSetting(st, worldPath + ".Enabled", w.enabled, withSave)
    requires anti == BoolSetting(enabled.store, worldPath + ".AntiTexturePackAndFreecam", w.antiTexturePackAndFreecam,
                                 withSave)
    requires air == IntSetting(anti.store, worldPath + ".AirGeneratorMaxChance", w.airGeneratorMaxChance, 40, 100,
                               withSave)
    requires hiding == BoolSetting(air.store, worldPath + ".DarknessHideBlocks", w.darknessHideBlocks, withSave)
    ensures && BoolField(entries, worldPath + ".Enabled", w.enabled, enabled.value)
            && BoolField(entries, worldPath + ".AntiTexturePackAndFreecam", w.antiTexturePackAndFreecam, anti.value)
            && IntField(entries, worldPath + ".AirGeneratorMaxChance", w.airGeneratorMaxChance, 40, 100, air.value)
            && BoolField(entries, worldPath + ".DarknessHideBlocks", w.darknessHideBlocks, hiding.value)
    ensures && WrittenBack(entries, hiding.store, worldPath + ".Enabled", withSave, BoolValue(w.enabled))
            && WrittenBack(entries, hiding.store, worldPath + ".AntiTexturePackAndFreecam", withSave,
                           BoolValue(w.antiTexturePackAndFreecam))
            && WrittenBack(entries, hiding.store, worldPath + ".AirGeneratorMaxChance", withSave,
                           IntValue(w.airGeneratorMaxChance))
            && WrittenBack(entries, hiding.store, worldPath + ".DarknessHideBlocks", withSave,
                           BoolValue(w.darknessHideBlocks))
    ensures Widens(st, hiding.store, worldPath) && AgreeFrom(entries, hiding.store, worldPath, SectionEntries, 5)
  {
    hide AgreeFrom, Apart, Leaf, AddsAt, Retains, Widens, WrittenBack, Present, BoolSetting, IntSetting, BoolField,
         IntField, BoolValue, IntValue, BoolAt, IntAt, Put, Clamp;
    SwitchesRead(entries, st, worldPath, w, withSave, enabled, anti);
    AirHidingRead(entries, anti.store, worldPath, w, withSave, air, hiding);
    FlagsKept(entries, st, enabled.store, anti.store, air.store, hiding.store, worldPath, w, withSave);
  }

  /** The first two own settings of a section. */
  lemma SwitchesRead(entries: Store, st: Store, worldPath: string, w: WorldRecord, withSave: bool,
                     enabled: Read<Option<bool>>, anti: Read<Option<bool>>)
    requires AgreeFrom(entries, st, worldPath, SectionEntries, 1)
    requires enabled == BoolSetting(st, worldPath + ".Enabled", w.enabled, withSave)
    requires anti == BoolSetting(enabled.store, worldPath + ".AntiTexturePackAndFreecam", w.antiTexturePackAndFreecam,
                                 withSave)
    ensures && BoolField(entries, worldPath + ".Enabled", w.enabled, enabled.value)
            && BoolField(entries, worldPath + ".AntiTexturePackAndFreecam", w.antiTexturePackAndFreecam, anti.value)
    ensures && WrittenBack(entries, enabled.store, worldPath + ".Enabled", withSave, BoolValue(w.enabled))
            && WrittenBack(entries, anti.store, worldPath + ".AntiTexturePackAndFreecam", withSave,
                           BoolValue(w.antiTexturePackAndFreecam))
    ensures Widens(st, enabled.store, worldPath) && Widens(enabled.store, anti.store, worldPath)
    ensures AgreeFrom(entries, anti.store, worldPath, SectionEntries, 3)
  {
    hide AgreeFrom, Apart, Leaf, AddsAt, Retains, Widens, WrittenBack, Present, BoolSetting, BoolField, BoolValue,
         BoolAt, Put;
    var names := SectionEntries;
    SectionNames();
    BoolRead(entries, st, worldPath, names, 1, w.enabled, withSave);
    BoolRead(entries, enabled.store, worldPath, names, 2, w.antiTexturePackAndFreecam, withSave);
  }

  /** The third and fourth own settings of a section. */
  lemma AirHidingRead(entries: Store, st: Store, worldPath: string, w: WorldRecord, withSave: bool,
                      air: Read<Option<int>>, hiding: Read<Option<bool>>)
    requires AgreeFrom(entries, st, worldPath, SectionEntries, 3)
    requires air == IntSetting(st, worldPath + ".AirGeneratorMaxChance", w.airGeneratorMaxChance, 40, 100, withSave)
    requires hiding == BoolSetting(air.store, worldPath + ".DarknessHideBlocks", w.darknessHideBlocks, withSave)
    ensures && IntField(entries, worldPath + ".AirGeneratorMaxChance", w.airGeneratorMaxChance, 40, 100, air.value)
            && BoolField(entries, worldPath + ".DarknessHideBlocks", w.darknessHideBlocks, hiding.value)
    ensures && WrittenBack(entries, air.store, worldPath + ".AirGeneratorMaxChance", withSave,
                           IntValue(w.airGeneratorMaxChance))
            && WrittenBack(entries, hiding.store, worldPath + ".DarknessHideBlocks", withSave,
                           BoolValue(w.darknessHideBlocks))
    ensures Widens(st, air.store, worldPath) && Widens(air.store, hiding.store, worldPath)
    ensures AgreeFrom(entries, hiding.store, worldPath, SectionEntries, 5)
  {
    hide AgreeFrom, Apart, Leaf, AddsAt, Retains, Widens, WrittenBack, Present, BoolSetting, IntSetting, BoolField,
         IntField, BoolValue, IntValue, BoolAt, IntAt, Put, Clamp;
    var names := SectionEntries;
    SectionNames();
    IntRead(entries, st, worldPath, names, 3, w.airGeneratorMaxChance, 40, 100, withSave);
    BoolRead(entries, air.store, worldPath, names, 4, w.darknessHideBlocks, withSave);
  }

  /** The first four settings written back stay through the reads that follow them. */
  lemma FlagsKept(entries: Store, s0: Store, s1: Store, s2: Store, s3: Store, s4: Store, worldPath: string,
                  w: WorldRecord, withSave: bool)
    requires Widens(s0, s1, worldPath) && Widens(s1, s2, worldPath) && Widens(s2, s3, worldPath)
             && Widens(s3, s4, worldPath)
    requires && WrittenBack(entries, s1, worldPath + ".Enabled", withSave, BoolValue(w.enabled))
             && WrittenBack(entries, s2, worldPath + ".AntiTexturePackAndFreecam", withSave,
                            BoolValue(w.antiTexturePackAndFreecam))
             && WrittenBack(entries, s3, worldPath + ".AirGeneratorMaxChance", withSave,
                            IntValue(w.airGeneratorMaxChance))
    ensures Widens(s0, s4, worldPath)
    ensures && WrittenBack(entries, s4, worldPath + ".Enabled", withSave, BoolValue(w.enabled))
            && WrittenBack(entries, s4, worldPath + ".AntiTexturePackAndFreecam", withSave,
                           BoolValue(w.antiTexturePackAndFreecam))
            && WrittenBack(entries, s4, worldPath + ".AirGeneratorMaxChance", withSave,
                           IntValue(w.airGeneratorMaxChance))
  {
    hide Present, Widens, WrittenBack;
    WidensTrans(s2, s3, s4, worldPath);
    WidensTrans(s1, s2, s4, worldPath);
    WidensTrans(s0, s1, s4, worldPath);
    WrittenBackRetained(entries, s1, s4, worldPath, worldPath + ".Enabled", withSave, BoolValue(w.enabled));
    WrittenBackRetained(entries, s2, s4, worldPath, worldPath + ".AntiTexturePackAndFreecam", withSave,
                        BoolValue(w.antiTexturePackAndFreecam));
    WrittenBackRetained(entries, s3, s4, worldPath, worldPath + ".AirGeneratorMaxChance", withSave,
                        IntValue(w.airGeneratorMaxChance));
  }

  /** The last four own settings of a section, read one after the other from a store that answers as `entries`
      for them. */
  lemma {:induction false} BlocksRead(codec: MaterialCodec, entries: Store, st: Store, worldPath: string, w: WorldRecord,
                                      withSave: bool, darkness: Read<Option<seq<bool>>>, mode1: Read<Option<int>>,
                                      random: Read<Option<seq<int>>>, obfuscate: Read<Option<seq<bool>>>)
    requires AgreeFrom(entries, st, worldPath, SectionEntries, 5)
    requires darkness == BlockMatrix(codec, st, w.darknessBlocks, TableIdsOf(w.darknessBlocks),
                                     worldPath + ".DarknessBlocks", withSave)
    requires mode1 == MaterialIdSetting(codec, darkness.store, worldPath + ".Mode1Block", w.mode1BlockId, withSave)
    requires random == MaterialIdsSetting(codec, mode1.store, worldPath + ".RandomBlocks", w.randomBlocks, withSave)
    requires obfuscate == BlockMatrix(codec, random.store, w.obfuscateBlocks, TableIdsOf(w.obfuscateBlocks),
                                      worldPath + ".ObfuscateBlocks", withSave)
    ensures && TableField(codec, entries, worldPath + ".DarknessBlocks", w.darknessBlocks, darkness.value)
            && IdField(codec, entries, worldPath + ".Mode1Block", w.mode1BlockId, mode1.value)
            && IdsField(codec, entries, worldPath + ".RandomBlocks", w.randomBlocks, random.value)
            && TableField(codec, entries, worldPath + ".ObfuscateBlocks", w.obfuscateBlocks, obfuscate.value)
    ensures && WrittenBack(entries, obfuscate.store, worldPath + ".DarknessBlocks", withSave,
                           IdsValue(codec, TableIdsOf(w.darknessBlocks)))
            && WrittenBack(entries, obfuscate.store, worldPath + ".Mode1Block", withSave, IdValue(codec, w.mode1BlockId))
            && WrittenBack(entries, obfuscate.store, worldPath + ".RandomBlocks", withSave,
                           IdsValue(codec, w.randomBlocks))
            && WrittenBack(entries, obfuscate.store, worldPath + ".ObfuscateBlocks", withSave,
                           IdsValue(codec, TableIdsOf(w.obfuscateBlocks)))
    ensures Widens(st, obfuscate.store, worldPath)
  {
    hide AgreeFrom, Apart, Leaf, AddsAt, Retains, Widens, WrittenBack, Present, MaterialIdSetting, MaterialIdsSetting,
         BlockMatrix, IdField, IdsField, TableField, IdValue, IdsValue, TableIdsOf, Get;
    var names := SectionEntries;
    SectionNames();
    TableRead(codec, entries, st, worldPath, names, 5, w.darknessBlocks, withSave);
    IdRead(codec, entries, darkness.store, worldPath, names, 6, w.mode1BlockId, withSave);
    IdsRead(codec, entries, mode1.store, worldPath, names, 7, w.randomBlocks, withSave);
    TableRead(codec, entries, random.store, worldPath, names, 8, w.obfuscateBlocks, withSave);
    WidensTrans(mode1.store, random.store, obfuscate.store, worldPath);
    WidensTrans(darkness.store, mode1.store, obfuscate.store, worldPath);
    WidensTrans(st, darkness.store, obfuscate.store, worldPath);
    WrittenBackRetained(entries, darkness.store, obfuscate.store, worldPath, worldPath + ".DarknessBlocks", withSave,
                        IdsValue(codec, TableIdsOf(w.darknessBlocks)));
    WrittenBackRetained(entries, mode1.store, obfuscate.store, worldPath, worldPath + ".Mode1Block", withSave,
                        IdValue(codec, w.mode1BlockId));
    WrittenBackRetained(entries, random.store, obfuscate.store, worldPath, worldPath + ".RandomBlocks", withSave,
                        IdsValue(codec, w.randomBlocks));
  }

  /** The eight own settings of any section, read with or without saving: each setting the section holds gives
      its stored value, each it lacks gives `w`'s value and, when saving, has it written back; entries already
      stored never change, and every key added is a setting of the section. */
  lemma {:induction false} SettingsRead(ctx: Context, entries: Store, worldPath: string, w: WorldRecord, withSave: bool)
    ensures var r := ReadWorldSettings(ctx, entries, worldPath, w, withSave);
            && SettingsFields(ctx.codec, entries, worldPath, w, r.value)
            && SettingsWrittenBack(ctx.codec, entries, r.store, worldPath, w, withSave)
            && Widens(entries, r.store, worldPath)
  {
    hide ReadWorldSettings, AgreeFrom, BoolSetting, IntSetting, MaterialIdSetting, MaterialIdsSetting, BlockMatrix,
         BoolField, IntField, IdField, IdsField, TableField, Present;
    var codec := ctx.codec;
    var enabled := BoolSetting(entries, worldPath + ".Enabled", w.enabled, withSave);
    var anti := BoolSetting(enabled.store, worldPath + ".AntiTexturePackAndFreecam", w.antiTexturePackAndFreecam,
                            withSave);
    var air := IntSetting(anti.store, worldPath + ".AirGeneratorMaxChance", w.airGeneratorMaxChance, 40, 100, withSave);
    var hiding := BoolSetting(air.store, worldPath + ".DarknessHideBlocks", w.darknessHideBlocks, withSave);
    var darkness := BlockMatrix(codec, hiding.store, w.darknessBlocks, TableIdsOf(w.darknessBlocks),
                                worldPath + ".DarknessBlocks", withSave);
    var mode1 := MaterialIdSetting(codec, darkness.store, worldPath + ".Mode1Block", w.mode1BlockId, withSave);
    var random := MaterialIdsSetting(codec, mode1.store, worldPath + ".RandomBlocks", w.randomBlocks, withSave);
    var obfuscate := BlockMatrix(codec, random.store, w.obfuscateBlocks, TableIdsOf(w.obfuscateBlocks),
                                 worldPath + ".ObfuscateBlocks", withSave);
    AgreeSelf(entries, worldPath, SectionEntries, 1);
    FlagsRead(entries, entries, worldPath, w, withSave, enabled, anti, air, hiding);
    BlocksRead(codec, entries, hiding.store, worldPath, w, withSave, darkness, mode1, random, obfuscate);
    hide Widens;
    WidensTrans(entries, hiding.store, obfuscate.store, worldPath);
    SettingsWrittenBackKept(codec, entries, hiding.store, obfuscate.store, worldPath, w, withSave);
    ReadWorldSettingsSteps(ctx, entries, worldPath, w, withSave, enabled, anti, air, hiding, darkness, mode1, random,
                           obfuscate);
  }

  /** The first four settings written back stay through the reads of the last four. */
  lemma SettingsWrittenBackKept(codec: MaterialCodec, entries: Store, st: Store, st2: Store, worldPath: string,
                                w: WorldRecord, withSave: bool)
    requires Widens(st, st2, worldPath)
    requires && WrittenBack(entries, st, worldPath + ".Enabled", withSave, BoolValue(w.enabled))
             && WrittenBack(entries, st, worldPath + ".AntiTexturePackAndFreecam", withSave,
                            BoolValue(w.antiTexturePackAndFreecam))
             && WrittenBack(entries, st, worldPath + ".AirGeneratorMaxChance", withSave,
                            IntValue(w.airGeneratorMaxChance))
             && WrittenBack(entries, st, worldPath + ".DarknessHideBlocks", withSave, BoolValue(w.darknessHideBlocks))
    ensures && WrittenBack(entries, st2, worldPath + ".Enabled", withSave, BoolValue(w.enabled))
            && WrittenBack(entries, st2, worldPath + ".AntiTexturePackAndFreecam", withSave,
                           BoolValue(w.antiTexturePackAndFreecam))
            && WrittenBack(entries, st2, worldPath + ".AirGeneratorMaxChance", withSave,
                           IntValue(w.airGeneratorMaxChance))
            && WrittenBack(entries, st2, worldPath + ".DarknessHideBlocks", withSave, BoolValue(w.darknessHideBlocks))
  {
    hide Present, Widens;
    WrittenBackRetained(entries, st, st2, worldPath, worldPath + ".Enabled", withSave, BoolValue(w.enabled));
    WrittenBackRetained(entries, st, st2, worldPath, worldPath + ".AntiTexturePackAndFreecam", withSave,
                        BoolValue(w.antiTexturePackAndFreecam));
    WrittenBackRetained(entries, st, st2, worldPath, worldPath + ".AirGeneratorMaxChance", withSave,
                        IntValue(w.airGeneratorMaxChance));
    WrittenBackRetained(entries, st, st2, worldPath, worldPath + ".DarknessHideBlocks", withSave, BoolValue(w.darknessHideBlocks));
  }

  /** The names of the proximity settings, in the order `readProximityHider` reads them. */
  lemma ProximityNames()
    ensures Apart(ProximityEntries) && |ProximityEntries| == 7
    ensures && ProximityEntries[0] == ".Enabled" && ProximityEntries[1] == ".Distance"
            && ProximityEntries[2] == ".SpecialBlock" && ProximityEntries[3] == ".EndY"
            && ProximityEntries[4] == ".UseSpecialBlock" && ProximityEntries[5] == ".UseEndY"
            && ProximityEntries[6] == ".ProximityHiderBlocks"
  {
    ProximityEntriesApart();
  }

  /** The first two proximity settings. */
  lemma EnabledDistanceRead(entries: Store, st: Store, worldPath: string, p: ProximityRecord, withSave: bool,
                            enabled: Read<Option<bool>>, distance: Read<Option<int>>)
    requires AgreeFrom(entries, st, worldPath + ".ProximityHider", ProximityEntries, 0)
    requires enabled == BoolSetting(st, worldPath + ".ProximityHider" + ".Enabled", p.enabled, withSave)
    requires distance == IntSetting(enabled.store, worldPath + ".ProximityHider" + ".Distance", p.distance, 2, 64,
                                    withSave)
    ensures && BoolField(entries, worldPath + ".ProximityHider" + ".Enabled", p.enabled, enabled.value)
            && IntField(entries, worldPath + ".ProximityHider" + ".Distance", p.distance, 2, 64, distance.value)
    ensures && WrittenBack(entries, enabled.store, worldPath + ".ProximityHider" + ".Enabled", withSave,
                           BoolValue(p.enabled))
            && WrittenBack(entries, distance.store, worldPath + ".ProximityHider" + ".Distance", withSave,
                           IntValue(p.distance))
    ensures Widens(st, enabled.store, worldPath + ".ProximityHider")
            && Widens(enabled.store, distance.store, worldPath + ".ProximityHider")
    ensures AgreeFrom(entries, distance.store, worldPath + ".ProximityHider", ProximityEntries, 2)
  {
    hide AgreeFrom, Apart, Leaf, AddsAt, Retains, Widens, WrittenBack, Present, BoolSetting, IntSetting, BoolField,
         IntField, BoolValue, IntValue, BoolAt, IntAt, Put, Clamp;
    var path := worldPath + ".ProximityHider";
    var names := ProximityEntries;
    ProximityNames();
    BoolRead(entries, st, path, names, 0, p.enabled, withSave);
    IntRead(entries, enabled.store, path, names, 1, p.distance, 2, 64, withSave);
  }

  /** The third and fourth proximity settings. */
  lemma SpecialEndYRead(codec: MaterialCodec, entries: Store, st: Store, worldPath: string, p: ProximityRecord,
                        withSave: bool, special: Read<Option<int>>, endY: Read<Option<int>>)
    requires AgreeFrom(entries, st, worldPath + ".ProximityHider", ProximityEntries, 2)
    requires special == MaterialIdSetting(codec, st, worldPath + ".ProximityHider" + ".SpecialBlock", p.specialBlockId,
                                          withSave)
    requires endY == IntSetting(special.store, worldPath + ".ProximityHider" + ".EndY", p.endY, 0, 255, withSave)
    ensures && IdField(codec, entries, worldPath + ".ProximityHider" + ".SpecialBlock", p.specialBlockId, special.value)
            && IntField(entries, worldPath + ".ProximityHider" + ".EndY", p.endY, 0, 255, endY.value)
    ensures && WrittenBack(entries, special.store, worldPath + ".ProximityHider" + ".SpecialBlock", withSave,
                           IdValue(codec, p.specialBlockId))
            && WrittenBack(entries, endY.store, worldPath + ".ProximityHider" + ".EndY", withSave, IntValue(p.endY))
    ensures Widens(st, special.store, worldPath + ".ProximityHider")
            && Widens(special.store, endY.store, worldPath + ".ProximityHider")
    ensures AgreeFrom(entries, endY.store, worldPath + ".ProximityHider", ProximityEntries, 4)
  {
    hide AgreeFrom, Apart, Leaf, AddsAt, Retains, Widens, WrittenBack, Present, MaterialIdSetting, IntSetting, IdField,
         IntField, IdValue, IntValue, IntAt, Get, Put, Clamp;
    var path := worldPath + ".ProximityHider";
    var names := ProximityEntries;
    ProximityNames();
    IdRead(codec, entries, st, path, names, 2, p.specialBlockId, withSave);
    IntRead(entries, special.store, path, names, 3, p.endY, 0, 255, withSave);
  }

  /** The last three proximity settings. */
  lemma UseBlocksRead(codec: MaterialCodec, entries: Store, st: Store, worldPath: string, p: ProximityRecord,
                      withSave: bool, useSpecial: Read<Option<bool>>, useEndY: Read<Option<bool>>,
                      blocks: Read<Option<seq<bool>>>)
    requires AgreeFrom(entries, st, worldPath + ".ProximityHider", ProximityEntries, 4)
    requires useSpecial == BoolSetting(st, worldPath + ".ProximityHider" + ".UseSpecialBlock", p.useSpecialBlock,
                                       withSave)
    requires useEndY == BoolSetting(useSpecial.store, worldPath + ".ProximityHider" + ".UseEndY", p.useEndY, withSave)
    requires blocks == BlockMatrix(codec, useEndY.store, p.blocks, TableIdsOf(p.blocks),
                                   worldPath + ".ProximityHider" + ".ProximityHiderBlocks", withSave)
    ensures && BoolField(entries, worldPath + ".ProximityHider" + ".UseSpecialBlock", p.useSpecialBlock,
                         useSpecial.value)
            && BoolField(entries, worldPath + ".ProximityHider" + ".UseEndY", p.useEndY, useEndY.value)
            && TableField(codec, entries, worldPath + ".ProximityHider" + ".ProximityHiderBlocks", p.blocks, blocks.value)
    ensures && WrittenBack(entries, blocks.store, worldPath + ".ProximityHider" + ".UseSpecialBlock", withSave,
                           BoolValue(p.useSpecialBlock))
            && WrittenBack(entries, blocks.store, worldPath + ".ProximityHider" + ".UseEndY", withSave,
                           BoolValue(p.useEndY))
            && WrittenBack(entries, blocks.store, worldPath + ".ProximityHider" + ".ProximityHiderBlocks", withSave,
                           IdsValue(codec, TableIdsOf(p.blocks)))
    ensures Widens(st, blocks.store, worldPath + ".ProximityHider")
  {
    hide AgreeFrom, Apart, Leaf, AddsAt, Retains, Widens, WrittenBack, Present, BoolSetting, BlockMatrix, BoolField,
         TableField, BoolValue, IdsValue, TableIdsOf, BoolAt, Get, Put;
    var path := worldPath + ".ProximityHider";
    var names := ProximityEntries;
    ProximityNames();
    BoolRead(entries, st, path, names, 4, p.useSpecialBlock, withSave);
    BoolRead(entries, useSpecial.store, path, names, 5, p.useEndY, withSave);
    TableRead(codec, entries, useEndY.store, path, names, 6, p.blocks, withSave);
    WidensTrans(useSpecial.store, useEndY.store, blocks.store, path);
    WidensTrans(st, useSpecial.store, blocks.store, path);
    WrittenBackRetained(entries, useSpecial.store, blocks.store, path, path + ".UseSpecialBlock", withSave,
                        BoolValue(p.useSpecialBlock));
    WrittenBackRetained(entries, useEndY.store, blocks.store, path, path + ".UseEndY", withSave, BoolValue(p.useEndY));
  }

  /** The first four proximity settings written back stay through the reads that follow them. */
  lemma ProximityKept(codec: MaterialCodec, entries: Store, s0: Store, s1: Store, s2: Store, s3: Store, s4: Store,
                      s5: Store, worldPath: string, p: ProximityRecord, withSave: bool)
    requires var path := worldPath + ".ProximityHider";
             && Widens(s0, s1, path) && Widens(s1, s2, path) && Widens(s2, s3, path) && Widens(s3, s4, path)
             && Widens(s4, s5, path)
    requires var path := worldPath + ".ProximityHider";
             && WrittenBack(entries, s1, path + ".Enabled", withSave, BoolValue(p.enabled))
             && WrittenBack(entries, s2, path + ".Distance", withSave, IntValue(p.distance))
             && WrittenBack(entries, s3, path + ".SpecialBlock", withSave, IdValue(codec, p.specialBlockId))
             && WrittenBack(entries, s4, path + ".EndY", withSave, IntValue(p.endY))
    ensures var path := worldPath + ".ProximityHider";
            Widens(s0, s5, path)
    ensures var path := worldPath + ".ProximityHider";
            && WrittenBack(entries, s5, path + ".Enabled", withSave, BoolValue(p.enabled))
            && WrittenBack(entries, s5, path + ".Distance", withSave, IntValue(p.distance))
            && WrittenBack(entries, s5, path + ".SpecialBlock", withSave, IdValue(codec, p.specialBlockId))
            && WrittenBack(entries, s5, path + ".EndY", withSave, IntValue(p.endY))
  {
    hide Present, Widens, WrittenBack;
    var path := worldPath + ".ProximityHider";
    WidensTrans(s3, s4, s5, path);
    WidensTrans(s2, s3, s5, path);
    WidensTrans(s1, s2, s5, path);
    WidensTrans(s0, s1, s5, path);
    WrittenBackRetained(entries, s1, s5, path, path + ".Enabled", withSave, BoolValue(p.enabled));
    WrittenBackRetained(entries, s2, s5, path, path + ".Distance", withSave, IntValue(p.distance));
    WrittenBackRetained(entries, s3, s5, path, path + ".SpecialBlock", withSave, IdValue(codec, p.specialBlockId));
    WrittenBackRetained(entries, s4, s5, path, path + ".EndY", withSave, IntValue(p.endY));
  }

  /** The seven proximity settings of any section, read with or without saving from a store that answers as
      `entries` for them: each setting the section holds gives its stored value, each it lacks gives `p`'s value
      and, when saving, has it written back; entries already stored never change, and every key added is a
      proximity setting. */
  lemma {:induction false} ProximityRead(ctx: Context, entries: Store, st: Store, worldPath: string,
                                         p: ProximityRecord, withSave: bool)
    requires AgreeFrom(entries, st, worldPath + ".ProximityHider", ProximityEntries, 0)
    ensures var r := ReadProximity(ctx, st, worldPath, p, withSave);
            && ProximityFields(ctx.codec, entries, worldPath, p, r.value)
            && ProximityWrittenBack(ctx.codec, entries, r.store, worldPath, p, withSave)
            && Widens(st, r.store, worldPath + ".ProximityHider")
  {
    hide ReadProximity, AgreeFrom, BoolSetting, IntSetting, MaterialIdSetting, BlockMatrix, BoolField, IntField,
         IdField, TableField, WrittenBack, Widens, Present;
    var codec := ctx.codec;
    var path := worldPath + ".ProximityHider";
    var enabled := BoolSetting(st, path + ".Enabled", p.enabled, withSave);
    var distance := IntSetting(enabled.store, path + ".Distance", p.distance, 2, 64, withSave);
    var special := MaterialIdSetting(codec, distance.store, path + ".SpecialBlock", p.specialBlockId, withSave);
    var endY := IntSetting(special.store, path + ".EndY", p.endY, 0, 255, withSave);
    var useSpecial := BoolSetting(endY.store, path + ".UseSpecialBlock", p.useSpecialBlock, withSave);
    var useEndY := BoolSetting(useSpecial.store, path + ".UseEndY", p.useEndY, withSave);
    var blocks := BlockMatrix(codec, useEndY.store, p.blocks, TableIdsOf(p.blocks), path + ".ProximityHiderBlocks",
                              withSave);
    EnabledDistanceRead(entries, st, worldPath, p, withSave, enabled, distance);
    SpecialEndYRead(codec, entries, distance.store, worldPath, p, withSave, special, endY);
    UseBlocksRead(codec, entries, endY.store, worldPath, p, withSave, useSpecial, useEndY, blocks);
    ProximityKept(codec, entries, st, enabled.store, distance.store, special.store, endY.store, blocks.store, worldPath,
                  p, withSave);
    ReadProximitySteps(ctx, st, worldPath, p, withSave, enabled, distance, special, endY, useSpecial, useEndY, blocks);
  }

  /** The eight settings written back stay in any store that retains the entries. */
  lemma SettingsWrittenBackRetained(codec: MaterialCodec, entries: Store, st: Store, st2: Store, worldPath: string,
                                    w: WorldRecord, withSave: bool)
    requires SettingsWrittenBack(codec, entries, st, worldPath, w, withSave) && Retains(st, st2)
    ensures SettingsWrittenBack(codec, entries, st2, worldPath, w, withSave)
  {
    hide Present;
  }

  /** The eight own settings say nothing of the proximity settings. */
  lemma SettingsFieldsOver(codec: MaterialCodec, entries: Store, worldPath: string, w: WorldRecord, r: WorldRecord,
                           q: ProximityRecord)
    requires SettingsFields(codec, entries, worldPath, w, r)
    ensures SettingsFields(codec, entries, worldPath, w, r.(proximity := q))
  {
    hide BoolField, IntField, IdField, IdsField, TableField;
  }

  /** `readWorld` over the starting record `w`, with or without saving: every one of the fifteen settings the
      section holds gives its stored value, every one it lacks keeps `w`'s value and, when saving, has it
      written back in stored form; entries already stored never change. */
  lemma {:induction false} ReadWorldRecordFields(ctx: Context, entries: Store, worldPath: string, w: WorldRecord,
                                                 withSave: bool)
    ensures var r := ReadWorldRecord(ctx, entries, worldPath, w, withSave);
            && SettingsFields(ctx.codec, entries, worldPath, w, r.value)
            && ProximityFields(ctx.codec, entries, worldPath, w.proximity, r.value.proximity)
            && SettingsWrittenBack(ctx.codec, entries, r.store, worldPath, w, withSave)
            && ProximityWrittenBack(ctx.codec, entries, r.store, worldPath, w.proximity, withSave)
            && Retains(entries, r.store)
  {
    hide ReadWorldRecord, ReadWorldSettings, ReadProximity, SettingsFields, ProximityFields, SettingsWrittenBack,
         ProximityWrittenBack, AgreeFrom, Retains, Present;
    var settings := ReadWorldSettings(ctx, entries, worldPath, w, withSave);
    var proximity := ReadProximity(ctx, settings.store, worldPath, w.proximity, withSave);
    SettingsRead(ctx, entries, worldPath, w, withSave);
    SectionNames();
    ProximityNames();
    WidensAgreeBelow(entries, settings.store, worldPath, ".ProximityHider", ProximityEntries);
    ProximityRead(ctx, entries, settings.store, worldPath, w.proximity, withSave);
    SettingsWrittenBackRetained(ctx.codec, entries, settings.store, proximity.store, worldPath, w, withSave);
    RetainsTrans(entries, settings.store, proximity.store);
    SettingsFieldsOver(ctx.codec, entries, worldPath, w, settings.value, proximity.value);
    ReadWorldRecordSteps(ctx, entries, worldPath, w, withSave, settings, proximity);
  }

  /** The default category adopted from the first section declaring it, read over the bootstrap record with
      saving: each setting the section holds gives its stored value, each it lacks keeps the bootstrap value
      and is written back into the section in stored form; entries already stored never change. */
  lemma AdoptedDefaultFields(ctx: Context, entries: Store, keys: seq<string>, i: nat)
    requires ValidContext(ctx) && FirstDeclaring(entries, keys, Default) == Some(i)
    ensures var r := WorldByType(ctx, entries, keys, Default, None);
            var worldPath := SectionPath(keys[i]);
            && SettingsFields(ctx.codec, entries, worldPath, ctx.bootstrap, r.value)
            && ProximityFields(ctx.codec, entries, worldPath, ctx.bootstrap.proximity, r.value.proximity)
            && SettingsWrittenBack(ctx.codec, entries, r.store, worldPath, ctx.bootstrap, true)
            && ProximityWrittenBack(ctx.codec, entries, r.store, worldPath, ctx.bootstrap.proximity, true)
            && Retains(entries, r.store)
  {
    hide ReadWorldRecord, SettingsFields, ProximityFields, SettingsWrittenBack, ProximityWrittenBack, Retains,
         FirstDeclaring, Covers, Extends, Inherits;
    ReadWorldRecordFields(ctx, entries, SectionPath(keys[i]), ctx.bootstrap, true);
  }
}
