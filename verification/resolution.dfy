/**
 * The world reader's resolution as values: each reader is a function from
 * the store before it to the record it resolves and the store after it.
 * The imperative reader in module Reader is proved equal to these.
 */
module Resolution {
  import opened ConfigStore
  import opened Settings
  import opened Materials
  import opened BlockTables
  import opened Paths
  import opened WorldTypes
  import opened Records

  /** What a load works with besides the store: material names, block transparency, and the bootstrap defaults. */
  datatype Context = Context(codec: MaterialCodec, transparent: seq<bool>, bootstrap: WorldRecord)

  predicate ValidContext(ctx: Context)
  {
    |ctx.transparent| == TableSize && TablesSized(ctx.bootstrap)
  }

  /** Integer settings lie within the ranges their readers clamp to. */
  predicate Clamped(w: WorldRecord)
  {
    && (w.airGeneratorMaxChance.Some? ==> 40 <= w.airGeneratorMaxChance.value <= 100)
    && (w.proximity.distance.Some? ==> 2 <= w.proximity.distance.value <= 64)
    && (w.proximity.endY.Some? ==> 0 <= w.proximity.endY.value <= 255)
  }

  /** A table present in a record has the length it had before, or 256 slots when it was missing. */
  predicate SizedFrom(t: Option<seq<bool>>, original: Option<seq<bool>>)
  {
    t.Some? ==> |t.value| == (if original.Some? then |original.value| else TableSize)
  }

  /** `readBlockMatrix(original, defaultIds, key, withSave)` on table values. */
  function BlockMatrix(codec: MaterialCodec, entries: Store, original: Option<seq<bool>>, defaultIds: Option<seq<int>>,
                       key: string, withSave: bool): (r: Read<Option<seq<bool>>>)
    ensures var ids := MaterialIdsSetting(codec, entries, key, defaultIds, withSave);
            && r.store == ids.store
            && (ids.value.None? ==> r.value == original)
            && (ids.value.Some? ==> r.value.Some? && forall i :: 0 <= i < |r.value.value| ==> r.value.value[i] == (i in ids.value.value))
    ensures SizedFrom(r.value, original)
  {
    var ids := MaterialIdsSetting(codec, entries, key, defaultIds, withSave);
    if ids.value.None? then Read(original, ids.store)
    else Read(Some(MembershipTable(ids.value.value, if original.Some? then |original.value| else TableSize)), ids.store)
  }

  /** The table a present block-list path yields: the membership table of the ids its names resolve to, or none
      when they resolve to nothing. */
  function StoredTable(codec: MaterialCodec, entries: Store, path: string, size: nat): Option<seq<bool>>
    requires Present(entries, path)
  {
    var ids := codec.idsOf(Get(entries, path).value);
    if ids.Some? then Some(MembershipTable(ids.value, size)) else None
  }

  /** `readProximityHider(worldPath, cfg, withSave)`: each field is read with the current value as default. */
  function ReadProximity(ctx: Context, entries: Store, worldPath: string, p: ProximityRecord, withSave: bool)
    : (r: Read<ProximityRecord>)
    ensures !withSave ==> r.store == entries
    ensures Sized(p.blocks) ==> Sized(r.value.blocks)
    ensures r.value.distance.Some? ==> 2 <= r.value.distance.value <= 64
    ensures r.value.endY.Some? ==> 0 <= r.value.endY.value <= 255
  {
    var path := worldPath + ".ProximityHider";
    var enabled := BoolSetting(entries, path + ".Enabled", p.enabled, withSave);
    var distance := IntSetting(enabled.store, path + ".Distance", p.distance, 2, 64, withSave);
    var special := MaterialIdSetting(ctx.codec, distance.store, path + ".SpecialBlock", p.specialBlockId, withSave);
    var endY := IntSetting(special.store, path + ".EndY", p.endY, 0, 255, withSave);
    var useSpecial := BoolSetting(endY.store, path + ".UseSpecialBlock", p.useSpecialBlock, withSave);
    var useEndY := BoolSetting(useSpecial.store, path + ".UseEndY", p.useEndY, withSave);
    var blocks := BlockMatrix(ctx.codec, useEndY.store, p.blocks, TableIdsOf(p.blocks),
                              path + ".ProximityHiderBlocks", withSave);
    Read(ProximityRecord(enabled.value, distance.value, special.value, endY.value, useSpecial.value, useEndY.value,
                         blocks.value), blocks.store)
  }

  /** The eight settings `readWorld` reads itself, in order, each with the current value as default; the
      proximity settings are left as they are. */
  function ReadWorldSettings(ctx: Context, entries: Store, worldPath: string, w: WorldRecord, withSave: bool)
    : (r: Read<WorldRecord>)
    ensures !withSave ==> r.store == entries
    ensures r.value.proximity == w.proximity
    ensures SizedFrom(r.value.darknessBlocks, w.darknessBlocks) && SizedFrom(r.value.obfuscateBlocks, w.obfuscateBlocks)
    ensures r.value.airGeneratorMaxChance.Some? ==> 40 <= r.value.airGeneratorMaxChance.value <= 100
  {
    var enabled := BoolSetting(entries, worldPath + ".Enabled", w.enabled, withSave);
    var anti := BoolSetting(enabled.store, worldPath + ".AntiTexturePackAndFreecam", w.antiTexturePackAndFreecam, withSave);
    var air := IntSetting(anti.store, worldPath + ".AirGeneratorMaxChance", w.airGeneratorMaxChance, 40, 100, withSave);
    var hiding := BoolSetting(air.store, worldPath + ".DarknessHideBlocks", w.darknessHideBlocks, withSave);
    var darkness := BlockMatrix(ctx.codec, hiding.store, w.darknessBlocks, TableIdsOf(w.darknessBlocks),
                                worldPath + ".DarknessBlocks", withSave);
    var mode1 := MaterialIdSetting(ctx.codec, darkness.store, worldPath + ".Mode1Block", w.mode1BlockId, withSave);
    var random := MaterialIdsSetting(ctx.codec, mode1.store, worldPath + ".RandomBlocks", w.randomBlocks, withSave);
    var obfuscate := BlockMatrix(ctx.codec, random.store, w.obfuscateBlocks, TableIdsOf(w.obfuscateBlocks),
                                 worldPath + ".ObfuscateBlocks", withSave);
    Read(WorldRecord(enabled.value, anti.value, air.value, hiding.value, darkness.value, mode1.value, random.value,
                     obfuscate.value, w.proximity), obfuscate.store)
  }

  /** `readWorld(worldPath, cfg, withSave)`: the section's own settings, then its proximity settings. */
  function ReadWorldRecord(ctx: Context, entries: Store, worldPath: string, w: WorldRecord, withSave: bool)
    : (r: Read<WorldRecord>)
    ensures !withSave ==> r.store == entries
    ensures TablesSized(w) ==> TablesSized(r.value)
    ensures Clamped(r.value)
  {
    var settings := ReadWorldSettings(ctx, entries, worldPath, w, withSave);
    var proximity := ReadProximity(ctx, settings.store, worldPath, w.proximity, withSave);
    Read(settings.value.(proximity := proximity.value), proximity.store)
  }

  /** `ReadWorldRecord` in its two stages. */
  lemma ReadWorldRecordSteps(ctx: Context, entries: Store, worldPath: string, w: WorldRecord, withSave: bool,
                             settings: Read<WorldRecord>, proximity: Read<ProximityRecord>)
    requires settings == ReadWorldSettings(ctx, entries, worldPath, w, withSave)
    requires proximity == ReadProximity(ctx, settings.store, worldPath, w.proximity, withSave)
    ensures ReadWorldRecord(ctx, entries, worldPath, w, withSave) ==
              Read(settings.value.(proximity := proximity.value), proximity.store)
  {
  }

  /** `ReadWorldSettings` step by step: the record read is assembled from the results of the reads in order. */
  lemma ReadWorldSettingsSteps(ctx: Context, entries: Store, worldPath: string, w: WorldRecord, withSave: bool,
                               enabled: Read<Option<bool>>, anti: Read<Option<bool>>, air: Read<Option<int>>,
                               hiding: Read<Option<bool>>, darkness: Read<Option<seq<bool>>>, mode1: Read<Option<int>>,
                               random: Read<Option<seq<int>>>, obfuscate: Read<Option<seq<bool>>>)
    requires enabled == BoolSetting(entries, worldPath + ".Enabled", w.enabled, withSave)
    requires anti == BoolSetting(enabled.store, worldPath + ".AntiTexturePackAndFreecam", w.antiTexturePackAndFreecam, withSave)
    requires air == IntSetting(anti.store, worldPath + ".AirGeneratorMaxChance", w.airGeneratorMaxChance, 40, 100, withSave)
    requires hiding == BoolSetting(air.store, worldPath + ".DarknessHideBlocks", w.darknessHideBlocks, withSave)
    requires darkness == BlockMatrix(ctx.codec, hiding.store, w.darknessBlocks, TableIdsOf(w.darknessBlocks),
                                     worldPath + ".DarknessBlocks", withSave)
    requires mode1 == MaterialIdSetting(ctx.codec, darkness.store, worldPath + ".Mode1Block", w.mode1BlockId, withSave)
    requires random == MaterialIdsSetting(ctx.codec, mode1.store, worldPath + ".RandomBlocks", w.randomBlocks, withSave)
    requires obfuscate == BlockMatrix(ctx.codec, random.store, w.obfuscateBlocks, TableIdsOf(w.obfuscateBlocks),
                                      worldPath + ".ObfuscateBlocks", withSave)
    ensures ReadWorldSettings(ctx, entries, worldPath, w, withSave) ==
              Read(WorldRecord(enabled.value, anti.value, air.value, hiding.value, darkness.value, mode1.value, random.value,
                               obfuscate.value, w.proximity), obfuscate.store)
  {
  }

  /** `ReadProximity` step by step: the record read is assembled from the results of the reads in order. */
  lemma ReadProximitySteps(ctx: Context, entries: Store, worldPath: string, p: ProximityRecord, withSave: bool,
                           enabled: Read<Option<bool>>, distance: Read<Option<int>>, special: Read<Option<int>>,
                           endY: Read<Option<int>>, useSpecial: Read<Option<bool>>, useEndY: Read<Option<bool>>,
                           blocks: Read<Option<seq<bool>>>)
    requires enabled == BoolSetting(entries, worldPath + ".ProximityHider" + ".Enabled", p.enabled, withSave)
    requires distance == IntSetting(enabled.store, worldPath + ".ProximityHider" + ".Distance", p.distance, 2, 64, withSave)
    requires special == MaterialIdSetting(ctx.codec, distance.store, worldPath + ".ProximityHider" + ".SpecialBlock",
                                          p.specialBlockId, withSave)
    requires endY == IntSetting(special.store, worldPath + ".ProximityHider" + ".EndY", p.endY, 0, 255, withSave)
    requires useSpecial == BoolSetting(endY.store, worldPath + ".ProximityHider" + ".UseSpecialBlock", p.useSpecialBlock,
                                       withSave)
    requires useEndY == BoolSetting(useSpecial.store, worldPath + ".ProximityHider" + ".UseEndY", p.useEndY, withSave)
    requires blocks == BlockMatrix(ctx.codec, useEndY.store, p.blocks, TableIdsOf(p.blocks),
                                   worldPath + ".ProximityHider" + ".ProximityHiderBlocks", withSave)
    ensures ReadProximity(ctx, entries, worldPath, p, withSave) ==
              Read(ProximityRecord(enabled.value, distance.value, special.value, endY.value, useSpecial.value,
                                   useEndY.value, blocks.value), blocks.store)
  {
  }

  /** Nothing lies below a path that is absent: a present sub-path makes its parent present. */
  lemma SubPathAbsent(entries: Store, path: string, suffix: string)
    requires 0 < |suffix| && suffix[0] == '.'
    ensures Present(entries, path + suffix) ==> Present(entries, path)
  {
    var p := path + suffix;
    assert p[..|path|] == path;
    if p in entries {
      assert Below(path, p);
    } else if k :| k in entries && Below(p, k) {
      assert k[..|p|][..|path|] == path;
      assert Below(path, k);
    }
  }

  /** Re-reading a table from its own id list gives the table back. */
  lemma AbsentTableKept(codec: MaterialCodec, entries: Store, t: Option<seq<bool>>, key: string)
    requires !Present(entries, key)
    ensures BlockMatrix(codec, entries, t, TableIdsOf(t), key, false) == Read(t, entries)
  {
    if t.Some? {
      TableIdsRoundTrip(t.value);
    }
  }

  /** Reading the proximity settings of a section that does not exist, without saving, changes nothing. */
  lemma {:induction false} AbsentProximityKept(ctx: Context, entries: Store, worldPath: string, p: ProximityRecord)
    requires !Present(entries, worldPath)
    requires p.distance.Some? ==> 2 <= p.distance.value <= 64
    requires p.endY.Some? ==> 0 <= p.endY.value <= 255
    ensures ReadProximity(ctx, entries, worldPath, p, false) == Read(p, entries)
  {
    var path := worldPath + ".ProximityHider";
    SubPathAbsent(entries, worldPath, ".ProximityHider");
    SubPathAbsent(entries, path, ".Enabled");
    SubPathAbsent(entries, path, ".Distance");
    SubPathAbsent(entries, path, ".SpecialBlock");
    SubPathAbsent(entries, path, ".EndY");
    SubPathAbsent(entries, path, ".UseSpecialBlock");
    SubPathAbsent(entries, path, ".UseEndY");
    SubPathAbsent(entries, path, ".ProximityHiderBlocks");
    AbsentTableKept(ctx.codec, entries, p.blocks, path + ".ProximityHiderBlocks");
  }

  /** Reading a section that does not exist, without saving, reproduces the record it starts from. */
  lemma {:induction false} AbsentSectionKept(ctx: Context, entries: Store, worldPath: string, w: WorldRecord)
    requires !Present(entries, worldPath) && Clamped(w)
    ensures ReadWorldRecord(ctx, entries, worldPath, w, false) == Read(w, entries)
  {
    SubPathAbsent(entries, worldPath, ".Enabled");
    SubPathAbsent(entries, worldPath, ".AntiTexturePackAndFreecam");
    SubPathAbsent(entries, worldPath, ".AirGeneratorMaxChance");
    SubPathAbsent(entries, worldPath, ".DarknessHideBlocks");
    SubPathAbsent(entries, worldPath, ".DarknessBlocks");
    SubPathAbsent(entries, worldPath, ".Mode1Block");
    SubPathAbsent(entries, worldPath, ".RandomBlocks");
    SubPathAbsent(entries, worldPath, ".ObfuscateBlocks");
    AbsentTableKept(ctx.codec, entries, w.darknessBlocks, worldPath + ".DarknessBlocks");
    AbsentTableKept(ctx.codec, entries, w.obfuscateBlocks, worldPath + ".ObfuscateBlocks");
    AbsentProximityKept(ctx, entries, worldPath, w.proximity);
  }

  /** `createDefaultWorld(worldPath)`: declare the section DEFAULT, then read it over the bootstrap values, saving. */
  function CreateDefault(ctx: Context, entries: Store, worldPath: string): (r: Read<WorldRecord>)
    requires ValidContext(ctx)
    ensures TablesSized(r.value) && Clamped(r.value)
  {
    var declared := Put(entries, worldPath + ".Types", Some(ListV([Label(Default)])));
    ReadWorldRecord(ctx, declared, worldPath, ctx.bootstrap, true)
  }

  /** `createNormalWorld`, `createEndWorld`, `createNetherWorld`: declare the section, save the category's
      material defaults, and return the hand-authored record. */
  function CreateFactory(ctx: Context, entries: Store, worldPath: string, t: WorldType): (r: Read<WorldRecord>)
    requires ValidContext(ctx) && t != Default
    ensures var f := FactoryOf(t);
            && r.value.mode1BlockId == Some(f.mode1)
            && r.value.randomBlocks == Some(f.random)
            && r.value.obfuscateBlocks.Some?
            && |r.value.obfuscateBlocks.value| == TableSize
            && (forall i :: 0 <= i < TableSize ==>
                  r.value.obfuscateBlocks.value[i] ==
                    (i == f.signature || (i in f.obfuscate && !IsBlockTransparent(ctx.transparent, i))))
    ensures r.value.(mode1BlockId := None, randomBlocks := None, obfuscateBlocks := None) == EmptyWorld
    ensures worldPath + ".Types" in r.store && r.store[worldPath + ".Types"] == ListV([Label(t)])
  {
    var f := FactoryOf(t);
    var declared := Put(entries, worldPath + ".Types", Some(ListV([f.typeLabel])));
    var mode1 := MaterialIdSetting(ctx.codec, declared, worldPath + ".Mode1Block", Some(f.mode1), true);
    var random := MaterialIdsSetting(ctx.codec, mode1.store, worldPath + ".RandomBlocks", Some(f.random), true);
    var obfuscate := MaterialIdsSetting(ctx.codec, random.store, worldPath + ".ObfuscateBlocks", Some(f.obfuscate), true);
    assert obfuscate.store[worldPath + ".Types"] == declared[worldPath + ".Types"];
    Read(FactoryRecord(t, ctx.transparent), obfuscate.store)
  }

  /** Every field whose path section `worldPath` leaves out has in `r` the value it has in `base`. */
  predicate AbsentInherited(entries: Store, worldPath: string, r: WorldRecord, base: WorldRecord)
  {
    var path := worldPath + ".ProximityHider";
    && (!Present(entries, worldPath + ".Enabled") ==> r.enabled == base.enabled)
    && (!Present(entries, worldPath + ".AntiTexturePackAndFreecam") ==>
          r.antiTexturePackAndFreecam == base.antiTexturePackAndFreecam)
    && (!Present(entries, worldPath + ".AirGeneratorMaxChance") ==> r.airGeneratorMaxChance == base.airGeneratorMaxChance)
    && (!Present(entries, worldPath + ".DarknessHideBlocks") ==> r.darknessHideBlocks == base.darknessHideBlocks)
    && (!Present(entries, worldPath + ".DarknessBlocks") ==> r.darknessBlocks == base.darknessBlocks)
    && (!Present(entries, worldPath + ".Mode1Block") ==> r.mode1BlockId == base.mode1BlockId)
    && (!Present(entries, worldPath + ".RandomBlocks") ==> r.randomBlocks == base.randomBlocks)
    && (!Present(entries, worldPath + ".ObfuscateBlocks") ==> r.obfuscateBlocks == base.obfuscateBlocks)
    && (!Present(entries, path + ".Enabled") ==> r.proximity.enabled == base.proximity.enabled)
    && (!Present(entries, path + ".Distance") ==> r.proximity.distance == base.proximity.distance)
    && (!Present(entries, path + ".SpecialBlock") ==> r.proximity.specialBlockId == base.proximity.specialBlockId)
    && (!Present(entries, path + ".EndY") ==> r.proximity.endY == base.proximity.endY)
    && (!Present(entries, path + ".UseSpecialBlock") ==> r.proximity.useSpecialBlock == base.proximity.useSpecialBlock)
    && (!Present(entries, path + ".UseEndY") ==> r.proximity.useEndY == base.proximity.useEndY)
    && (!Present(entries, path + ".ProximityHiderBlocks") ==> r.proximity.blocks == base.proximity.blocks)
  }

  /** A category other than Default, adopted from the first section declaring it, takes the base's value for
      every field whose path that section leaves out. */
  lemma AdoptedAbsentInherited(ctx: Context, entries: Store, keys: seq<string>, t: WorldType, base: WorldRecord, i: nat)
    requires ValidContext(ctx) && t != Default && TablesSized(base)
    requires FirstDeclaring(entries, keys, t) == Some(i)
    ensures AbsentInherited(entries, SectionPath(keys[i]), WorldByType(ctx, entries, keys, t, Some(base)).value, base)
  {
    hide ReadWorldSettings, ReadProximity, FirstDeclaring, Covers, Extends;
    var worldPath := SectionPath(keys[i]);
    var settings := ReadWorldSettings(ctx, entries, worldPath, EmptyWorld, false);
    var proximity := ReadProximity(ctx, entries, worldPath, EmptyProximity, false);
    ReadWorldRecordSteps(ctx, entries, worldPath, EmptyWorld, false, settings, proximity);
    SettingsUnsetWhereAbsent(ctx, entries, worldPath);
    ProximityUnsetWhereAbsent(ctx, entries, worldPath);
  }

  /** Reading a section's own settings over an empty record, without saving, leaves unset each one it lacks. */
  lemma SettingsUnsetWhereAbsent(ctx: Context, entries: Store, worldPath: string)
    ensures var r := ReadWorldSettings(ctx, entries, worldPath, EmptyWorld, false).value;
            && (!Present(entries, worldPath + ".Enabled") ==> r.enabled.None?)
            && (!Present(entries, worldPath + ".AntiTexturePackAndFreecam") ==> r.antiTexturePackAndFreecam.None?)
            && (!Present(entries, worldPath + ".AirGeneratorMaxChance") ==> r.airGeneratorMaxChance.None?)
            && (!Present(entries, worldPath + ".DarknessHideBlocks") ==> r.darknessHideBlocks.None?)
            && (!Present(entries, worldPath + ".DarknessBlocks") ==> r.darknessBlocks.None?)
            && (!Present(entries, worldPath + ".Mode1Block") ==> r.mode1BlockId.None?)
            && (!Present(entries, worldPath + ".RandomBlocks") ==> r.randomBlocks.None?)
            && (!Present(entries, worldPath + ".ObfuscateBlocks") ==> r.obfuscateBlocks.None?)
  {
  }

  /** Reading a section's proximity settings over an empty record, without saving, leaves unset each one it
      lacks. */
  lemma ProximityUnsetWhereAbsent(ctx: Context, entries: Store, worldPath: string)
    ensures var path := worldPath + ".ProximityHider";
            var r := ReadProximity(ctx, entries, worldPath, EmptyProximity, false).value;
            && (!Present(entries, path + ".Enabled") ==> r.enabled.None?)
            && (!Present(entries, path + ".Distance") ==> r.distance.None?)
            && (!Present(entries, path + ".SpecialBlock") ==> r.specialBlockId.None?)
            && (!Present(entries, path + ".EndY") ==> r.endY.None?)
            && (!Present(entries, path + ".UseSpecialBlock") ==> r.useSpecialBlock.None?)
            && (!Present(entries, path + ".UseEndY") ==> r.useEndY.None?)
            && (!Present(entries, path + ".ProximityHiderBlocks") ==> r.blocks.None?)
  {
  }

  /** Every field whose path section `worldPath` holds has in `r` the value stored there, read as the reader
      reads it: a boolean as stored, an integer clamped to its range, names resolved to ids or to a table; a
      name that resolves to nothing leaves the field to `base`. */
  predicate PresentOverrides(codec: MaterialCodec, entries: Store, worldPath: string, r: WorldRecord, base: WorldRecord)
  {
    var path := worldPath + ".ProximityHider";
    && (Present(entries, worldPath + ".Enabled") ==> r.enabled == Some(BoolAt(entries, worldPath + ".Enabled")))
    && (Present(entries, worldPath + ".AntiTexturePackAndFreecam") ==>
          r.antiTexturePackAndFreecam == Some(BoolAt(entries, worldPath + ".AntiTexturePackAndFreecam")))
    && (Present(entries, worldPath + ".AirGeneratorMaxChance") ==>
          r.airGeneratorMaxChance == Some(Clamp(IntAt(entries, worldPath + ".AirGeneratorMaxChance"), 40, 100)))
    && (Present(entries, worldPath + ".DarknessHideBlocks") ==>
          r.darknessHideBlocks == Some(BoolAt(entries, worldPath + ".DarknessHideBlocks")))
    && (Present(entries, worldPath + ".DarknessBlocks") ==>
          r.darknessBlocks == Or(StoredTable(codec, entries, worldPath + ".DarknessBlocks", TableSize), base.darknessBlocks))
    && (Present(entries, worldPath + ".Mode1Block") ==>
          r.mode1BlockId == Or(codec.idOf(Get(entries, worldPath + ".Mode1Block").value), base.mode1BlockId))
    && (Present(entries, worldPath + ".RandomBlocks") ==>
          r.randomBlocks == Or(codec.idsOf(Get(entries, worldPath + ".RandomBlocks").value), base.randomBlocks))
    && (Present(entries, worldPath + ".ObfuscateBlocks") ==>
          r.obfuscateBlocks == Or(StoredTable(codec, entries, worldPath + ".ObfuscateBlocks", TableSize), base.obfuscateBlocks))
    && (Present(entries, path + ".Enabled") ==> r.proximity.enabled == Some(BoolAt(entries, path + ".Enabled")))
    && (Present(entries, path + ".Distance") ==>
          r.proximity.distance == Some(Clamp(IntAt(entries, path + ".Distance"), 2, 64)))
    && (Present(entries, path + ".SpecialBlock") ==>
          r.proximity.specialBlockId ==
            Or(codec.idOf(Get(entries, path + ".SpecialBlock").value), base.proximity.specialBlockId))
    && (Present(entries, path + ".EndY") ==> r.proximity.endY == Some(Clamp(IntAt(entries, path + ".EndY"), 0, 255)))
    && (Present(entries, path + ".UseSpecialBlock") ==>
          r.proximity.useSpecialBlock == Some(BoolAt(entries, path + ".UseSpecialBlock")))
    && (Present(entries, path + ".UseEndY") ==> r.proximity.useEndY == Some(BoolAt(entries, path + ".UseEndY")))
    && (Present(entries, path + ".ProximityHiderBlocks") ==>
          r.proximity.blocks ==
            Or(StoredTable(codec, entries, path + ".ProximityHiderBlocks", TableSize), base.proximity.blocks))
  }

  /** A category other than Default, adopted from the first section declaring it, takes the section's stored
      value for every field whose path that section holds. */
  lemma AdoptedPresentOverrides(ctx: Context, entries: Store, keys: seq<string>, t: WorldType, base: WorldRecord, i: nat)
    requires ValidContext(ctx) && t != Default && TablesSized(base)
    requires FirstDeclaring(entries, keys, t) == Some(i)
    ensures PresentOverrides(ctx.codec, entries, SectionPath(keys[i]),
                             WorldByType(ctx, entries, keys, t, Some(base)).value, base)
  {
    hide ReadWorldSettings, ReadProximity, FirstDeclaring, Covers, Extends;
    var worldPath := SectionPath(keys[i]);
    var settings := ReadWorldSettings(ctx, entries, worldPath, EmptyWorld, false);
    var proximity := ReadProximity(ctx, entries, worldPath, EmptyProximity, false);
    ReadWorldRecordSteps(ctx, entries, worldPath, EmptyWorld, false, settings, proximity);
    SettingsSetWherePresent(ctx, entries, worldPath);
    ProximitySetWherePresent(ctx, entries, worldPath);
  }

  /** Reading a section's own settings over an empty record, without saving, gives each one it holds the value
      stored there. */
  lemma SettingsSetWherePresent(ctx: Context, entries: Store, worldPath: string)
    ensures var r := ReadWorldSettings(ctx, entries, worldPath, EmptyWorld, false).value;
            && (Present(entries, worldPath + ".Enabled") ==> r.enabled == Some(BoolAt(entries, worldPath + ".Enabled")))
            && (Present(entries, worldPath + ".AntiTexturePackAndFreecam") ==>
                  r.antiTexturePackAndFreecam == Some(BoolAt(entries, worldPath + ".AntiTexturePackAndFreecam")))
            && (Present(entries, worldPath + ".AirGeneratorMaxChance") ==>
                  r.airGeneratorMaxChance == Some(Clamp(IntAt(entries, worldPath + ".AirGeneratorMaxChance"), 40, 100)))
            && (Present(entries, worldPath + ".DarknessHideBlocks") ==>
                  r.darknessHideBlocks == Some(BoolAt(entries, worldPath + ".DarknessHideBlocks")))
            && (Present(entries, worldPath + ".DarknessBlocks") ==>
                  r.darknessBlocks == StoredTable(ctx.codec, entries, worldPath + ".DarknessBlocks", TableSize))
            && (Present(entries, worldPath + ".Mode1Block") ==>
                  r.mode1BlockId == ctx.codec.idOf(Get(entries, worldPath + ".Mode1Block").value))
            && (Present(entries, worldPath + ".RandomBlocks") ==>
                  r.randomBlocks == ctx.codec.idsOf(Get(entries, worldPath + ".RandomBlocks").value))
            && (Present(entries, worldPath + ".ObfuscateBlocks") ==>
                  r.obfuscateBlocks == StoredTable(ctx.codec, entries, worldPath + ".ObfuscateBlocks", TableSize))
  {
  }

  /** Reading a section's proximity settings over an empty record, without saving, gives each one it holds the
      value stored there. */
  lemma ProximitySetWherePresent(ctx: Context, entries: Store, worldPath: string)
    ensures var path := worldPath + ".ProximityHider";
            var r := ReadProximity(ctx, entries, worldPath, EmptyProximity, false).value;
            && (Present(entries, path + ".Enabled") ==> r.enabled == Some(BoolAt(entries, path + ".Enabled")))
            && (Present(entries, path + ".Distance") ==> r.distance == Some(Clamp(IntAt(entries, path + ".Distance"), 2, 64)))
            && (Present(entries, path + ".SpecialBlock") ==>
                  r.specialBlockId == ctx.codec.idOf(Get(entries, path + ".SpecialBlock").value))
            && (Present(entries, path + ".EndY") ==> r.endY == Some(Clamp(IntAt(entries, path + ".EndY"), 0, 255)))
            && (Present(entries, path + ".UseSpecialBlock") ==>
                  r.useSpecialBlock == Some(BoolAt(entries, path + ".UseSpecialBlock")))
            && (Present(entries, path + ".UseEndY") ==> r.useEndY == Some(BoolAt(entries, path + ".UseEndY")))
            && (Present(entries, path + ".ProximityHiderBlocks") ==>
                  r.blocks == StoredTable(ctx.codec, entries, path + ".ProximityHiderBlocks", TableSize))
  {
  }

  /** The key under which a missing category's section is created. */
  function SectionKey(t: WorldType): string
  {
    match t
    case Default => "Default"
    case Normal => "Normal"
    case TheEnd => "TheEnd"
    case Nether => "Nether"
  }

  /** The path of the section a key of "Worlds" names. */
  function SectionPath(key: string): string
  {
    "Worlds." + key
  }

  /** A list setting of a section ("Types" or "Names"), read without saving and without a default. */
  function SectionList(entries: Store, worldPath: string, field: string): (r: Option<seq<string>>)
    ensures r.Some? <==> Present(entries, worldPath + field)
  {
    StringListSetting(entries, worldPath + field, None, false).value
  }

  /** A section declares a category when its non-empty "Types" list names it. */
  predicate Declares(entries: Store, key: string, t: WorldType)
  {
    var types := SectionList(entries, SectionPath(key), ".Types");
    types.Some? && |types.value| > 0 && t in ParsedTypes(types.value)
  }

  /** The first key, in iteration order, whose section declares the category. */
  function FirstDeclaring(entries: Store, keys: seq<string>, t: WorldType): (r: Option<nat>)
    ensures r.Some? ==> r.value < |keys| && Declares(entries, keys[r.value], t)
    ensures r.Some? ==> forall j :: 0 <= j < r.value ==> !Declares(entries, keys[j], t)
    ensures r.None? ==> forall j :: 0 <= j < |keys| ==> !Declares(entries, keys[j], t)
  {
    if keys == [] then None
    else if Declares(entries, keys[0], t) then Some(0)
    else
      var rest := FirstDeclaring(entries, keys[1..], t);
      if rest.Some? then Some(rest.value + 1) else None
  }

  /** The record a declared section yields: Default reads over the bootstrap values and saves; any other category
      reads over an empty record without saving. */
  function AdoptedRecord(ctx: Context, entries: Store, key: string, t: WorldType): (r: Read<WorldRecord>)
    requires ValidContext(ctx)
    ensures t != Default ==> r.store == entries
    ensures TablesSized(r.value)
  {
    if t == Default then ReadWorldRecord(ctx, entries, SectionPath(key), ctx.bootstrap, true)
    else ReadWorldRecord(ctx, entries, SectionPath(key), EmptyWorld, false)
  }

  /** The record a missing category gets: the factory's, at the first free path for the category's key. */
  ghost function FallbackRecord(ctx: Context, entries: Store, t: WorldType): (r: Read<WorldRecord>)
    requires ValidContext(ctx)
    ensures TablesSized(r.value)
  {
    var worldPath := FreePath(entries, "Worlds", SectionKey(t));
    if t == Default then CreateDefault(ctx, entries, worldPath) else CreateFactory(ctx, entries, worldPath, t)
  }

  /** The record a category resolves to before the cascade: the first declaring section's, or its factory's. */
  ghost function OwnRecord(ctx: Context, entries: Store, keys: seq<string>, t: WorldType): (r: Read<WorldRecord>)
    requires ValidContext(ctx)
    ensures TablesSized(r.value)
  {
    var found := FirstDeclaring(entries, keys, t);
    if found.Some? then AdoptedRecord(ctx, entries, keys[found.value], t) else FallbackRecord(ctx, entries, t)
  }

  /** `readWorldByType(keys, worldType, baseWorld)`: adopt the first declaring section, or fall back to the
      category's factory; then cascade from the base. */
  ghost function WorldByType(ctx: Context, entries: Store, keys: seq<string>, t: WorldType, base: Option<WorldRecord>)
    : (r: Read<WorldRecord>)
    requires ValidContext(ctx)
    requires base.Some? ==> TablesSized(base.value)
    ensures TablesSized(r.value)
    ensures base.Some? ==> Covers(r.value, base.value)
    ensures base.Some? ==> Inherits(r.value, OwnRecord(ctx, entries, keys, t).value, base.value)
    ensures var found := FirstDeclaring(entries, keys, t);
            found.Some? ==> r == Read(Merge(AdoptedRecord(ctx, entries, keys[found.value], t).value, base),
                                      AdoptedRecord(ctx, entries, keys[found.value], t).store)
    ensures FirstDeclaring(entries, keys, t).Some? && t != Default ==> r.store == entries
    ensures var found := FirstDeclaring(entries, keys, t);
            found.None? ==> r == Read(Merge(FallbackRecord(ctx, entries, t).value, base), FallbackRecord(ctx, entries, t).store)
  {
    var own := OwnRecord(ctx, entries, keys, t);
    Read(Merge(own.value, base), own.store)
  }

  /** A category falling back to its factory gets the hard-coded material ids, the filtered obfuscate table with
      its signature id forced on, and a section created at a path that was free, declaring the category. */
  lemma FactoryFallback(ctx: Context, entries: Store, keys: seq<string>, t: WorldType, base: Option<WorldRecord>)
    requires ValidContext(ctx) && t != Default && (base.Some? ==> TablesSized(base.value))
    requires FirstDeclaring(entries, keys, t).None?
    ensures var r := WorldByType(ctx, entries, keys, t, base);
            var f := FactoryOf(t);
            var worldPath := FreePath(entries, "Worlds", SectionKey(t));
            && !Present(entries, worldPath)
            && r.value.mode1BlockId == Some(f.mode1)
            && r.value.randomBlocks == Some(f.random)
            && r.value.obfuscateBlocks.Some?
            && r.value.obfuscateBlocks.value[f.signature]
            && (forall i :: 0 <= i < TableSize && i != f.signature ==>
                  r.value.obfuscateBlocks.value[i] == (i in f.obfuscate && !IsBlockTransparent(ctx.transparent, i)))
            && StringListAt(r.store, worldPath + ".Types") == [Label(t)]
  {
    var own := FallbackRecord(ctx, entries, t);
    assert own.value.obfuscateBlocks.Some?;
  }

  /** The record a declared section binds its names to: read without saving over an empty record. */
  function SectionRecord(ctx: Context, entries: Store, worldPath: string): WorldRecord
  {
    ReadWorldRecord(ctx, entries, worldPath, EmptyWorld, false).value
  }

  /** The names a section binds: its "Names" list, or none when it has no list. */
  function NamesOf(entries: Store, worldPath: string): seq<string>
  {
    var names := SectionList(entries, worldPath, ".Names");
    if names.Some? then names.value else []
  }

  /** A section binds a map key when one of its names lower-cases to it. */
  predicate Binds(entries: Store, key: string, name: string)
  {
    name in LowerNames(NamesOf(entries, SectionPath(key)))
  }

  function LowerNames(names: seq<string>): (r: seq<string>)
    ensures |r| == |names| && forall i :: 0 <= i < |names| ==> r[i] == ToLower(names[i])
  {
    seq(|names|, i requires 0 <= i < |names| => ToLower(names[i]))
  }

  /** The inner loop of `readWorldsByName`: bind each lower-cased name, in list order, unless already bound. */
  function BindNames(names: seq<string>, record: WorldRecord, bound: map<string, WorldRecord>)
    : (r: map<string, WorldRecord>)
    ensures forall k :: k in bound ==> k in r && r[k] == bound[k]
    ensures forall k :: k in r <==> k in bound || k in LowerNames(names)
    ensures forall k :: k in r && k !in bound ==> r[k] == record
    decreases |names|
  {
    if names == [] then bound
    else
      var before := BindNames(names[..|names| - 1], record, bound);
      var key := ToLower(names[|names| - 1]);
      assert LowerNames(names) == LowerNames(names[..|names| - 1]) + [key];
      if key in before then before else before[key := record]
  }

  /** `BindNames` over one more name of the list. */
  lemma BindNamesStep(names: seq<string>, i: nat, record: WorldRecord, bound: map<string, WorldRecord>)
    requires i < |names|
    ensures var before := BindNames(names[..i], record, bound);
            var key := ToLower(names[i]);
            BindNames(names[..i + 1], record, bound) == if key in before then before else before[key := record]
  {
    assert names[..i + 1][..i] == names[..i];
  }

  /** `readWorldsByName(worldPath)`: a section without names binds nothing; otherwise every new name is bound
      to the section's record. The store is never written. */
  function BindSection(ctx: Context, entries: Store, worldPath: string, bound: map<string, WorldRecord>)
    : (r: map<string, WorldRecord>)
    ensures forall k :: k in bound ==> k in r && r[k] == bound[k]
    ensures forall k :: k in r <==> k in bound || k in LowerNames(NamesOf(entries, worldPath))
    ensures forall k :: k in r && k !in bound ==> r[k] == SectionRecord(ctx, entries, worldPath)
  {
    var names := SectionList(entries, worldPath, ".Names");
    if names.None? || |names.value| == 0 then bound
    else BindNames(names.value, SectionRecord(ctx, entries, worldPath), bound)
  }

  /** Some section among `keys` binds the name. */
  predicate BoundBy(entries: Store, keys: seq<string>, name: string)
  {
    exists i :: 0 <= i < |keys| && Binds(entries, keys[i], name)
  }

  lemma BoundByFirst(entries: Store, keys: seq<string>)
    requires keys != []
    ensures forall name :: BoundBy(entries, keys, name) <==> Binds(entries, keys[0], name) || BoundBy(entries, keys[1..], name)
  {
    forall name
      ensures BoundBy(entries, keys, name) <==> Binds(entries, keys[0], name) || BoundBy(entries, keys[1..], name)
    {
      if BoundBy(entries, keys, name) {
        var i :| 0 <= i < |keys| && Binds(entries, keys[i], name);
        if i > 0 {
          assert keys[1..][i - 1] == keys[i];
        }
      }
      if BoundBy(entries, keys[1..], name) {
        var i :| 0 <= i < |keys[1..]| && Binds(entries, keys[1..][i], name);
        assert keys[i + 1] == keys[1..][i];
      }
    }
  }

  /** The loop of `load` over the keys computed before any category was resolved. */
  function BindAll(ctx: Context, entries: Store, keys: seq<string>, bound: map<string, WorldRecord>)
    : (r: map<string, WorldRecord>)
    ensures forall k :: k in bound ==> k in r && r[k] == bound[k]
    ensures forall k :: k in r <==> k in bound || BoundBy(entries, keys, k)
    decreases |keys|
  {
    if keys == [] then bound
    else
      BoundByFirst(entries, keys);
      BindAll(ctx, entries, keys[1..], BindSection(ctx, entries, SectionPath(keys[0]), bound))
  }

  /** The first section to bind a name wins: the name maps to that section's record. */
  lemma {:induction false} FirstBinderWins(ctx: Context, entries: Store, keys: seq<string>, bound: map<string, WorldRecord>,
                                           name: string, i: nat)
    requires name !in bound && i < |keys| && Binds(entries, keys[i], name)
    requires forall j :: 0 <= j < i ==> !Binds(entries, keys[j], name)
    ensures name in BindAll(ctx, entries, keys, bound)
    ensures BindAll(ctx, entries, keys, bound)[name] == SectionRecord(ctx, entries, SectionPath(keys[i]))
    decreases i
  {
    hide BindSection, SectionRecord, NamesOf, BoundBy;
    var next := BindSection(ctx, entries, SectionPath(keys[0]), bound);
    assert BindAll(ctx, entries, keys, bound) == BindAll(ctx, entries, keys[1..], next);
    if i == 0 {
      assert name in next;
    } else {
      assert !Binds(entries, keys[0], name);
      assert name !in next;
      assert keys[1..][i - 1] == keys[i];
      assert forall j :: 0 <= j < i - 1 ==> keys[1..][j] == keys[j + 1];
      FirstBinderWins(ctx, entries, keys[1..], next, name, i - 1);
    }
  }

  /** What `load` resolves: the four categories and the map from world name to record. */
  datatype Resolved = Resolved(
    defaultWorld: WorldRecord,
    normalWorld: WorldRecord,
    endWorld: WorldRecord,
    netherWorld: WorldRecord,
    worlds: map<string, WorldRecord>,
    store: Store)

  /** The cascade of `load`: each of the three other categories has, field by field, its own section's value
      where that section sets one and the default category's value elsewhere.  Each own section is read from
      the store the previous category left. */
  ghost predicate Cascades(ctx: Context, entries: Store, keys: seq<string>, r: Resolved)
    requires ValidContext(ctx)
  {
    var d := WorldByType(ctx, entries, keys, Default, None);
    var n := WorldByType(ctx, d.store, keys, Normal, Some(d.value));
    var e := WorldByType(ctx, n.store, keys, TheEnd, Some(d.value));
    && Inherits(r.normalWorld, OwnRecord(ctx, d.store, keys, Normal).value, r.defaultWorld)
    && Inherits(r.endWorld, OwnRecord(ctx, n.store, keys, TheEnd).value, r.defaultWorld)
    && Inherits(r.netherWorld, OwnRecord(ctx, e.store, keys, Nether).value, r.defaultWorld)
  }

  /** The four categories of `load`: Default first, then the three others cascading from it, each reading the
      store the previous one left; no name is bound yet. */
  ghost function Categories(ctx: Context, entries: Store, keys: seq<string>): (r: Resolved)
    requires ValidContext(ctx)
    ensures Covers(r.normalWorld, r.defaultWorld) && Covers(r.endWorld, r.defaultWorld) && Covers(r.netherWorld, r.defaultWorld)
    ensures Cascades(ctx, entries, keys, r)
    ensures r.worlds == map[]
  {
    var d := WorldByType(ctx, entries, keys, Default, None);
    var n := WorldByType(ctx, d.store, keys, Normal, Some(d.value));
    var e := WorldByType(ctx, n.store, keys, TheEnd, Some(d.value));
    var h := WorldByType(ctx, e.store, keys, Nether, Some(d.value));
    Resolved(d.value, n.value, e.value, h.value, map[], h.store)
  }

  /** `Categories` as the four reads one after the other. */
  lemma CategoriesSteps(ctx: Context, entries: Store, keys: seq<string>, d: Read<WorldRecord>, n: Read<WorldRecord>,
                        e: Read<WorldRecord>, h: Read<WorldRecord>)
    requires ValidContext(ctx)
    requires d == WorldByType(ctx, entries, keys, Default, None)
    requires n == WorldByType(ctx, d.store, keys, Normal, Some(d.value))
    requires e == WorldByType(ctx, n.store, keys, TheEnd, Some(d.value))
    requires h == WorldByType(ctx, e.store, keys, Nether, Some(d.value))
    ensures Categories(ctx, entries, keys) == Resolved(d.value, n.value, e.value, h.value, map[], h.store)
  {
  }

  /** `load()`: the four categories, then the names bound by the sections listed before any of them was
      resolved, in the store the categories left. */
  ghost function Load(ctx: Context, entries: Store, keys: seq<string>): (r: Resolved)
    requires ValidContext(ctx)
    ensures Covers(r.normalWorld, r.defaultWorld) && Covers(r.endWorld, r.defaultWorld) && Covers(r.netherWorld, r.defaultWorld)
    ensures Cascades(ctx, entries, keys, r)
    ensures forall name :: name in r.worlds <==> BoundBy(r.store, keys, name)
  {
    var c := Categories(ctx, entries, keys);
    c.(worlds := BindAll(ctx, c.store, keys, map[]))
  }

  /** `Load` as the categories followed by the binding loop. */
  lemma LoadSteps(ctx: Context, entries: Store, keys: seq<string>, c: Resolved)
    requires ValidContext(ctx) && c == Categories(ctx, entries, keys)
    ensures Load(ctx, entries, keys) == c.(worlds := BindAll(ctx, c.store, keys, map[]))
  {
  }

  /** After a load, a normal category adopted from a section takes the default category's value for every
      field whose path that section leaves out. */
  lemma LoadNormalAbsentInherited(ctx: Context, entries: Store, keys: seq<string>, i: nat)
    requires ValidContext(ctx)
    requires FirstDeclaring(WorldByType(ctx, entries, keys, Default, None).store, keys, Normal) == Some(i)
    ensures var d := WorldByType(ctx, entries, keys, Default, None);
            var r := Load(ctx, entries, keys);
            AbsentInherited(d.store, SectionPath(keys[i]), r.normalWorld, r.defaultWorld)
  {
    var d := WorldByType(ctx, entries, keys, Default, None);
    LoadSteps(ctx, entries, keys, Categories(ctx, entries, keys));
    AdoptedAbsentInherited(ctx, d.store, keys, Normal, d.value, i);
  }

  /** After a load, a normal category adopted from a section takes that section's stored value for every field
      whose path the section holds. */
  lemma LoadNormalPresentOverrides(ctx: Context, entries: Store, keys: seq<string>, i: nat)
    requires ValidContext(ctx)
    requires FirstDeclaring(WorldByType(ctx, entries, keys, Default, None).store, keys, Normal) == Some(i)
    ensures var d := WorldByType(ctx, entries, keys, Default, None);
            var r := Load(ctx, entries, keys);
            PresentOverrides(ctx.codec, d.store, SectionPath(keys[i]), r.normalWorld, r.defaultWorld)
  {
    var d := WorldByType(ctx, entries, keys, Default, None);
    LoadSteps(ctx, entries, keys, Categories(ctx, entries, keys));
    AdoptedPresentOverrides(ctx, d.store, keys, Normal, d.value, i);
  }

  /** After a load, a world name maps to the record of the first listed section that binds it. */
  lemma LoadFirstBinderWins(ctx: Context, entries: Store, keys: seq<string>, name: string, i: nat)
    requires ValidContext(ctx)
    requires i < |keys| && Binds(Load(ctx, entries, keys).store, keys[i], name)
    requires forall j :: 0 <= j < i ==> !Binds(Load(ctx, entries, keys).store, keys[j], name)
    ensures var r := Load(ctx, entries, keys);
            name in r.worlds && r.worlds[name] == SectionRecord(ctx, r.store, SectionPath(keys[i]))
  {
    FirstBinderWins(ctx, Load(ctx, entries, keys).store, keys, map[], name, i);
  }
}
