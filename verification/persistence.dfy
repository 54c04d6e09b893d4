/**
 * What the saving reads leave in the store.  A section created for a missing
 * category gets its fallback values written back: the bootstrap values for
 * the default category, the material defaults for the three others.
 */
module Persistence {
  import opened ConfigStore
  import opened Settings
  import opened Materials
  import opened BlockTables
  import opened Paths
  import opened WorldTypes
  import opened Records
  import opened Resolution

  /** A setting name: a dot followed by a name with no dot in it. */
  predicate Leaf(s: string)
  {
    |s| > 1 && s[0] == '.' && forall i :: 1 <= i < |s| ==> s[i] != '.'
  }

  /** Setting names, all different. */
  predicate Apart(names: seq<string>)
  {
    && (forall i :: 0 <= i < |names| ==> Leaf(names[i]))
    && (forall i, j :: 0 <= i < j < |names| ==> names[i] != names[j])
  }

  /** The entries a created section gets, in the order they are written: its `Types`, the settings `readWorld`
      reads itself, and last the part holding the proximity settings. */
  const SectionEntries: seq<string> := [".Types", ".Enabled", ".AntiTexturePackAndFreecam", ".AirGeneratorMaxChance",
    ".DarknessHideBlocks", ".DarknessBlocks", ".Mode1Block", ".RandomBlocks", ".ObfuscateBlocks", ".ProximityHider"]

  /** The proximity settings, in the order `readProximityHider` reads them. */
  const ProximityEntries: seq<string> := [".Enabled", ".Distance", ".SpecialBlock", ".EndY", ".UseSpecialBlock",
    ".UseEndY", ".ProximityHiderBlocks"]

  /** The entries a factory writes, in order. */
  const FactoryEntries: seq<string> := [".Types", ".Mode1Block", ".RandomBlocks", ".ObfuscateBlocks"]

  /** Every list above names different settings. */
  lemma EntriesApart()
    ensures Apart(SectionEntries) && Apart(ProximityEntries) && Apart(FactoryEntries)
  {
    SectionEntriesApart();
    ProximityEntriesApart();
    FactoryEntriesApart();
  }

  lemma SectionEntriesApart()
    ensures Apart(SectionEntries)
  {
    var names := SectionEntries;
    forall i | 0 <= i < |names|
      ensures Leaf(names[i])
    {
    }
    forall i, j | 0 <= i < j < |names|
      ensures names[i] != names[j]
    {
      if |names[i]| == |names[j]| {
        assert names[i][1] != names[j][1] || names[i][2] != names[j][2];
      }
    }
  }

  lemma ProximityEntriesApart()
    ensures Apart(ProximityEntries)
  {
    var names := ProximityEntries;
    forall i | 0 <= i < |names|
      ensures Leaf(names[i])
    {
    }
    forall i, j | 0 <= i < j < |names|
      ensures names[i] != names[j]
    {
      if |names[i]| == |names[j]| {
        assert names[i][1] != names[j][1];
      }
    }
  }

  lemma FactoryEntriesApart()
    ensures Apart(FactoryEntries)
  {
  }

  /** Two different settings of one section are different paths, and neither lies below the other. */
  lemma LeavesApart(w: string, p: string, q: string)
    requires Leaf(p) && Leaf(q) && p != q
    ensures w + p != w + q && !Below(w + p, w + q)
  {
    assert (w + p)[|w|..] == p;
    assert (w + q)[|w|..] == q;
  }

  /** The settings of section `w` named from position `k` of `names` on are all absent. */
  ghost predicate FreshFrom(st: Store, w: string, names: seq<string>, k: nat)
  {
    forall j :: k <= j < |names| ==> !Present(st, w + names[j])
  }

  /** A section that is absent has none of its settings. */
  lemma AbsentSectionFresh(st: Store, w: string, names: seq<string>)
    requires !Present(st, w) && Apart(names)
    ensures FreshFrom(st, w, names, 0)
  {
    forall j | 0 <= j < |names|
      ensures !Present(st, w + names[j])
    {
      SubPathAbsent(st, w, names[j]);
    }
  }

  /** The `k`th setting is absent from a section fresh from `k` on. */
  lemma FreshAt(st: Store, w: string, names: seq<string>, k: nat)
    requires k < |names| && FreshFrom(st, w, names, k)
    ensures !Present(st, w + names[k])
  {
  }

  /** A store that gains no key but the `k`th setting keeps absent the settings named after it. */
  lemma FreshStep(st: Store, st2: Store, w: string, names: seq<string>, k: nat)
    requires Apart(names) && k < |names| && FreshFrom(st, w, names, k)
    requires forall key :: key in st2 ==> key in st || key == w + names[k]
    ensures FreshFrom(st2, w, names, k + 1)
  {
    forall j | k + 1 <= j < |names|
      ensures !Present(st2, w + names[j])
    {
      LeavesApart(w, names[j], names[k]);
    }
  }

  /** `st2` keeps every entry of `st` and adds none but `key`, which `st` lacks. */
  ghost predicate Grows(st: Store, st2: Store, key: string)
  {
    && key !in st
    && (forall k :: k in st2 ==> k in st || k == key)
    && (forall k :: k in st ==> k in st2 && st2[k] == st[k])
  }

  /** `st2` keeps every entry of `st`. */
  ghost predicate Retains(st: Store, st2: Store)
  {
    forall k :: k in st ==> k in st2 && st2[k] == st[k]
  }

  /** A value to be stored, if there is one, is stored at the path. */
  predicate Holds(st: Store, path: string, v: Option<Value>)
  {
    v.Some? ==> path in st && st[path] == v.value
  }
  /** Retaining entries is transitive. */
  lemma RetainsTrans(a: Store, b: Store, c: Store)
    requires Retains(a, b) && Retains(b, c)
    ensures Retains(a, c)
  {
  }

  /** A stored value survives into a store that retains its entries. */
  lemma HoldsRetained(a: Store, b: Store, path: string, v: Option<Value>)
    requires Holds(a, path, v) && Retains(a, b)
    ensures Holds(b, path, v)
  {
  }


  /** The stored form of a material id. */
  function IdValue(codec: MaterialCodec, id: Option<int>): Option<Value>
  {
    if id.Some? then Some(codec.entryOf(id.value)) else None
  }

  /** The stored form of a list of material ids. */
  function IdsValue(codec: MaterialCodec, ids: Option<seq<int>>): Option<Value>
  {
    if ids.Some? then Some(codec.entriesOf(ids.value)) else None
  }

  /** A saving boolean read of an absent path returns the default and writes it, and nothing else. */
  lemma SavedBool(st: Store, path: string, d: Option<bool>)
    requires !Present(st, path)
    ensures var r := BoolSetting(st, path, d, true);
            r.value == d && Holds(r.store, path, BoolValue(d)) && Grows(st, r.store, path)
  {
    if d.None? {
      assert st - {path} == st;
    }
  }

  /** A saving integer read of an absent path returns a default within range and writes it, and nothing else. */
  lemma SavedInt(st: Store, path: string, d: Option<int>, min: int, max: int)
    requires !Present(st, path)
    requires d.Some? ==> min <= d.value <= max
    ensures var r := IntSetting(st, path, d, min, max, true);
            r.value == d && Holds(r.store, path, IntValue(d)) && Grows(st, r.store, path)
  {
    if d.None? {
      assert st - {path} == st;
    }
  }

  /** A saving material read of an absent path returns the default and writes its name, and nothing else. */
  lemma SavedId(codec: MaterialCodec, st: Store, path: string, d: Option<int>)
    requires !Present(st, path)
    ensures var r := MaterialIdSetting(codec, st, path, d, true);
            r.value == d && Holds(r.store, path, IdValue(codec, d)) && Grows(st, r.store, path)
  {
  }

  /** A saving material-list read of an absent path returns the default and writes its names, and nothing
      else. */
  lemma SavedIds(codec: MaterialCodec, st: Store, path: string, d: Option<seq<int>>)
    requires !Present(st, path)
    ensures var r := MaterialIdsSetting(codec, st, path, d, true);
            r.value == d && Holds(r.store, path, IdsValue(codec, d)) && Grows(st, r.store, path)
  {
  }

  /** A saving table read of an absent path gives the table back and writes its ids, and nothing else. */
  lemma SavedTable(codec: MaterialCodec, st: Store, path: string, t: Option<seq<bool>>)
    requires !Present(st, path)
    ensures var r := BlockMatrix(codec, st, t, TableIdsOf(t), path, true);
            r.value == t && Holds(r.store, path, IdsValue(codec, TableIdsOf(t))) && Grows(st, r.store, path)
  {
    if t.Some? {
      TableIdsRoundTrip(t.value);
    }
  }

  /** One saving boolean read of the `k`th setting of a section: it is written, and the later ones stay absent. */
  lemma BoolStep(st: Store, w: string, names: seq<string>, k: nat, d: Option<bool>)
    requires Apart(names) && k < |names| && FreshFrom(st, w, names, k)
    ensures var r := BoolSetting(st, w + names[k], d, true);
            && r.value == d && Holds(r.store, w + names[k], BoolValue(d)) && Retains(st, r.store)
            && FreshFrom(r.store, w, names, k + 1)
  {
    SavedBool(st, w + names[k], d);
    FreshStep(st, BoolSetting(st, w + names[k], d, true).store, w, names, k);
  }

  /** One saving integer read of the `k`th setting of a section, of a default within range. */
  lemma IntStep(st: Store, w: string, names: seq<string>, k: nat, d: Option<int>, min: int, max: int)
    requires Apart(names) && k < |names| && FreshFrom(st, w, names, k)
    requires d.Some? ==> min <= d.value <= max
    ensures var r := IntSetting(st, w + names[k], d, min, max, true);
            && r.value == d && Holds(r.store, w + names[k], IntValue(d)) && Retains(st, r.store)
            && FreshFrom(r.store, w, names, k + 1)
  {
    SavedInt(st, w + names[k], d, min, max);
    FreshStep(st, IntSetting(st, w + names[k], d, min, max, true).store, w, names, k);
  }

  /** One saving material read of the `k`th setting of a section. */
  lemma IdStep(codec: MaterialCodec, st: Store, w: string, names: seq<string>, k: nat, d: Option<int>)
    requires Apart(names) && k < |names| && FreshFrom(st, w, names, k)
    ensures var r := MaterialIdSetting(codec, st, w + names[k], d, true);
            && r.value == d && Holds(r.store, w + names[k], IdValue(codec, d)) && Retains(st, r.store)
            && FreshFrom(r.store, w, names, k + 1)
  {
    SavedId(codec, st, w + names[k], d);
    FreshStep(st, MaterialIdSetting(codec, st, w + names[k], d, true).store, w, names, k);
  }

  /** One saving material-list read of the `k`th setting of a section. */
  lemma IdsStep(codec: MaterialCodec, st: Store, w: string, names: seq<string>, k: nat, d: Option<seq<int>>)
    requires Apart(names) && k < |names| && FreshFrom(st, w, names, k)
    ensures var r := MaterialIdsSetting(codec, st, w + names[k], d, true);
            && r.value == d && Holds(r.store, w + names[k], IdsValue(codec, d)) && Retains(st, r.store)
            && FreshFrom(r.store, w, names, k + 1)
  {
    SavedIds(codec, st, w + names[k], d);
    FreshStep(st, MaterialIdsSetting(codec, st, w + names[k], d, true).store, w, names, k);
  }

  /** One saving table read of the `k`th setting of a section. */
  lemma TableStep(codec: MaterialCodec, st: Store, w: string, names: seq<string>, k: nat, t: Option<seq<bool>>)
    requires Apart(names) && k < |names| && FreshFrom(st, w, names, k)
    ensures var r := BlockMatrix(codec, st, t, TableIdsOf(t), w + names[k], true);
            && r.value == t && Holds(r.store, w + names[k], IdsValue(codec, TableIdsOf(t))) && Retains(st, r.store)
            && FreshFrom(r.store, w, names, k + 1)
  {
    SavedTable(codec, st, w + names[k], t);
    FreshStep(st, BlockMatrix(codec, st, t, TableIdsOf(t), w + names[k], true).store, w, names, k);
  }

  /** Each of the eight settings `readWorld` reads itself holds the stored form of `w`'s value. */
  ghost predicate SettingsSaved(codec: MaterialCodec, st: Store, worldPath: string, w: WorldRecord)
  {
    && Holds(st, worldPath + ".Enabled", BoolValue(w.enabled))
    && Holds(st, worldPath + ".AntiTexturePackAndFreecam", BoolValue(w.antiTexturePackAndFreecam))
    && Holds(st, worldPath + ".AirGeneratorMaxChance", IntValue(w.airGeneratorMaxChance))
    && Holds(st, worldPath + ".DarknessHideBlocks", BoolValue(w.darknessHideBlocks))
    && Holds(st, worldPath + ".DarknessBlocks", IdsValue(codec, TableIdsOf(w.darknessBlocks)))
    && Holds(st, worldPath + ".Mode1Block", IdValue(codec, w.mode1BlockId))
    && Holds(st, worldPath + ".RandomBlocks", IdsValue(codec, w.randomBlocks))
    && Holds(st, worldPath + ".ObfuscateBlocks", IdsValue(codec, TableIdsOf(w.obfuscateBlocks)))
  }

  /** Each of the seven proximity settings holds the stored form of `p`'s value. */
  ghost predicate ProximitySaved(codec: MaterialCodec, st: Store, worldPath: string, p: ProximityRecord)
  {
    var path := worldPath + ".ProximityHider";
    && Holds(st, path + ".Enabled", BoolValue(p.enabled))
    && Holds(st, path + ".Distance", IntValue(p.distance))
    && Holds(st, path + ".SpecialBlock", IdValue(codec, p.specialBlockId))
    && Holds(st, path + ".EndY", IntValue(p.endY))
    && Holds(st, path + ".UseSpecialBlock", BoolValue(p.useSpecialBlock))
    && Holds(st, path + ".UseEndY", BoolValue(p.useEndY))
    && Holds(st, path + ".ProximityHiderBlocks", IdsValue(codec, TableIdsOf(p.blocks)))
  }

  /** Reading with saving the own settings of a section that has only its `Types` entry writes every one of
      them back and returns them unchanged. */
  lemma {:induction false} SettingsWritten(ctx: Context, st: Store, worldPath: string, w: WorldRecord)
    requires FreshFrom(st, worldPath, SectionEntries, 1) && Clamped(w)
    ensures var r := ReadWorldSettings(ctx, st, worldPath, w, true);
            && r.value == w
            && SettingsSaved(ctx.codec, r.store, worldPath, w)
            && Retains(st, r.store)
            && !Present(r.store, worldPath + ".ProximityHider")
  {
    hide ReadWorldSettings;
    EntriesApart();
    hide FreshFrom, Apart, Retains, Holds, Present, BoolSetting, IntSetting, MaterialIdSetting, MaterialIdsSetting,
         BlockMatrix;
    var names := SectionEntries;
    var enabled := BoolSetting(st, worldPath + ".Enabled", w.enabled, true);
    BoolStep(st, worldPath, names, 1, w.enabled);
    var anti := BoolSetting(enabled.store, worldPath + ".AntiTexturePackAndFreecam", w.antiTexturePackAndFreecam, true);
    BoolStep(enabled.store, worldPath, names, 2, w.antiTexturePackAndFreecam);
    var air := IntSetting(anti.store, worldPath + ".AirGeneratorMaxChance", w.airGeneratorMaxChance, 40, 100, true);
    IntStep(anti.store, worldPath, names, 3, w.airGeneratorMaxChance, 40, 100);
    var hiding := BoolSetting(air.store, worldPath + ".DarknessHideBlocks", w.darknessHideBlocks, true);
    BoolStep(air.store, worldPath, names, 4, w.darknessHideBlocks);
    var darkness := BlockMatrix(ctx.codec, hiding.store, w.darknessBlocks, TableIdsOf(w.darknessBlocks),
                                worldPath + ".DarknessBlocks", true);
    TableStep(ctx.codec, hiding.store, worldPath, names, 5, w.darknessBlocks);
    var mode1 := MaterialIdSetting(ctx.codec, darkness.store, worldPath + ".Mode1Block", w.mode1BlockId, true);
    IdStep(ctx.codec, darkness.store, worldPath, names, 6, w.mode1BlockId);
    var random := MaterialIdsSetting(ctx.codec, mode1.store, worldPath + ".RandomBlocks", w.randomBlocks, true);
    IdsStep(ctx.codec, mode1.store, worldPath, names, 7, w.randomBlocks);
    var obfuscate := BlockMatrix(ctx.codec, random.store, w.obfuscateBlocks, TableIdsOf(w.obfuscateBlocks),
                                 worldPath + ".ObfuscateBlocks", true);
    TableStep(ctx.codec, random.store, worldPath, names, 8, w.obfuscateBlocks);
    FreshAt(obfuscate.store, worldPath, names, 9);
    RetainsTrans(mode1.store, random.store, obfuscate.store);
    RetainsTrans(darkness.store, mode1.store, obfuscate.store);
    RetainsTrans(hiding.store, darkness.store, obfuscate.store);
    RetainsTrans(air.store, hiding.store, obfuscate.store);
    RetainsTrans(anti.store, air.store, obfuscate.store);
    RetainsTrans(enabled.store, anti.store, obfuscate.store);
    RetainsTrans(st, enabled.store, obfuscate.store);
    HoldsRetained(enabled.store, obfuscate.store, worldPath + ".Enabled", BoolValue(w.enabled));
    HoldsRetained(anti.store, obfuscate.store, worldPath + ".AntiTexturePackAndFreecam",
                  BoolValue(w.antiTexturePackAndFreecam));
    HoldsRetained(air.store, obfuscate.store, worldPath + ".AirGeneratorMaxChance", IntValue(w.airGeneratorMaxChance));
    HoldsRetained(hiding.store, obfuscate.store, worldPath + ".DarknessHideBlocks", BoolValue(w.darknessHideBlocks));
    HoldsRetained(darkness.store, obfuscate.store, worldPath + ".DarknessBlocks",
                  IdsValue(ctx.codec, TableIdsOf(w.darknessBlocks)));
    HoldsRetained(mode1.store, obfuscate.store, worldPath + ".Mode1Block", IdValue(ctx.codec, w.mode1BlockId));
    HoldsRetained(random.store, obfuscate.store, worldPath + ".RandomBlocks", IdsValue(ctx.codec, w.randomBlocks));
    ReadWorldSettingsSteps(ctx, st, worldPath, w, true, enabled, anti, air, hiding, darkness, mode1, random, obfuscate);
  }

  /** Reading with saving the proximity settings of a section without a `ProximityHider` part writes every one
      of them back and returns them unchanged. */
  lemma {:induction false} ProximityWritten(ctx: Context, st: Store, worldPath: string, p: ProximityRecord)
    requires !Present(st, worldPath + ".ProximityHider")
    requires p.distance.Some? ==> 2 <= p.distance.value <= 64
    requires p.endY.Some? ==> 0 <= p.endY.value <= 255
    ensures var r := ReadProximity(ctx, st, worldPath, p, true);
            r.value == p && ProximitySaved(ctx.codec, r.store, worldPath, p) && Retains(st, r.store)
  {
    hide ReadProximity;
    EntriesApart();
    var path := worldPath + ".ProximityHider";
    AbsentSectionFresh(st, path, ProximityEntries);
    hide FreshFrom, Apart, Retains, Holds, Present, BoolSetting, IntSetting, MaterialIdSetting, MaterialIdsSetting,
         BlockMatrix;
    var names := ProximityEntries;
    var enabled := BoolSetting(st, path + ".Enabled", p.enabled, true);
    BoolStep(st, path, names, 0, p.enabled);
    var distance := IntSetting(enabled.store, path + ".Distance", p.distance, 2, 64, true);
    IntStep(enabled.store, path, names, 1, p.distance, 2, 64);
    var special := MaterialIdSetting(ctx.codec, distance.store, path + ".SpecialBlock", p.specialBlockId, true);
    IdStep(ctx.codec, distance.store, path, names, 2, p.specialBlockId);
    var endY := IntSetting(special.store, path + ".EndY", p.endY, 0, 255, true);
    IntStep(special.store, path, names, 3, p.endY, 0, 255);
    var useSpecial := BoolSetting(endY.store, path + ".UseSpecialBlock", p.useSpecialBlock, true);
    BoolStep(endY.store, path, names, 4, p.useSpecialBlock);
    var useEndY := BoolSetting(useSpecial.store, path + ".UseEndY", p.useEndY, true);
    BoolStep(useSpecial.store, path, names, 5, p.useEndY);
    var blocks := BlockMatrix(ctx.codec, useEndY.store, p.blocks, TableIdsOf(p.blocks), path + ".ProximityHiderBlocks",
                              true);
    TableStep(ctx.codec, useEndY.store, path, names, 6, p.blocks);
    RetainsTrans(useSpecial.store, useEndY.store, blocks.store);
    RetainsTrans(endY.store, useSpecial.store, blocks.store);
    RetainsTrans(special.store, endY.store, blocks.store);
    RetainsTrans(distance.store, special.store, blocks.store);
    RetainsTrans(enabled.store, distance.store, blocks.store);
    RetainsTrans(st, enabled.store, blocks.store);
    HoldsRetained(enabled.store, blocks.store, path + ".Enabled", BoolValue(p.enabled));
    HoldsRetained(distance.store, blocks.store, path + ".Distance", IntValue(p.distance));
    HoldsRetained(special.store, blocks.store, path + ".SpecialBlock", IdValue(ctx.codec, p.specialBlockId));
    HoldsRetained(endY.store, blocks.store, path + ".EndY", IntValue(p.endY));
    HoldsRetained(useSpecial.store, blocks.store, path + ".UseSpecialBlock", BoolValue(p.useSpecialBlock));
    HoldsRetained(useEndY.store, blocks.store, path + ".UseEndY", BoolValue(p.useEndY));
    ReadProximitySteps(ctx, st, worldPath, p, true, enabled, distance, special, endY, useSpecial, useEndY, blocks);
  }

  /** `createDefaultWorld` on a path that is not yet in the store returns the bootstrap record, declares the
      section DEFAULT, and writes every bootstrap value that is set back under the section. */
  lemma {:induction false} DefaultPersisted(ctx: Context, entries: Store, worldPath: string)
    requires ValidContext(ctx) && !Present(entries, worldPath) && Clamped(ctx.bootstrap)
    ensures var r := CreateDefault(ctx, entries, worldPath);
            && r.value == ctx.bootstrap
            && worldPath + ".Types" in r.store && r.store[worldPath + ".Types"] == ListV([Label(Default)])
            && SettingsSaved(ctx.codec, r.store, worldPath, ctx.bootstrap)
            && ProximitySaved(ctx.codec, r.store, worldPath, ctx.bootstrap.proximity)
  {
    hide ReadWorldSettings, ReadProximity;
    EntriesApart();
    var w := ctx.bootstrap;
    var declared := Put(entries, worldPath + ".Types", Some(ListV([Label(Default)])));
    AbsentSectionFresh(entries, worldPath, SectionEntries);
    FreshStep(entries, declared, worldPath, SectionEntries, 0);
    SettingsWritten(ctx, declared, worldPath, w);
    var settings := ReadWorldSettings(ctx, declared, worldPath, w, true);
    ProximityWritten(ctx, settings.store, worldPath, w.proximity);
    var proximity := ReadProximity(ctx, settings.store, worldPath, w.proximity, true);
    ReadWorldRecordSteps(ctx, declared, worldPath, w, true, settings, proximity);
  }

  /** `createNormalWorld`, `createEndWorld` and `createNetherWorld` on a path that is not yet in the store
      write the category's mode-1 block, random blocks and obfuscated blocks under the new section. */
  lemma {:induction false} FactoryPersisted(ctx: Context, entries: Store, worldPath: string, t: WorldType)
    requires ValidContext(ctx) && t != Default && !Present(entries, worldPath)
    ensures var r := CreateFactory(ctx, entries, worldPath, t);
            var f := FactoryOf(t);
            && Holds(r.store, worldPath + ".Mode1Block", Some(ctx.codec.entryOf(f.mode1)))
            && Holds(r.store, worldPath + ".RandomBlocks", Some(ctx.codec.entriesOf(f.random)))
            && Holds(r.store, worldPath + ".ObfuscateBlocks", Some(ctx.codec.entriesOf(f.obfuscate)))
  {
    EntriesApart();
    hide FreshFrom, Apart, MaterialIdSetting, MaterialIdsSetting;
    var names := FactoryEntries;
    var f := FactoryOf(t);
    var declared := Put(entries, worldPath + ".Types", Some(ListV([f.typeLabel])));
    AbsentSectionFresh(entries, worldPath, names);
    FreshStep(entries, declared, worldPath, names, 0);
    var mode1 := MaterialIdSetting(ctx.codec, declared, worldPath + ".Mode1Block", Some(f.mode1), true);
    IdStep(ctx.codec, declared, worldPath, names, 1, Some(f.mode1));
    var random := MaterialIdsSetting(ctx.codec, mode1.store, worldPath + ".RandomBlocks", Some(f.random), true);
    IdsStep(ctx.codec, mode1.store, worldPath, names, 2, Some(f.random));
    IdsStep(ctx.codec, random.store, worldPath, names, 3, Some(f.obfuscate));
  }

  /** When no section declares the default category, `load` creates one and the default category is exactly
      the bootstrap record, written back under the new section. */
  lemma DefaultFallbackPersisted(ctx: Context, entries: Store, keys: seq<string>)
    requires ValidContext(ctx) && Clamped(ctx.bootstrap)
    requires FirstDeclaring(entries, keys, Default).None?
    ensures var r := WorldByType(ctx, entries, keys, Default, None);
            var worldPath := FreePath(entries, "Worlds", SectionKey(Default));
            && r.value == ctx.bootstrap
            && SettingsSaved(ctx.codec, r.store, worldPath, ctx.bootstrap)
            && ProximitySaved(ctx.codec, r.store, worldPath, ctx.bootstrap.proximity)
  {
    DefaultPersisted(ctx, entries, FreePath(entries, "Worlds", SectionKey(Default)));
  }
}
