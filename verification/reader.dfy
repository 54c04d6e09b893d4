/**
 * The world reader itself: reads the "Worlds" section of the configuration
 * into the four category configurations and the per-name map, writing
 * defaults back where it is asked to.  Every method is proved against the
 * value-level function of module Resolution that describes it.
 */
module Reader {
  import opened ConfigStore
  import opened Settings
  import opened Materials
  import opened BlockTables
  import opened Paths
  import opened WorldTypes
  import opened Records
  import opened WorldConfigs
  import opened Resolution

  class WorldReader {
    const config: Configuration
    const materialReader: MaterialReader
    /** The values `setDefaults()` installs. */
    const bootstrap: WorldRecord

    var transparentBlocks: seq<bool>
    var defaultWorld: WorldConfig?
    var normalWorld: WorldConfig?
    var endWorld: WorldConfig?
    var netherWorld: WorldConfig?
    var worlds: map<string, WorldConfig>

    /** The material reader works on this reader's configuration, and the tables have 256 slots. */
    ghost predicate Valid()
      reads this`transparentBlocks
    {
      materialReader.config == config && |transparentBlocks| == TableSize && TablesSized(bootstrap)
    }

    function Ctx(): Context
      reads this`transparentBlocks
    {
      Context(materialReader.codec, transparentBlocks, bootstrap)
    }

    constructor (config: Configuration, materialReader: MaterialReader, bootstrap: WorldRecord)
      requires materialReader.config == config && TablesSized(bootstrap)
      ensures this.config == config && this.materialReader == materialReader && this.bootstrap == bootstrap
      ensures defaultWorld == null && worlds == map[]
    {
      this.config := config;
      this.materialReader := materialReader;
      this.bootstrap := bootstrap;
      transparentBlocks := seq(TableSize, _ => false);
      defaultWorld, normalWorld, endWorld, netherWorld := null, null, null, null;
      worlds := map[];
    }

    /** `getInt(path, defaultData, min, max, withSave)`. */
    method GetInt(path: string, default: Option<int>, min: int, max: int, withSave: bool) returns (value: Option<int>)
      modifies config
      ensures Read(value, config.entries) == IntSetting(old(config.entries), path, default, min, max, withSave)
    {
      if !Present(config.entries, path) && withSave {
        config.Set(path, IntValue(default));
      }
      value := if Present(config.entries, path) then Some(IntAt(config.entries, path)) else default;
      if value.Some? {
        if value.value < min {
          value := Some(min);
        } else if value.value > max {
          value := Some(max);
        }
      }
    }

    /** `getBoolean(path, defaultData, withSave)`. */
    method GetBoolean(path: string, default: Option<bool>, withSave: bool) returns (value: Option<bool>)
      modifies config
      ensures Read(value, config.entries) == BoolSetting(old(config.entries), path, default, withSave)
    {
      if !Present(config.entries, path) {
        if !withSave {
          return default;
        }
        config.Set(path, BoolValue(default));
      }
      value := if Present(config.entries, path) then Some(BoolAt(config.entries, path)) else default;
    }

    /** `getStringList(path, defaultData, withSave)`. */
    method GetStringList(path: string, default: Option<seq<string>>, withSave: bool) returns (value: Option<seq<string>>)
      modifies config
      ensures Read(value, config.entries) == StringListSetting(old(config.entries), path, default, withSave)
    {
      if !Present(config.entries, path) {
        if !withSave {
          return default;
        }
        config.Set(path, ListValue(default));
      }
      value := Some(StringListAt(config.entries, path));
    }

    /** `readBlockMatrix(original, defaultBlockIds, configKey, withSave)`: the caller's array is overwritten in
        place, a 256-slot array is allocated only when there is none, and nothing changes when no ids resolve. */
    method ReadBlockMatrix(original: array?<bool>, defaultIds: Option<seq<int>>, key: string, withSave: bool)
      returns (blocks: array?<bool>)
      requires Valid()
      modifies config, original
      ensures Read(TableOf(blocks), config.entries) ==
                BlockMatrix(materialReader.codec, old(config.entries), old(TableOf(original)), defaultIds, key, withSave)
      ensures original != null ==> blocks == original
      ensures original == null && blocks != null ==> fresh(blocks) && blocks.Length == TableSize
    {
      blocks := original;
      var blockIds := materialReader.GetMaterialIdsByPath(key, defaultIds, withSave);
      if blockIds.Some? {
        if blocks == null {
          blocks := new bool[TableSize];
        }
        SetBlockValues(blocks, blockIds.value);
      }
    }

    /** `readProximityHider(worldPath, worldConfig, withSave)`. */
    method ReadProximityHider(worldPath: string, world: WorldConfig, withSave: bool)
      requires Valid()
      modifies config, world.proximityHiderConfig, world.proximityHiderConfig.proximityHiderBlocks
      ensures Read(world.proximityHiderConfig.Snapshot(), config.entries) ==
                ReadProximity(Ctx(), old(config.entries), worldPath, old(world.proximityHiderConfig.Snapshot()), withSave)
      ensures var p := world.proximityHiderConfig.proximityHiderBlocks;
              p == old(world.proximityHiderConfig.proximityHiderBlocks) || (fresh(p) && p.Length == TableSize)
    {
      hide ReadProximity, BlockMatrix, BoolSetting, IntSetting, MaterialIdSetting, MaterialIdsSetting;
      var cfg := world.proximityHiderConfig;
      ghost var p, e, ctx := cfg.Snapshot(), config.entries, Ctx();
      var sectionPath := worldPath + ".ProximityHider";
      var enabled := GetBoolean(sectionPath + ".Enabled", cfg.enabled, withSave);
      ghost var e1 := config.entries;
      var distance := GetInt(sectionPath + ".Distance", cfg.distance, 2, 64, withSave);
      ghost var e2 := config.entries;
      var specialBlockId := materialReader.GetMaterialIdByPath(sectionPath + ".SpecialBlock", cfg.specialBlockId, withSave);
      ghost var e3 := config.entries;
      var endY := GetInt(sectionPath + ".EndY", cfg.endY, 0, 255, withSave);
      ghost var e4 := config.entries;
      var useSpecialBlock := GetBoolean(sectionPath + ".UseSpecialBlock", cfg.useSpecialBlock, withSave);
      ghost var e5 := config.entries;
      var useYLocationProximity := GetBoolean(sectionPath + ".UseEndY", cfg.useYLocationProximity, withSave);
      ghost var e6 := config.entries;
      var proximityHiderBlocks := ReadBlockMatrix(cfg.proximityHiderBlocks, BlockIdsOf(cfg.proximityHiderBlocks),
                                                  sectionPath + ".ProximityHiderBlocks", withSave);
      ReadProximitySteps(ctx, e, worldPath, p, withSave, Read(enabled, e1), Read(distance, e2), Read(specialBlockId, e3),
                         Read(endY, e4), Read(useSpecialBlock, e5), Read(useYLocationProximity, e6),
                         Read(TableOf(proximityHiderBlocks), config.entries));
      cfg.enabled, cfg.distance, cfg.specialBlockId, cfg.endY := enabled, distance, specialBlockId, endY;
      cfg.useSpecialBlock, cfg.useYLocationProximity := useSpecialBlock, useYLocationProximity;
      cfg.proximityHiderBlocks := proximityHiderBlocks;
    }

    /** The eight settings `readWorld` reads before the proximity settings; the tables are updated in place. */
    method ReadSettings(worldPath: string, world: WorldConfig, withSave: bool)
      returns (enabled: Option<bool>, antiTexturePackAndFreecam: Option<bool>, airGeneratorMaxChance: Option<int>,
               darknessHideBlocks: Option<bool>, darknessBlocks: array?<bool>, mode1Block: Option<int>,
               randomBlocks: Option<seq<int>>, obfuscateBlocks: array?<bool>)
      requires Valid() && world.Valid()
      modifies config, world.darknessBlocks, world.obfuscateBlocks
      ensures darknessBlocks == world.darknessBlocks || (fresh(darknessBlocks) && darknessBlocks.Length == TableSize)
      ensures obfuscateBlocks == world.obfuscateBlocks || (fresh(obfuscateBlocks) && obfuscateBlocks.Length == TableSize)
      ensures darknessBlocks != null && obfuscateBlocks != null ==> darknessBlocks != obfuscateBlocks
      ensures Read(WorldRecord(enabled, antiTexturePackAndFreecam, airGeneratorMaxChance, darknessHideBlocks,
                               TableOf(darknessBlocks), mode1Block, randomBlocks, TableOf(obfuscateBlocks),
                               old(world.Snapshot()).proximity), config.entries) ==
                ReadWorldSettings(Ctx(), old(config.entries), worldPath, old(world.Snapshot()), withSave)
    {
      hide ReadWorldSettings, BlockMatrix, BoolSetting, IntSetting, MaterialIdSetting, MaterialIdsSetting;
      ghost var w, e, ctx := world.Snapshot(), config.entries, Ctx();
      enabled := GetBoolean(worldPath + ".Enabled", world.enabled, withSave);
      ghost var e1 := config.entries;
      antiTexturePackAndFreecam := GetBoolean(worldPath + ".AntiTexturePackAndFreecam", world.antiTexturePackAndFreecam, withSave);
      ghost var e2 := config.entries;
      airGeneratorMaxChance := GetInt(worldPath + ".AirGeneratorMaxChance", world.airGeneratorMaxChance, 40, 100, withSave);
      ghost var e3 := config.entries;
      darknessHideBlocks := GetBoolean(worldPath + ".DarknessHideBlocks", world.darknessHideBlocks, withSave);
      ghost var e4 := config.entries;
      darknessBlocks := ReadBlockMatrix(world.darknessBlocks, BlockIdsOf(world.darknessBlocks),
                                        worldPath + ".DarknessBlocks", withSave);
      ghost var darkness := Read(TableOf(darknessBlocks), config.entries);
      mode1Block := materialReader.GetMaterialIdByPath(worldPath + ".Mode1Block", world.mode1BlockId, withSave);
      ghost var e6 := config.entries;
      randomBlocks := materialReader.GetMaterialIdsByPath(worldPath + ".RandomBlocks", world.randomBlocks, withSave);
      ghost var e7 := config.entries;
      obfuscateBlocks := ReadBlockMatrix(world.obfuscateBlocks, BlockIdsOf(world.obfuscateBlocks),
                                         worldPath + ".ObfuscateBlocks", withSave);
      assert TableOf(darknessBlocks) == darkness.value;
      ReadWorldSettingsSteps(ctx, e, worldPath, w, withSave, Read(enabled, e1), Read(antiTexturePackAndFreecam, e2),
                             Read(airGeneratorMaxChance, e3), Read(darknessHideBlocks, e4), darkness, Read(mode1Block, e6),
                             Read(randomBlocks, e7), Read(TableOf(obfuscateBlocks), config.entries));
    }

    /** The body of `readWorld` once there is a configuration to read into. */
    method ReadInto(worldPath: string, world: WorldConfig, withSave: bool)
      requires Valid() && world.Valid()
      modifies config, world.Repr()
      ensures world.Valid()
      ensures world.darknessBlocks == old(world.darknessBlocks) || fresh(world.darknessBlocks)
      ensures world.obfuscateBlocks == old(world.obfuscateBlocks) || fresh(world.obfuscateBlocks)
      ensures var p := world.proximityHiderConfig.proximityHiderBlocks;
              p == old(world.proximityHiderConfig.proximityHiderBlocks) || fresh(p)
      ensures Read(world.Snapshot(), config.entries) ==
                ReadWorldRecord(Ctx(), old(config.entries), worldPath, old(world.Snapshot()), withSave)
    {
      hide ReadWorldSettings, ReadProximity, ReadWorldRecord, BlockMatrix;
      ghost var w := world.Snapshot();
      var enabled, antiTexturePackAndFreecam, airGeneratorMaxChance, darknessHideBlocks, darknessBlocks, mode1Block,
          randomBlocks, obfuscateBlocks := ReadSettings(worldPath, world, withSave);
      ghost var settings := Read(WorldRecord(enabled, antiTexturePackAndFreecam, airGeneratorMaxChance, darknessHideBlocks,
                                             TableOf(darknessBlocks), mode1Block, randomBlocks, TableOf(obfuscateBlocks),
                                             w.proximity), config.entries);
      assert world.proximityHiderConfig.Snapshot() == w.proximity;
      ReadProximityHider(worldPath, world, withSave);
      assert TableOf(darknessBlocks) == settings.value.darknessBlocks;
      assert TableOf(obfuscateBlocks) == settings.value.obfuscateBlocks;
      ghost var proximity := Read(world.proximityHiderConfig.Snapshot(), config.entries);
      world.SetAll(enabled, antiTexturePackAndFreecam, airGeneratorMaxChance, darknessHideBlocks,
                   darknessBlocks, mode1Block, randomBlocks, obfuscateBlocks);
      ReadWorldRecordSteps(Ctx(), old(config.entries), worldPath, w, withSave, settings, proximity);
    }

    /** `readWorld(worldPath, cfg, withSave)`: read every setting of a section, each with the configuration's
        current value as default, into `cfg` or into a new configuration when there is none. */
    method ReadWorld(worldPath: string, cfg: WorldConfig?, withSave: bool) returns (world: WorldConfig)
      requires Valid() && (cfg != null ==> cfg.Valid())
      modifies config, if cfg == null then {} else cfg.Repr()
      ensures world.Valid()
      ensures cfg != null ==> world == cfg
      ensures cfg == null ==> fresh(world) && fresh(world.proximityHiderConfig)
      ensures world.darknessBlocks == (if cfg == null then null else old(cfg.darknessBlocks)) || fresh(world.darknessBlocks)
      ensures world.obfuscateBlocks == (if cfg == null then null else old(cfg.obfuscateBlocks)) || fresh(world.obfuscateBlocks)
      ensures var p := world.proximityHiderConfig.proximityHiderBlocks;
              p == (if cfg == null then null else old(cfg.proximityHiderConfig.proximityHiderBlocks)) || fresh(p)
      ensures Read(world.Snapshot(), config.entries) ==
                ReadWorldRecord(Ctx(), old(config.entries), worldPath, if cfg == null then EmptyWorld else old(cfg.Snapshot()),
                                withSave)
    {
      if cfg == null {
        world := new WorldConfig();
      } else {
        world := cfg;
      }
      ReadInto(worldPath, world, withSave);
    }

    /** `createDefaultWorld(worldPath)`. */
    method CreateDefaultWorld(worldPath: string) returns (world: WorldConfig)
      requires Valid()
      modifies config
      ensures fresh(world) && fresh(world.proximityHiderConfig) && world.Valid()
      ensures Read(world.Snapshot(), config.entries) == CreateDefault(Ctx(), old(config.entries), worldPath)
    {
      hide ReadWorldRecord;
      config.Set(worldPath + ".Types", Some(ListV([Label(Default)])));
      world := new WorldConfig();
      world.SetDefaults(bootstrap);
      world := ReadWorld(worldPath, world, true);
    }

    /** The obfuscate table a factory builds: its listed ids that are not transparent, and its signature id. */
    method FactoryTable(f: Factory) returns (obfuscateBlocks: array<bool>)
      requires Valid() && 0 <= f.signature < TableSize
      ensures fresh(obfuscateBlocks) && obfuscateBlocks.Length == TableSize
      ensures obfuscateBlocks[..] == FactoryObfuscateTable(f, transparentBlocks)
    {
      obfuscateBlocks := new bool[TableSize];
      SetBlockValuesFiltered(obfuscateBlocks, f.obfuscate, false, transparentBlocks);
      obfuscateBlocks[f.signature] := true;
    }

    /** `createNormalWorld`, `createEndWorld` and `createNetherWorld`, which differ only in the constants of
        the category's factory. */
    method CreateFactoryWorld(worldPath: string, t: WorldType) returns (world: WorldConfig)
      requires Valid() && t != Default
      modifies config
      ensures fresh(world) && fresh(world.proximityHiderConfig) && world.Valid()
      ensures Read(world.Snapshot(), config.entries) == CreateFactory(Ctx(), old(config.entries), worldPath, t)
    {
      hide MaterialIdSetting, MaterialIdsSetting, FactoryObfuscateTable;
      var f := FactoryOf(t);
      config.Set(worldPath + ".Types", Some(ListV([f.typeLabel])));
      var mode1 := materialReader.GetMaterialIdByPath(worldPath + ".Mode1Block", Some(f.mode1), true);
      var random := materialReader.GetMaterialIdsByPath(worldPath + ".RandomBlocks", Some(f.random), true);
      var obfuscate := materialReader.GetMaterialIdsByPath(worldPath + ".ObfuscateBlocks", Some(f.obfuscate), true);
      var obfuscateBlocks := FactoryTable(f);
      world := new WorldConfig();
      world.obfuscateBlocks := obfuscateBlocks;
      world.randomBlocks := Some(f.random);
      world.mode1BlockId := Some(f.mode1);
    }

    /** The body of the loop of `readWorldByType` once a section declares the category: Default is read over
        the bootstrap values and saving, any other category over a new configuration without saving. */
    method AdoptWorld(key: string, t: WorldType) returns (world: WorldConfig)
      requires Valid()
      modifies config
      ensures fresh(world) && fresh(world.proximityHiderConfig) && world.Valid()
      ensures Read(world.Snapshot(), config.entries) == AdoptedRecord(Ctx(), old(config.entries), key, t)
    {
      hide ReadWorldRecord;
      var cfg: WorldConfig? := null;
      if t == Default {
        cfg := new WorldConfig();
        cfg.SetDefaults(bootstrap);
      }
      world := ReadWorld(SectionPath(key), cfg, t == Default);
    }

    /** The switch of `readWorldByType` for a category no section declares: its factory, at a free path. */
    method CreateMissingWorld(t: WorldType) returns (world: WorldConfig)
      requires Valid()
      modifies config
      ensures fresh(world) && fresh(world.proximityHiderConfig) && world.Valid()
      ensures Read(world.Snapshot(), config.entries) == FallbackRecord(Ctx(), old(config.entries), t)
    {
      hide CreateDefault, CreateFactory, FreePath;
      var worldPath := CreatePath("Worlds", SectionKey(t), config.entries);
      if t == Default {
        world := CreateDefaultWorld(worldPath);
      } else {
        world := CreateFactoryWorld(worldPath, t);
      }
    }

    /** The loop of `readWorldByType`: adopt the first section among `keys` whose "Types" list names the
        category, or create the category's section when there is none. */
    method FindWorld(keys: seq<string>, t: WorldType) returns (world: WorldConfig)
      requires Valid()
      modifies config
      ensures fresh(world) && fresh(world.proximityHiderConfig) && world.Valid()
      ensures Read(world.Snapshot(), config.entries) == OwnRecord(Ctx(), old(config.entries), keys, t)
    {
      hide AdoptedRecord, FallbackRecord;
      ghost var entries := config.entries;
      var i := 0;
      while i < |keys|
        invariant i <= |keys|
        invariant config.entries == entries
        invariant forall j :: 0 <= j < i ==> !Declares(entries, keys[j], t)
      {
        var worldPath := SectionPath(keys[i]);
        var types := GetStringList(worldPath + ".Types", None, false);
        if types.Some? && |types.value| > 0 {
          var parsed := ParseWorldTypes(types.value);
          if t in parsed {
            assert Declares(entries, keys[i], t);
            assert FirstDeclaring(entries, keys, t) == Some(i) by {
              hide Declares;
            }
            world := AdoptWorld(keys[i], t);
            return;
          }
        }
        i := i + 1;
      }
      world := CreateMissingWorld(t);
    }

    /** `readWorldByType(keys, worldType, baseWorld)`: the category's own record, cascaded from the base. */
    method ReadWorldByType(keys: seq<string>, t: WorldType, base: WorldConfig?) returns (world: WorldConfig)
      requires Valid() && (base != null ==> base.Valid())
      modifies config
      ensures fresh(world) && fresh(world.proximityHiderConfig) && world.Valid()
      ensures Read(world.Snapshot(), config.entries) ==
                WorldByType(Ctx(), old(config.entries), keys, t, if base == null then None else Some(base.Snapshot()))
      ensures base != null ==> base.Snapshot() == old(base.Snapshot()) && base.Valid()
    {
      hide OwnRecord, WorldConfig.Snapshot;
      world := FindWorld(keys, t);
      assert base != null ==> base.Snapshot() == old(base.Snapshot()) && base.Valid();
      world.Init(base);
    }

    /** One turn of the loop of `readWorldsByName`: a key not bound yet is bound to a new configuration read
        from the section without saving. */
    method BindName(worldPath: string, key: string, ghost current: map<string, WorldRecord>)
      requires Valid()
      requires worlds.Keys == current.Keys && forall k :: k in worlds ==> worlds[k].Snapshot() == current[k]
      modifies this`worlds, config
      ensures config.entries == old(config.entries)
      ensures var r := if key in current then current else current[key := SectionRecord(Ctx(), old(config.entries), worldPath)];
              worlds.Keys == r.Keys && forall k :: k in worlds ==> worlds[k].Snapshot() == r[k]
    {
      hide ReadWorldRecord, WorldConfig.Snapshot;
      if key !in worlds {
        var world := ReadWorld(worldPath, null, false);
        ghost var before := worlds;
        assert forall k :: k in before ==> before[k].Snapshot() == current[k];
        worlds := worlds[key := world];
        forall k | k in worlds
          ensures worlds[k].Snapshot() == current[key := world.Snapshot()][k]
        {
          if k != key {
            assert worlds[k] == before[k];
          }
        }
      }
    }

    /** The loop of `readWorldsByName` over a section's names, in list order. */
    method BindAllNames(worldPath: string, names: seq<string>, ghost bound: map<string, WorldRecord>)
      requires Valid()
      requires worlds.Keys == bound.Keys && forall k :: k in worlds ==> worlds[k].Snapshot() == bound[k]
      modifies this`worlds, config
      ensures config.entries == old(config.entries)
      ensures var r := BindNames(names, SectionRecord(Ctx(), old(config.entries), worldPath), bound);
              worlds.Keys == r.Keys && forall k :: k in worlds ==> worlds[k].Snapshot() == r[k]
    {
      hide ReadWorldRecord, WorldConfig.Snapshot, SectionRecord, BindNames, ToLower;
      ghost var record := SectionRecord(Ctx(), config.entries, worldPath);
      ghost var current := bound;
      for i := 0 to |names|
        invariant config.entries == old(config.entries)
        invariant current == BindNames(names[..i], record, bound)
        invariant worlds.Keys == current.Keys && forall k :: k in worlds ==> worlds[k].Snapshot() == current[k]
      {
        BindNamesStep(names, i, record, bound);
        BindName(worldPath, ToLower(names[i]), current);
        current := BindNames(names[..i + 1], record, bound);
      }
      assert names[..|names|] == names;
    }

    /** `readWorldsByName(worldPath)`: bind every lower-cased name of the section's "Names" list that is not
        bound yet to a new configuration read from the section without saving. */
    method ReadWorldsByName(worldPath: string, ghost bound: map<string, WorldRecord>)
      requires Valid()
      requires worlds.Keys == bound.Keys && forall k :: k in worlds ==> worlds[k].Snapshot() == bound[k]
      modifies this`worlds, config
      ensures config.entries == old(config.entries)
      ensures var r := BindSection(Ctx(), old(config.entries), worldPath, bound);
              worlds.Keys == r.Keys && forall k :: k in worlds ==> worlds[k].Snapshot() == r[k]
    {
      hide ReadWorldRecord, WorldConfig.Snapshot, StringListSetting, SectionRecord, BindNames;
      var names := GetStringList(worldPath + ".Names", None, false);
      if names.None? || |names.value| == 0 {
        return;
      }
      BindAllNames(worldPath, names.value, bound);
    }

    /** The last two calls of `load` to `readWorldByType`, both cascading from the default configuration. */
    method ReadEndAndNether(keys: seq<string>, base: WorldConfig) returns (e: WorldConfig, h: WorldConfig)
      requires Valid() && base.Valid()
      modifies config
      ensures var er := WorldByType(Ctx(), old(config.entries), keys, TheEnd, Some(base.Snapshot()));
              var hr := WorldByType(Ctx(), er.store, keys, Nether, Some(base.Snapshot()));
              && e.Snapshot() == er.value && h.Snapshot() == hr.value && config.entries == hr.store
      ensures base.Snapshot() == old(base.Snapshot())
    {
      hide WorldByType, WorldConfig.Snapshot, Covers, Inherits, Merge, Extends, OwnRecord, AdoptedRecord, FallbackRecord;
      e := ReadWorldByType(keys, TheEnd, base);
      ghost var er := Read(e.Snapshot(), config.entries);
      h := ReadWorldByType(keys, Nether, base);
      assert e.Snapshot() == er.value;
    }

    /** The four calls of `load` to `readWorldByType`: the default category first, then the others with the
        default configuration as their base, each reading the store the previous one left. */
    method ReadCategories(keys: seq<string>) returns (d: WorldConfig, n: WorldConfig, e: WorldConfig, h: WorldConfig)
      requires Valid()
      modifies config
      ensures var r := Categories(Ctx(), old(config.entries), keys);
              && d.Snapshot() == r.defaultWorld && n.Snapshot() == r.normalWorld
              && e.Snapshot() == r.endWorld && h.Snapshot() == r.netherWorld
              && config.entries == r.store
    {
      hide WorldByType, Categories, WorldConfig.Snapshot, Cascades, Covers, Inherits, Merge, Extends, OwnRecord,
           AdoptedRecord, FallbackRecord;
      ghost var entries := config.entries;
      d := ReadWorldByType(keys, Default, null);
      ghost var dr := Read(d.Snapshot(), config.entries);
      n := ReadWorldByType(keys, Normal, d);
      ghost var nr := Read(n.Snapshot(), config.entries);
      e, h := ReadEndAndNether(keys, d);
      assert n.Snapshot() == nr.value;
      ghost var er := WorldByType(Ctx(), nr.store, keys, TheEnd, Some(dr.value));
      CategoriesSteps(Ctx(), entries, keys, dr, nr, er, WorldByType(Ctx(), er.store, keys, Nether, Some(dr.value)));
    }

    /** The loop of `load` over the section keys, into an emptied name map: every section binds its names, in
        the order of the keys.  The ghost `others` and `values` model nothing of the source: they carry across
        the call the fact that the configurations already resolved keep their snapshots. */
    method ReadAllByName(keys: seq<string>, ghost others: seq<WorldConfig>, ghost values: seq<WorldRecord>)
      requires Valid()
      requires |others| == |values| && forall i :: 0 <= i < |others| ==> others[i].Snapshot() == values[i]
      modifies this`worlds, config
      ensures config.entries == old(config.entries)
      ensures var r := BindAll(Ctx(), old(config.entries), keys, map[]);
              worlds.Keys == r.Keys && forall k :: k in worlds ==> worlds[k].Snapshot() == r[k]
      ensures forall i :: 0 <= i < |others| ==> others[i].Snapshot() == values[i]
    {
      hide BindSection, WorldConfig.Snapshot;
      worlds := map[];
      ghost var bound: map<string, WorldRecord> := map[];
      for i := 0 to |keys|
        invariant config.entries == old(config.entries)
        invariant BindAll(Ctx(), config.entries, keys[i..], bound) == BindAll(Ctx(), config.entries, keys, map[])
        invariant worlds.Keys == bound.Keys && forall k :: k in worlds ==> worlds[k].Snapshot() == bound[k]
      {
        assert keys[i..][1..] == keys[i + 1..];
        ReadWorldsByName(SectionPath(keys[i]), bound);
        bound := BindSection(Ctx(), config.entries, SectionPath(keys[i]), bound);
      }
    }

    /** `load()`: take the transparency table, resolve the four categories, then bind the named worlds.  The
        keys are the "Worlds" section's keys listed once, before any default section is written. */
    method Load(keys: seq<string>, transparent: seq<bool>)
      requires materialReader.config == config && TablesSized(bootstrap) && |transparent| == TableSize
      modifies this, config
      ensures Valid() && transparentBlocks == transparent
      ensures defaultWorld != null && normalWorld != null && endWorld != null && netherWorld != null
      ensures var r := Resolution.Load(Ctx(), old(config.entries), keys);
              && defaultWorld.Snapshot() == r.defaultWorld && normalWorld.Snapshot() == r.normalWorld
              && endWorld.Snapshot() == r.endWorld && netherWorld.Snapshot() == r.netherWorld
              && worlds.Keys == r.worlds.Keys && (forall k :: k in worlds ==> worlds[k].Snapshot() == r.worlds[k])
              && config.entries == r.store
    {
      hide Categories, BindAll, WorldConfig.Snapshot, Resolution.Load, Cascades, Covers, Inherits, Merge, Extends;
      transparentBlocks := transparent;
      ghost var entries := config.entries;
      var d, n, e, h := ReadCategories(keys);
      ghost var c := Categories(Ctx(), entries, keys);
      defaultWorld, normalWorld, endWorld, netherWorld := d, n, e, h;
      ReadAllByName(keys, [d, n, e, h], [c.defaultWorld, c.normalWorld, c.endWorld, c.netherWorld]);
      assert [d, n, e, h][0] == d && [d, n, e, h][1] == n && [d, n, e, h][2] == e && [d, n, e, h][3] == h;
      LoadSteps(Ctx(), entries, keys, c);
    }
  }
}
