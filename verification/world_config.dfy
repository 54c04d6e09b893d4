/**
 * The mutable configuration objects the world reader fills in: a world's
 * settings and its proximity-hider settings.  Tables are arrays the reader
 * overwrites in place; `Snapshot()` is the value a configuration stands for.
 */
module WorldConfigs {
  import opened ConfigStore
  import opened BlockTables
  import opened Records

  /** The value of a table field: missing, or the array's contents. */
  function TableOf(a: array?<bool>): Option<seq<bool>>
    reads a
  {
    if a == null then None else Some(a[..])
  }

  /** The sparse id list of a table field, as the configuration's id getters give it. */
  function BlockIdsOf(a: array?<bool>): (r: Option<seq<int>>)
    reads a
    ensures r == TableIdsOf(TableOf(a))
  {
    if a == null then None else Some(TableIds(a[..]))
  }

  /** A fresh array holding a table value, or no array for a missing table. */
  method NewTable(t: Option<seq<bool>>) returns (a: array?<bool>)
    ensures TableOf(a) == t
    ensures a != null ==> fresh(a) && a.Length == |t.value|
  {
    if t.None? {
      a := null;
    } else {
      var s := t.value;
      a := new bool[|s|](i requires 0 <= i < |s| => s[i]);
      assert a[..] == s;
    }
  }

  /** A table field after the cascade: its own array if it has one, otherwise a copy of the inherited table. */
  method InheritTable(own: array?<bool>, inherited: array?<bool>) returns (a: array?<bool>)
    ensures TableOf(a) == Or(TableOf(own), TableOf(inherited))
    ensures own != null ==> a == own
    ensures own == null && a != null ==> fresh(a) && a.Length == inherited.Length
  {
    if own != null {
      a := own;
    } else {
      a := NewTable(TableOf(inherited));
    }
  }

  class ProximityHiderConfig {
    var enabled: Option<bool>
    var distance: Option<int>
    var specialBlockId: Option<int>
    var endY: Option<int>
    var useSpecialBlock: Option<bool>
    var useYLocationProximity: Option<bool>
    var proximityHiderBlocks: array?<bool>

    ghost function Snapshot(): ProximityRecord
      reads this, proximityHiderBlocks
    {
      ProximityRecord(enabled, distance, specialBlockId, endY, useSpecialBlock, useYLocationProximity,
                      TableOf(proximityHiderBlocks))
    }

    constructor ()
      ensures Snapshot() == EmptyProximity && proximityHiderBlocks == null
    {
      enabled, distance, specialBlockId, endY := None, None, None, None;
      useSpecialBlock, useYLocationProximity, proximityHiderBlocks := None, None, null;
    }

    /** Bootstrap values, with a fresh table. */
    method SetDefaults(d: ProximityRecord)
      modifies this
      ensures Snapshot() == d
      ensures proximityHiderBlocks != null ==> fresh(proximityHiderBlocks)
    {
      enabled, distance, specialBlockId, endY := d.enabled, d.distance, d.specialBlockId, d.endY;
      useSpecialBlock, useYLocationProximity := d.useSpecialBlock, d.useEndY;
      proximityHiderBlocks := NewTable(d.blocks);
    }

    /** The cascade from a base: unset fields take the base's values; an inherited table is copied. */
    method Init(base: ProximityHiderConfig)
      requires base != this
      modifies this
      ensures Snapshot() == MergeProximity(old(Snapshot()), base.Snapshot())
      ensures old(proximityHiderBlocks) != null ==> proximityHiderBlocks == old(proximityHiderBlocks)
      ensures old(proximityHiderBlocks) == null && proximityHiderBlocks != null ==>
                fresh(proximityHiderBlocks) && proximityHiderBlocks.Length == base.proximityHiderBlocks.Length
    {
      enabled, distance := Or(enabled, base.enabled), Or(distance, base.distance);
      specialBlockId, endY := Or(specialBlockId, base.specialBlockId), Or(endY, base.endY);
      useSpecialBlock := Or(useSpecialBlock, base.useSpecialBlock);
      useYLocationProximity := Or(useYLocationProximity, base.useYLocationProximity);
      proximityHiderBlocks := InheritTable(proximityHiderBlocks, base.proximityHiderBlocks);
    }
  }

  class WorldConfig {
    var enabled: Option<bool>
    var antiTexturePackAndFreecam: Option<bool>
    var airGeneratorMaxChance: Option<int>
    var darknessHideBlocks: Option<bool>
    var darknessBlocks: array?<bool>
    var mode1BlockId: Option<int>
    var randomBlocks: Option<seq<int>>
    var obfuscateBlocks: array?<bool>
    const proximityHiderConfig: ProximityHiderConfig

    /** The objects this configuration owns. */
    ghost function Repr(): set<object>
      reads this, proximityHiderConfig
    {
      {this, proximityHiderConfig}
      + (if darknessBlocks == null then {} else {darknessBlocks})
      + (if obfuscateBlocks == null then {} else {obfuscateBlocks})
      + (var p := proximityHiderConfig.proximityHiderBlocks; if p == null then {} else {p})
    }

    /** Every table has 256 slots and no two tables share an array. */
    ghost predicate Valid()
      reads this, proximityHiderConfig
    {
      var p := proximityHiderConfig.proximityHiderBlocks;
      && (darknessBlocks != null ==> darknessBlocks.Length == TableSize)
      && (obfuscateBlocks != null ==> obfuscateBlocks.Length == TableSize)
      && (p != null ==> p.Length == TableSize)
      && (darknessBlocks != null && obfuscateBlocks != null ==> darknessBlocks != obfuscateBlocks)
      && (darknessBlocks != null && p != null ==> darknessBlocks != p)
      && (obfuscateBlocks != null && p != null ==> obfuscateBlocks != p)
    }

    ghost function Snapshot(): WorldRecord
      reads this, proximityHiderConfig, darknessBlocks, obfuscateBlocks, proximityHiderConfig.proximityHiderBlocks
    {
      WorldRecord(enabled, antiTexturePackAndFreecam, airGeneratorMaxChance, darknessHideBlocks,
                  TableOf(darknessBlocks), mode1BlockId, randomBlocks, TableOf(obfuscateBlocks),
                  proximityHiderConfig.Snapshot())
    }

    constructor ()
      ensures Valid() && Snapshot() == EmptyWorld && fresh(Repr())
      ensures darknessBlocks == null && obfuscateBlocks == null && proximityHiderConfig.proximityHiderBlocks == null
    {
      enabled, antiTexturePackAndFreecam, airGeneratorMaxChance, darknessHideBlocks := None, None, None, None;
      darknessBlocks, mode1BlockId, randomBlocks, obfuscateBlocks := null, None, None, null;
      proximityHiderConfig := new ProximityHiderConfig();
    }

    /** `setDefaults()`: install the bootstrap record, with fresh tables. */
    method SetDefaults(d: WorldRecord)
      requires TablesSized(d)
      modifies this, proximityHiderConfig
      ensures Valid() && Snapshot() == d
      ensures fresh(Repr() - {this, proximityHiderConfig})
    {
      enabled, antiTexturePackAndFreecam := d.enabled, d.antiTexturePackAndFreecam;
      airGeneratorMaxChance, darknessHideBlocks := d.airGeneratorMaxChance, d.darknessHideBlocks;
      mode1BlockId, randomBlocks := d.mode1BlockId, d.randomBlocks;
      darknessBlocks := NewTable(d.darknessBlocks);
      obfuscateBlocks := NewTable(d.obfuscateBlocks);
      proximityHiderConfig.SetDefaults(d.proximity);
    }

    /** The setters `readWorld` calls once every setting is read. */
    method SetAll(enabled: Option<bool>, antiTexturePackAndFreecam: Option<bool>, airGeneratorMaxChance: Option<int>,
                  darknessHideBlocks: Option<bool>, darknessBlocks: array?<bool>, mode1BlockId: Option<int>,
                  randomBlocks: Option<seq<int>>, obfuscateBlocks: array?<bool>)
      modifies this
      ensures this.darknessBlocks == darknessBlocks && this.obfuscateBlocks == obfuscateBlocks
      ensures Snapshot() == WorldRecord(enabled, antiTexturePackAndFreecam, airGeneratorMaxChance, darknessHideBlocks,
                                        TableOf(darknessBlocks), mode1BlockId, randomBlocks, TableOf(obfuscateBlocks),
                                        old(proximityHiderConfig.Snapshot()))
    {
      this.enabled, this.antiTexturePackAndFreecam := enabled, antiTexturePackAndFreecam;
      this.airGeneratorMaxChance, this.darknessHideBlocks := airGeneratorMaxChance, darknessHideBlocks;
      this.darknessBlocks, this.mode1BlockId := darknessBlocks, mode1BlockId;
      this.randomBlocks, this.obfuscateBlocks := randomBlocks, obfuscateBlocks;
    }

    /** The part of `init(baseWorld)` that cascades this configuration's own fields; inherited tables are copied. */
    method InheritFields(base: WorldConfig)
      requires Valid() && base.Valid() && base != this
      modifies this
      ensures Valid()
      ensures Snapshot() == Merge(old(Snapshot()), Some(base.Snapshot())).(proximity := old(Snapshot()).proximity)
      ensures darknessBlocks == old(darknessBlocks) || fresh(darknessBlocks)
      ensures obfuscateBlocks == old(obfuscateBlocks) || fresh(obfuscateBlocks)
    {
      var darkness := InheritTable(darknessBlocks, base.darknessBlocks);
      var obfuscate := InheritTable(obfuscateBlocks, base.obfuscateBlocks);
      enabled, antiTexturePackAndFreecam, airGeneratorMaxChance, darknessHideBlocks,
        darknessBlocks, mode1BlockId, randomBlocks, obfuscateBlocks :=
        Or(enabled, base.enabled), Or(antiTexturePackAndFreecam, base.antiTexturePackAndFreecam),
        Or(airGeneratorMaxChance, base.airGeneratorMaxChance), Or(darknessHideBlocks, base.darknessHideBlocks),
        darkness, Or(mode1BlockId, base.mode1BlockId), Or(randomBlocks, base.randomBlocks), obfuscate;
    }

    /** `init(baseWorld)`: cascade every unset field from the base; without a base nothing changes. */
    method Init(base: WorldConfig?)
      requires Valid()
      requires base != null ==> base.Valid() && base != this && base.proximityHiderConfig != proximityHiderConfig
      modifies this, proximityHiderConfig
      ensures Valid()
      ensures Snapshot() == Merge(old(Snapshot()), if base == null then None else Some(base.Snapshot()))
      ensures darknessBlocks == old(darknessBlocks) || fresh(darknessBlocks)
      ensures obfuscateBlocks == old(obfuscateBlocks) || fresh(obfuscateBlocks)
      ensures var p := proximityHiderConfig.proximityHiderBlocks; p == old(proximityHiderConfig.proximityHiderBlocks) || fresh(p)
      ensures base != null ==> base.Snapshot() == old(base.Snapshot())
    {
      if base == null {
        return;
      }
      ghost var inherited := base.Snapshot();
      InheritFields(base);
      proximityHiderConfig.Init(base.proximityHiderConfig);
      assert base.Snapshot() == inherited;
    }
  }
}
