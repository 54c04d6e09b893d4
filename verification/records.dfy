/**
 * The resolved configuration of one world or category, as a value: every
 * field may be unset, and a missing table is distinct from an all-false one.
 */
module Records {
  import opened ConfigStore
  import opened BlockTables
  import opened WorldTypes

  datatype ProximityRecord = ProximityRecord(
    enabled: Option<bool>,
    distance: Option<int>,
    specialBlockId: Option<int>,
    endY: Option<int>,
    useSpecialBlock: Option<bool>,
    useEndY: Option<bool>,
    blocks: Option<seq<bool>>)

  datatype WorldRecord = WorldRecord(
    enabled: Option<bool>,
    antiTexturePackAndFreecam: Option<bool>,
    airGeneratorMaxChance: Option<int>,
    darknessHideBlocks: Option<bool>,
    darknessBlocks: Option<seq<bool>>,
    mode1BlockId: Option<int>,
    randomBlocks: Option<seq<int>>,
    obfuscateBlocks: Option<seq<bool>>,
    proximity: ProximityRecord)

  const EmptyProximity := ProximityRecord(None, None, None, None, None, None, None)
  const EmptyWorld := WorldRecord(None, None, None, None, None, None, None, None, EmptyProximity)

  predicate Sized(t: Option<seq<bool>>)
  {
    t.Some? ==> |t.value| == TableSize
  }

  /** Every table present in the record has the full 256 slots. */
  predicate TablesSized(w: WorldRecord)
  {
    Sized(w.darknessBlocks) && Sized(w.obfuscateBlocks) && Sized(w.proximity.blocks)
  }

  function Or<T>(a: Option<T>, b: Option<T>): Option<T>
  {
    if a.Some? then a else b
  }

  function MergeProximity(p: ProximityRecord, base: ProximityRecord): ProximityRecord
  {
    ProximityRecord(
      Or(p.enabled, base.enabled), Or(p.distance, base.distance), Or(p.specialBlockId, base.specialBlockId),
      Or(p.endY, base.endY), Or(p.useSpecialBlock, base.useSpecialBlock), Or(p.useEndY, base.useEndY),
      Or(p.blocks, base.blocks))
  }

  /** `a` keeps the value `b` sets, if any. */
  predicate Keeps<T(==)>(a: Option<T>, b: Option<T>)
  {
    b.Some? ==> a == b
  }

  /** `a` is set wherever `b` is. */
  predicate Fills<T>(a: Option<T>, b: Option<T>)
  {
    b.Some? ==> a.Some?
  }

  /** Every field `w` sets has the same value in `r`. */
  predicate Extends(r: WorldRecord, w: WorldRecord)
  {
    && Keeps(r.enabled, w.enabled) && Keeps(r.antiTexturePackAndFreecam, w.antiTexturePackAndFreecam)
    && Keeps(r.airGeneratorMaxChance, w.airGeneratorMaxChance) && Keeps(r.darknessHideBlocks, w.darknessHideBlocks)
    && Keeps(r.darknessBlocks, w.darknessBlocks) && Keeps(r.mode1BlockId, w.mode1BlockId)
    && Keeps(r.randomBlocks, w.randomBlocks) && Keeps(r.obfuscateBlocks, w.obfuscateBlocks)
    && Keeps(r.proximity.enabled, w.proximity.enabled) && Keeps(r.proximity.distance, w.proximity.distance)
    && Keeps(r.proximity.specialBlockId, w.proximity.specialBlockId) && Keeps(r.proximity.endY, w.proximity.endY)
    && Keeps(r.proximity.useSpecialBlock, w.proximity.useSpecialBlock) && Keeps(r.proximity.useEndY, w.proximity.useEndY)
    && Keeps(r.proximity.blocks, w.proximity.blocks)
  }

  /** Every field `base` sets is set in `r`. */
  predicate Covers(r: WorldRecord, base: WorldRecord)
  {
    && Fills(r.enabled, base.enabled) && Fills(r.antiTexturePackAndFreecam, base.antiTexturePackAndFreecam)
    && Fills(r.airGeneratorMaxChance, base.airGeneratorMaxChance) && Fills(r.darknessHideBlocks, base.darknessHideBlocks)
    && Fills(r.darknessBlocks, base.darknessBlocks) && Fills(r.mode1BlockId, base.mode1BlockId)
    && Fills(r.randomBlocks, base.randomBlocks) && Fills(r.obfuscateBlocks, base.obfuscateBlocks)
    && Fills(r.proximity.enabled, base.proximity.enabled) && Fills(r.proximity.distance, base.proximity.distance)
    && Fills(r.proximity.specialBlockId, base.proximity.specialBlockId) && Fills(r.proximity.endY, base.proximity.endY)
    && Fills(r.proximity.useSpecialBlock, base.proximity.useSpecialBlock) && Fills(r.proximity.useEndY, base.proximity.useEndY)
    && Fills(r.proximity.blocks, base.proximity.blocks)
  }

  /** `r` is `w` cascaded over `base`: each field is `w`'s value where `w` sets it and `base`'s value elsewhere. */
  predicate Inherits(r: WorldRecord, w: WorldRecord, base: WorldRecord)
  {
    && r.enabled == Or(w.enabled, base.enabled)
    && r.antiTexturePackAndFreecam == Or(w.antiTexturePackAndFreecam, base.antiTexturePackAndFreecam)
    && r.airGeneratorMaxChance == Or(w.airGeneratorMaxChance, base.airGeneratorMaxChance)
    && r.darknessHideBlocks == Or(w.darknessHideBlocks, base.darknessHideBlocks)
    && r.darknessBlocks == Or(w.darknessBlocks, base.darknessBlocks)
    && r.mode1BlockId == Or(w.mode1BlockId, base.mode1BlockId)
    && r.randomBlocks == Or(w.randomBlocks, base.randomBlocks)
    && r.obfuscateBlocks == Or(w.obfuscateBlocks, base.obfuscateBlocks)
    && r.proximity.enabled == Or(w.proximity.enabled, base.proximity.enabled)
    && r.proximity.distance == Or(w.proximity.distance, base.proximity.distance)
    && r.proximity.specialBlockId == Or(w.proximity.specialBlockId, base.proximity.specialBlockId)
    && r.proximity.endY == Or(w.proximity.endY, base.proximity.endY)
    && r.proximity.useSpecialBlock == Or(w.proximity.useSpecialBlock, base.proximity.useSpecialBlock)
    && r.proximity.useEndY == Or(w.proximity.useEndY, base.proximity.useEndY)
    && r.proximity.blocks == Or(w.proximity.blocks, base.proximity.blocks)
  }

  /** The cascade of `init(baseWorld)`: every unset field takes the base's value; nothing set is replaced. */
  function Merge(w: WorldRecord, base: Option<WorldRecord>): (r: WorldRecord)
    ensures base.None? ==> r == w
    ensures base.Some? ==> Inherits(r, w, base.value)
    ensures Extends(r, w)
    ensures base.Some? ==> Covers(r, base.value)
    ensures TablesSized(w) && (base.Some? ==> TablesSized(base.value)) ==> TablesSized(r)
  {
    match base
    case None => w
    case Some(b) =>
      WorldRecord(
        Or(w.enabled, b.enabled), Or(w.antiTexturePackAndFreecam, b.antiTexturePackAndFreecam),
        Or(w.airGeneratorMaxChance, b.airGeneratorMaxChance), Or(w.darknessHideBlocks, b.darknessHideBlocks),
        Or(w.darknessBlocks, b.darknessBlocks), Or(w.mode1BlockId, b.mode1BlockId),
        Or(w.randomBlocks, b.randomBlocks), Or(w.obfuscateBlocks, b.obfuscateBlocks),
        MergeProximity(w.proximity, b.proximity))
  }

  /** The hand-authored record of a non-default category. */
  datatype Factory = Factory(typeLabel: string, mode1: int, random: seq<int>, obfuscate: seq<int>, signature: int)

  function FactoryOf(t: WorldType): (f: Factory)
    requires t != Default
    ensures f.typeLabel == Label(t)
    ensures 0 <= f.signature < TableSize && f.signature == f.mode1
  {
    match t
    case Normal => Factory("NORMAL", 1, [1, 4, 5, 14, 15, 16, 21, 46, 48, 49, 56, 73, 82, 129],
                           [14, 15, 16, 21, 54, 56, 73, 74, 129, 130], 1)
    case TheEnd => Factory("THE_END", 121, [7, 49, 121, 201, 206], [121], 121)
    case Nether => Factory("NETHER", 87, [13, 87, 88, 112, 153], [87, 153], 87)
  }

  /** The factory's obfuscate table: listed opaque ids, plus the signature id whatever its transparency. */
  function FactoryObfuscateTable(f: Factory, transparent: seq<bool>): (t: seq<bool>)
    requires |transparent| == TableSize && 0 <= f.signature < TableSize
    ensures |t| == TableSize
    ensures forall i :: 0 <= i < TableSize ==>
              t[i] == (i == f.signature || (i in f.obfuscate && !IsBlockTransparent(transparent, i)))
  {
    FilteredTable(f.obfuscate, false, transparent, TableSize)[f.signature := true]
  }

  /** The record a factory returns before any cascade. */
  function FactoryRecord(t: WorldType, transparent: seq<bool>): (r: WorldRecord)
    requires t != Default && |transparent| == TableSize
    ensures TablesSized(r)
  {
    var f := FactoryOf(t);
    EmptyWorld.(mode1BlockId := Some(f.mode1), randomBlocks := Some(f.random),
                obfuscateBlocks := Some(FactoryObfuscateTable(f, transparent)))
  }
}
