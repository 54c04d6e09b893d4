/**
 * The material reader: turns the material names stored at a path into
 * numeric block ids.  Its name tables are not part of this model; the
 * service is characterised only by what the world reader relies on: a
 * present entry is resolved (possibly to nothing), an absent one falls back
 * to the default, which is written back in stored form when asked to.
 */
module Materials {
  import opened ConfigStore

  /** Name resolution in both directions, for single ids and for id lists. */
  datatype MaterialCodec = MaterialCodec(
    idOf: Value -> Option<int>,
    idsOf: Value -> Option<seq<int>>,
    entryOf: int -> Value,
    entriesOf: seq<int> -> Value)

  /** `getMaterialIdByPath(path, default, withSave)`. */
  function MaterialIdSetting(codec: MaterialCodec, entries: Store, path: string, default: Option<int>, withSave: bool)
    : (r: Read<Option<int>>)
    ensures !withSave ==> r.store == entries
    ensures Present(entries, path) ==> r == Read(codec.idOf(Get(entries, path).value), entries)
    ensures !Present(entries, path) ==> r.value == default
    ensures !Present(entries, path) && withSave && default.Some? ==>
              r.store == entries[path := codec.entryOf(default.value)]
  {
    match Get(entries, path)
    case Some(v) => Read(codec.idOf(v), entries)
    case None =>
      Read(default, if withSave && default.Some? then entries[path := codec.entryOf(default.value)] else entries)
  }

  /** `getMaterialIdsByPath(path, default, withSave)`. */
  function MaterialIdsSetting(codec: MaterialCodec, entries: Store, path: string, default: Option<seq<int>>, withSave: bool)
    : (r: Read<Option<seq<int>>>)
    ensures !withSave ==> r.store == entries
    ensures Present(entries, path) ==> r == Read(codec.idsOf(Get(entries, path).value), entries)
    ensures !Present(entries, path) ==> r.value == default
    ensures !Present(entries, path) && withSave && default.Some? ==>
              r.store == entries[path := codec.entriesOf(default.value)]
  {
    match Get(entries, path)
    case Some(v) => Read(codec.idsOf(v), entries)
    case None =>
      Read(default, if withSave && default.Some? then entries[path := codec.entriesOf(default.value)] else entries)
  }

  class MaterialReader {
    const config: Configuration
    const codec: MaterialCodec

    constructor (config: Configuration, codec: MaterialCodec)
      ensures this.config == config && this.codec == codec
    {
      this.config := config;
      this.codec := codec;
    }

    method GetMaterialIdByPath(path: string, default: Option<int>, withSave: bool) returns (id: Option<int>)
      modifies config
      ensures Read(id, config.entries) == MaterialIdSetting(codec, old(config.entries), path, default, withSave)
    {
      var v := Get(config.entries, path);
      if v.Some? {
        id := codec.idOf(v.value);
      } else {
        if withSave && default.Some? {
          config.Set(path, Some(codec.entryOf(default.value)));
        }
        id := default;
      }
    }

    method GetMaterialIdsByPath(path: string, default: Option<seq<int>>, withSave: bool) returns (ids: Option<seq<int>>)
      modifies config
      ensures Read(ids, config.entries) == MaterialIdsSetting(codec, old(config.entries), path, default, withSave)
    {
      var v := Get(config.entries, path);
      if v.Some? {
        ids := codec.idsOf(v.value);
      } else {
        if withSave && default.Some? {
          config.Set(path, Some(codec.entriesOf(default.value)));
        }
        ids := default;
      }
    }
  }
}
