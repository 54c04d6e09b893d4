/**
 * The plugin's configuration store: a tree of values addressed by dotted
 * paths ("Worlds.Normal.Types"), modelled as a flat map from full paths to
 * leaf values.  A path that is not itself a key but has keys below it is a
 * section, which the store reports as present.
 */
module ConfigStore {

  datatype Option<+T> = None | Some(value: T)

  /** A value held at one path of the configuration. */
  datatype Value =
    | IntV(i: int)
    | BoolV(b: bool)
    | StrV(s: string)
    | ListV(items: seq<string>)
    | Section

  type Store = map<string, Value>

  /** The result of a read that may also have written to the store. */
  datatype Read<T> = Read(value: T, store: Store)

  /** `child` names a path strictly inside the section `path`. */
  predicate Below(path: string, child: string)
  {
    |path| < |child| && child[..|path|] == path && child[|path|] == '.'
  }

  /** The store's `get(path) != null`: a value at the path, or a section holding one below it. */
  predicate Present(entries: Store, path: string)
  {
    path in entries || exists k :: k in entries && Below(path, k)
  }

  /** The store's `get(path)`. */
  function Get(entries: Store, path: string): (r: Option<Value>)
    ensures r.Some? <==> Present(entries, path)
    ensures path in entries ==> r == Some(entries[path])
  {
    if path in entries then Some(entries[path])
    else if Present(entries, path) then Some(Section)
    else None
  }

  /** The store's `set(path, value)`; setting null removes the path. */
  function Put(entries: Store, path: string, v: Option<Value>): (r: Store)
    ensures v.Some? ==> path in r && r[path] == v.value
    ensures v.None? ==> path !in r
  {
    match v
    case None => entries - {path}
    case Some(x) => entries[path := x]
  }

  /** The store's `getInt(path)`: 0 unless an integer is stored there. */
  function IntAt(entries: Store, path: string): int
  {
    if path in entries && entries[path].IntV? then entries[path].i else 0
  }

  /** The store's `getBoolean(path)`: false unless a boolean is stored there. */
  function BoolAt(entries: Store, path: string): bool
  {
    if path in entries && entries[path].BoolV? then entries[path].b else false
  }

  /** The store's `getStringList(path)`: empty unless a list is stored there. */
  function StringListAt(entries: Store, path: string): seq<string>
  {
    if path in entries && entries[path].ListV? then entries[path].items else []
  }

  /** The mutable configuration object the plugin hands out. */
  class Configuration {
    var entries: Store

    constructor (initial: Store)
      ensures entries == initial
    {
      entries := initial;
    }

    method Set(path: string, v: Option<Value>)
      modifies this
      ensures entries == Put(old(entries), path, v)
    {
      entries := Put(entries, path, v);
    }
  }
}
