/**
 * The scalar readers of the world reader: read a path, fall back to a
 * default when it is absent, and write that default back only when asked
 * to.  Each is a function from the store before the read to the value read
 * and the store after it.
 */
module Settings {
  import opened ConfigStore

  /** The range clamp of the integer reader: below `min` gives `min`, otherwise above `max` gives `max`. */
  function Clamp(v: int, min: int, max: int): (r: int)
    ensures min <= max ==> min <= r <= max
    ensures min <= v <= max ==> r == v
    ensures v < min ==> r == min
    ensures min <= v && max < v ==> r == max
  {
    if v < min then min else if v > max then max else v
  }

  function IntValue(d: Option<int>): Option<Value>
  {
    if d.Some? then Some(IntV(d.value)) else None
  }

  function BoolValue(d: Option<bool>): Option<Value>
  {
    if d.Some? then Some(BoolV(d.value)) else None
  }

  function ListValue(d: Option<seq<string>>): Option<Value>
  {
    if d.Some? then Some(ListV(d.value)) else None
  }

  /** `getInt(path, default, min, max, withSave)`. */
  function IntSetting(entries: Store, path: string, default: Option<int>, min: int, max: int, withSave: bool)
    : (r: Read<Option<int>>)
    ensures min <= max && r.value.Some? ==> min <= r.value.value <= max
    ensures Present(entries, path) ==> r == Read(Some(Clamp(IntAt(entries, path), min, max)), entries)
    ensures !Present(entries, path) ==>
              r.value == (if default.Some? then Some(Clamp(default.value, min, max)) else None)
    ensures !Present(entries, path) && !withSave ==> r.store == entries
    ensures !Present(entries, path) && withSave ==> r.store == Put(entries, path, IntValue(default))
  {
    var e := if !Present(entries, path) && withSave then Put(entries, path, IntValue(default)) else entries;
    var v := if Present(e, path) then Some(IntAt(e, path)) else default;
    Read(if v.Some? then Some(Clamp(v.value, min, max)) else None, e)
  }

  /** `getBoolean(path, default, withSave)`. */
  function BoolSetting(entries: Store, path: string, default: Option<bool>, withSave: bool)
    : (r: Read<Option<bool>>)
    ensures Present(entries, path) ==> r == Read(Some(BoolAt(entries, path)), entries)
    ensures !Present(entries, path) ==> r.value == default
    ensures !Present(entries, path) && !withSave ==> r.store == entries
    ensures !Present(entries, path) && withSave ==> r.store == Put(entries, path, BoolValue(default))
  {
    if !Present(entries, path) && !withSave then Read(default, entries)
    else
      var e := if !Present(entries, path) then Put(entries, path, BoolValue(default)) else entries;
      Read(if Present(e, path) then Some(BoolAt(e, path)) else default, e)
  }

  /** `getStringList(path, default, withSave)`; a read after a write never gives null. */
  function StringListSetting(entries: Store, path: string, default: Option<seq<string>>, withSave: bool)
    : (r: Read<Option<seq<string>>>)
    ensures Present(entries, path) ==> r == Read(Some(StringListAt(entries, path)), entries)
    ensures !Present(entries, path) && !withSave ==> r == Read(default, entries)
    ensures !Present(entries, path) && withSave ==>
              r.store == Put(entries, path, ListValue(default)) &&
              r.value == Some(if default.Some? then default.value else [])
  {
    if !Present(entries, path) && !withSave then Read(default, entries)
    else
      var e := if !Present(entries, path) then Put(entries, path, ListValue(default)) else entries;
      Read(Some(StringListAt(e, path)), e)
  }
}
