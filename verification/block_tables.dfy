/**
 * Block membership tables: dense boolean arrays indexed by block id, built
 * from sparse id lists, optionally filtered by the global transparency table.
 */
module BlockTables {
  import opened ConfigStore

  /** Every table the world reader allocates has this many slots. */
  const TableSize: nat := 256

  /** The dense table of `n` slots whose slot `i` says whether `i` is listed. */
  function MembershipTable(ids: seq<int>, n: nat): (t: seq<bool>)
    ensures |t| == n
    ensures forall i :: 0 <= i < n ==> t[i] == (i in ids)
  {
    seq(n, i => i in ids)
  }

  /** The listed ids of table `t` from slot `i` on, in ascending order. */
  function IdsFrom(t: seq<bool>, i: nat): (r: seq<int>)
    requires i <= |t|
    ensures forall x :: x in r <==> i <= x < |t| && t[x]
    ensures forall j, k :: 0 <= j < k < |r| ==> r[j] < r[k]
    decreases |t| - i
  {
    if i == |t| then []
    else
      var rest := IdsFrom(t, i + 1);
      assert forall k :: 0 <= k < |rest| ==> i < rest[k] by {
        forall k | 0 <= k < |rest| ensures i < rest[k] { assert rest[k] in rest; }
      }
      (if t[i] then [i] else []) + rest
  }

  /** The sparse list a table stands for: its set slots in ascending order. */
  function TableIds(t: seq<bool>): (r: seq<int>)
    ensures forall x :: x in r <==> 0 <= x < |t| && t[x]
  {
    IdsFrom(t, 0)
  }

  /** The id list of a table that may be missing. */
  function TableIdsOf(t: Option<seq<bool>>): (r: Option<seq<int>>)
    ensures r.Some? <==> t.Some?
  {
    if t.Some? then Some(TableIds(t.value)) else None
  }

  /** Rebuilding a table from its own id list gives the same table back. */
  lemma {:induction false} TableIdsRoundTrip(t: seq<bool>)
    ensures MembershipTable(TableIds(t), |t|) == t
  {
    var r := MembershipTable(TableIds(t), |t|);
    forall i | 0 <= i < |t|
      ensures r[i] == t[i]
    {
      assert r[i] == (i in TableIds(t));
    }
  }

  /** Listing the ids of a table built from a list keeps exactly the listed ids that fit the table. */
  lemma {:induction false} MembershipTableIds(ids: seq<int>, n: nat)
    ensures forall x :: x in TableIds(MembershipTable(ids, n)) <==> 0 <= x < n && x in ids
  {
    var t := MembershipTable(ids, n);
    forall x
      ensures x in TableIds(t) <==> 0 <= x < n && x in ids
    {
      if 0 <= x < n {
        assert t[x] == (x in ids);
      }
    }
  }

  /** `isBlockTransparent(id)`: a negative id is wrapped once by 256, an id of 256 or more is opaque. */
  function IsBlockTransparent(transparent: seq<bool>, id: int): (r: bool)
    requires |transparent| == TableSize
    requires -256 <= id  // below this the wrapped id still indexes the table negatively
    ensures 0 <= id < 256 ==> r == transparent[id]
    ensures id < 0 ==> r == transparent[id + 256]
    ensures 256 <= id ==> !r
  {
    var j := if id < 0 then id + 256 else id;
    if j >= 256 then false else transparent[j]
  }

  /** The filtered table: listed ids whose transparency equals `required`. */
  function FilteredTable(ids: seq<int>, required: bool, transparent: seq<bool>, n: nat): (t: seq<bool>)
    requires |transparent| == TableSize
    ensures |t| == n
    ensures forall i :: 0 <= i < n ==> t[i] == (i in ids && IsBlockTransparent(transparent, i) == required)
  {
    seq(n, i requires 0 <= i < n => i in ids && IsBlockTransparent(transparent, i) == required)
  }

  /** Filtering can only clear slots of the plain table. */
  lemma {:induction false} FilteredWithinPlain(ids: seq<int>, required: bool, transparent: seq<bool>, n: nat, i: nat)
    requires |transparent| == TableSize && i < n
    requires FilteredTable(ids, required, transparent, n)[i]
    ensures MembershipTable(ids, n)[i]
  {
    assert i in ids;
  }

  /** `setBlockValues(boolArray, blocks)`: overwrite every slot with membership in the list. */
  method SetBlockValues(a: array<bool>, blocks: seq<int>)
    modifies a
    ensures a[..] == MembershipTable(blocks, a.Length)
  {
    for i := 0 to a.Length
      invariant forall j :: 0 <= j < i ==> a[j] == (j in blocks)
    {
      a[i] := i in blocks;
    }
  }

  /** `setBlockValues(boolArray, blocks, transparent)`: as above, then clear slots of the wrong transparency. */
  method SetBlockValuesFiltered(a: array<bool>, blocks: seq<int>, required: bool, transparent: seq<bool>)
    requires |transparent| == TableSize
    requires a.Length <= 0x8000  // slot indices are narrowed to 16 bits before the transparency lookup
    modifies a
    ensures a[..] == FilteredTable(blocks, required, transparent, a.Length)
  {
    for i := 0 to a.Length
      invariant forall j :: 0 <= j < i ==> a[j] == (j in blocks && IsBlockTransparent(transparent, j) == required)
    {
      a[i] := i in blocks;
      if required != IsBlockTransparent(transparent, i) {
        a[i] := false;
      }
    }
  }
}
