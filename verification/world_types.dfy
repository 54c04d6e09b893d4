/**
 * The four built-in world categories and the parsing of a section's
 * "Types" list into them.
 */
module WorldTypes {
  import opened ConfigStore

  datatype WorldType = Default | Normal | TheEnd | Nether

  /** The label that names a category in configuration. */
  function Label(t: WorldType): string
  {
    match t
    case Default => "DEFAULT"
    case Normal => "NORMAL"
    case TheEnd => "THE_END"
    case Nether => "NETHER"
  }

  /** ASCII case folding of one character. */
  function FoldCase(c: char): char
  {
    if 'A' <= c <= 'Z' then (c as int + 32) as char else c
  }

  /** A string with every ASCII capital lowered. */
  function ToLower(s: string): (r: string)
    ensures |r| == |s| && forall i :: 0 <= i < |s| ==> r[i] == FoldCase(s[i])
  {
    seq(|s|, i requires 0 <= i < |s| => FoldCase(s[i]))
  }

  /** `equalsIgnoreCase`: same length, same characters after case folding. */
  predicate EqualsIgnoreCase(a: string, b: string)
  {
    ToLower(a) == ToLower(b)
  }

  /** Folding is idempotent, so equality ignoring case is the same for a folded string. */
  lemma {:induction false} ToLowerIdempotent(s: string)
    ensures ToLower(ToLower(s)) == ToLower(s)
  {
    var l := ToLower(s);
    forall i | 0 <= i < |s|
      ensures ToLower(l)[i] == l[i]
    {
      assert l[i] == FoldCase(s[i]);
    }
  }

  /** The category a single label names, whatever its case. */
  function ParseWorldType(s: string): (r: Option<WorldType>)
    ensures forall t :: r == Some(t) <==> EqualsIgnoreCase(s, Label(t))
  {
    LabelsApart(s);
    if EqualsIgnoreCase(s, "DEFAULT") then Some(Default)
    else if EqualsIgnoreCase(s, "NORMAL") then Some(Normal)
    else if EqualsIgnoreCase(s, "THE_END") then Some(TheEnd)
    else if EqualsIgnoreCase(s, "NETHER") then Some(Nether)
    else None
  }

  /** Every label parses back to its category, in capitals or in lower case. */
  lemma {:induction false} LabelRoundTrip(t: WorldType)
    ensures ParseWorldType(Label(t)) == Some(t)
    ensures ParseWorldType(ToLower(Label(t))) == Some(t)
  {
    ToLowerIdempotent(Label(t));
  }

  /** No string matches two different labels. */
  lemma LabelsApart(s: string)
    ensures forall t, u :: t != u && EqualsIgnoreCase(s, Label(t)) ==> !EqualsIgnoreCase(s, Label(u))
  {
    forall t, u | t != u && EqualsIgnoreCase(s, Label(t))
      ensures !EqualsIgnoreCase(s, Label(u))
    {
      var a, b := ToLower(Label(t)), ToLower(Label(u));
      if |a| == |b| {
        if {t, u} == {Default, TheEnd} {
          assert a[0] != b[0];
        } else if {t, u} == {Normal, Nether} {
          assert a[1] != b[1];
        }
      }
    }
  }

  /** The categories a "Types" list names, in list order; unrecognised labels are dropped. */
  function ParsedTypes(types: seq<string>): (r: seq<WorldType>)
    ensures |r| <= |types|
  {
    if types == [] then []
    else
      var head := ParseWorldType(types[0]);
      (if head.Some? then [head.value] else []) + ParsedTypes(types[1..])
  }

  /** Parsing distributes over concatenation: the output keeps the input's order. */
  lemma {:induction false} ParsedTypesAppend(a: seq<string>, b: seq<string>)
    ensures ParsedTypes(a + b) == ParsedTypes(a) + ParsedTypes(b)
    decreases |a|
  {
    if a != [] {
      assert (a + b)[1..] == a[1..] + b;
      ParsedTypesAppend(a[1..], b);
    } else {
      assert a + b == b;
    }
  }

  /** A category is parsed from a list exactly when one of the list's labels names it. */
  lemma {:induction false} ParsedTypesContains(types: seq<string>, t: WorldType)
    ensures t in ParsedTypes(types) <==> exists i :: 0 <= i < |types| && EqualsIgnoreCase(types[i], Label(t))
    decreases |types|
  {
    if types != [] {
      ParsedTypesContains(types[1..], t);
      if exists i :: 0 <= i < |types[1..]| && EqualsIgnoreCase(types[1..][i], Label(t)) {
        var i :| 0 <= i < |types[1..]| && EqualsIgnoreCase(types[1..][i], Label(t));
        assert EqualsIgnoreCase(types[i + 1], Label(t));
      }
      if exists i :: 0 <= i < |types| && EqualsIgnoreCase(types[i], Label(t)) {
        var i :| 0 <= i < |types| && EqualsIgnoreCase(types[i], Label(t));
        if i > 0 {
          assert EqualsIgnoreCase(types[1..][i - 1], Label(t));
        }
      }
    }
  }

  /** `parseWorldTypes(types)`: collect the recognised categories in order. */
  method ParseWorldTypes(types: seq<string>) returns (parsed: seq<WorldType>)
    ensures parsed == ParsedTypes(types)
  {
    parsed := [];
    for i := 0 to |types|
      invariant parsed == ParsedTypes(types[..i])
    {
      var worldType := ParseWorldType(types[i]);
      assert types[..i + 1] == types[..i] + [types[i]];
      ParsedTypesAppend(types[..i], [types[i]]);
      if worldType.None? {
        continue;
      }
      parsed := parsed + [worldType.value];
    }
    assert types[..|types|] == types;
  }
}
