/**
 * Path disambiguation: the first of `path.key`, `path.key1`, `path.key2`, ...
 * that holds nothing in the store.
 */
module Paths {
  import opened ConfigStore

  /** Decimal rendering of a counter, as string concatenation renders an int. */
  function NatToString(n: nat): (s: string)
    ensures 1 <= |s|
    decreases n
  {
    if n < 10 then ["0123456789"[n]] else NatToString(n / 10) + ["0123456789"[n % 10]]
  }

  function Pow10(m: nat): (p: nat)
    ensures 1 <= p
  {
    if m == 0 then 1 else 10 * Pow10(m - 1)
  }

  /** A counter of at least 10^m takes more than m digits. */
  lemma {:induction false} DigitsGrow(n: nat, m: nat)
    requires Pow10(m) <= n
    ensures m < |NatToString(n)|
  {
    if m > 0 {
      assert 10 <= n;
      assert Pow10(m - 1) <= n / 10;
      DigitsGrow(n / 10, m - 1);
    }
  }

  /** The length of the longest key of a store. */
  ghost function MaxLen(keys: set<string>): (m: nat)
    ensures forall k :: k in keys ==> |k| <= m
  {
    if keys == {} then 0
    else
      var x :| x in keys;
      var rest := MaxLen(keys - {x});
      if |x| > rest then |x| else rest
  }

  /** A present path is no longer than the longest key. */
  lemma PresentWithin(entries: Store, path: string)
    requires Present(entries, path)
    ensures |path| <= MaxLen(entries.Keys)
  {
    if path !in entries {
      var k :| k in entries && Below(path, k);
      assert |k| <= MaxLen(entries.Keys);
    }
  }

  /** The n-th candidate: the base itself, then the base followed by 1, 2, ... */
  function Candidate(base: string, n: nat): string
  {
    if n == 0 then base else base + NatToString(n)
  }

  /** Numbered candidates at or beyond 10^(longest key) are never present. */
  lemma CandidateBounded(entries: Store, base: string, n: nat)
    requires Present(entries, Candidate(base, n))
    ensures 1 <= n ==> n < Pow10(MaxLen(entries.Keys))
  {
    PresentWithin(entries, Candidate(base, n));
    if 1 <= n && Pow10(MaxLen(entries.Keys)) <= n {
      DigitsGrow(n, MaxLen(entries.Keys));
    }
  }

  /** The index of the first absent candidate at or after `n`. */
  ghost function FreeIndex(entries: Store, base: string, n: nat): (m: nat)
    ensures n <= m && !Present(entries, Candidate(base, m))
    ensures forall j :: n <= j < m ==> Present(entries, Candidate(base, j))
    decreases Pow10(MaxLen(entries.Keys)) - n
  {
    if !Present(entries, Candidate(base, n)) then n
    else
      CandidateBounded(entries, base, n);
      FreeIndex(entries, base, n + 1)
  }

  /** The path `createPath` settles on: absent, and every candidate before it is present. */
  ghost function FreePath(entries: Store, path: string, key: string): (r: string)
    ensures !Present(entries, r)
    ensures exists n: nat :: r == Candidate(path + "." + key, n) &&
                             forall j: nat :: j < n ==> Present(entries, Candidate(path + "." + key, j))
  {
    Candidate(path + "." + key, FreeIndex(entries, path + "." + key, 0))
  }

  /** `createPath(path, key, config)`: probe the candidates in order and return the first absent one. */
  method CreatePath(path: string, key: string, entries: Store) returns (newPath: string)
    ensures newPath == FreePath(entries, path, key)
  {
    var base := path + "." + key;
    var counter := 1;
    newPath := base;
    while Present(entries, newPath)
      invariant 1 <= counter
      invariant newPath == Candidate(base, counter - 1)
      invariant FreeIndex(entries, base, counter - 1) == FreeIndex(entries, base, 0)
      decreases Pow10(MaxLen(entries.Keys)) - counter + 1
    {
      CandidateBounded(entries, base, counter - 1);
      newPath := base + NatToString(counter);
      counter := counter + 1;
    }
  }
}
