/**
 * Normalisation of the `levels` setting of the PSR-3 engine: entries that are
 * not one of the eight PSR-3 level names are removed (keys of the remaining
 * entries are kept), and an empty result enables all eight.
 */
module Levels {
  import opened Php

  /** `Psr\Log\LogLevel`, in the order the engine lists them (most urgent first). */
  const AllowedLevels: seq<string> :=
    ["emergency", "alert", "critical", "error", "warning", "notice", "info", "debug"]

  /** `in_array($level, $allowedLevels, true)`: strict, so only strings qualify. */
  predicate IsAllowed(v: Value) {
    v.Str? && v.s in AllowedLevels
  }

  /** The entries that survive the `unset` loop, in their original order with their keys. */
  function KeepAllowed(levels: seq<Entry>): (r: seq<Entry>)
    ensures |r| <= |levels|
    ensures forall e :: e in r <==> e in levels && IsAllowed(e.val)
  {
    if levels == [] then []
    else if IsAllowed(levels[0].val) then [levels[0]] + KeepAllowed(levels[1..])
    else KeepAllowed(levels[1..])
  }

  /** Filtering distributes over concatenation, so the relative order of kept entries is the input's. */
  lemma {:induction false} KeepAllowedConcat(a: seq<Entry>, b: seq<Entry>)
    ensures KeepAllowed(a + b) == KeepAllowed(a) + KeepAllowed(b)
  {
    if a != [] {
      assert (a + b)[1..] == a[1..] + b;
      KeepAllowedConcat(a[1..], b);
    } else {
      assert a + b == b;
    }
  }

  /** An input made only of valid levels is kept as it is. */
  lemma {:induction false} KeepAllowedAllValid(levels: seq<Entry>)
    requires forall i :: 0 <= i < |levels| ==> IsAllowed(levels[i].val)
    ensures KeepAllowed(levels) == levels
  {
    if levels != [] {
      KeepAllowedAllValid(levels[1..]);
    }
  }

  /** `static::$allowedLevels` as a PHP list: keys 0 to 7. */
  function AllLevels(): (r: seq<Entry>)
    ensures |r| == |AllowedLevels|
    ensures forall i :: 0 <= i < |r| ==> r[i] == Entry(IntKey(i), Str(AllowedLevels[i]))
  {
    seq(|AllowedLevels|, i requires 0 <= i < |AllowedLevels| => Entry(IntKey(i), Str(AllowedLevels[i])))
  }

  /**
   * The resolved `levels` setting: only PSR-3 levels, the valid entries of the
   * input in their order when there are any, otherwise all eight in canonical
   * order (a non-array setting counts as an empty one).
   */
  function ResolveLevels(levels: Value): (r: seq<Entry>)
    ensures r != []
    ensures forall i :: 0 <= i < |r| ==> IsAllowed(r[i].val)
    ensures levels.Arr? && (exists e :: e in levels.entries && IsAllowed(e.val)) ==>
      r == KeepAllowed(levels.entries)
    ensures !levels.Arr? || (forall e :: e in levels.entries ==> !IsAllowed(e.val)) ==>
      r == AllLevels()
  {
    var kept := if levels.Arr? then KeepAllowed(levels.entries) else [];
    if kept == [] then AllLevels()
    else
      assert kept[0] in kept && forall i :: 0 <= i < |kept| ==> kept[i] in kept;
      kept
  }

  /**
   * The `foreach`/`unset` loop of the constructor: walk the entries in order
   * and drop every one whose value is not a PSR-3 level.
   */
  method FilterLevels(levels: seq<Entry>) returns (kept: seq<Entry>)
    ensures kept == KeepAllowed(levels)
  {
    kept := [];
    var i := 0;
    while i < |levels|
      invariant 0 <= i <= |levels|
      invariant kept == KeepAllowed(levels[..i])
    {
      KeepAllowedConcat(levels[..i], [levels[i]]);
      assert levels[..i + 1] == levels[..i] + [levels[i]];
      if IsAllowed(levels[i].val) {
        kept := kept + [levels[i]];
      }
      i := i + 1;
    }
    assert levels[..i] == levels;
  }

  /** `['levels' => [error, warning, 'i5A64FtlPt']]` resolves to `[error, warning]` under keys 0 and 1. */
  lemma ResolveLevelsDropsUnknown()
    ensures ResolveLevels(Arr([Entry(IntKey(0), Str("error")), Entry(IntKey(1), Str("warning")),
                               Entry(IntKey(2), Str("i5A64FtlPt"))]))
         == [Entry(IntKey(0), Str("error")), Entry(IntKey(1), Str("warning"))]
  {
    var input := [Entry(IntKey(0), Str("error")), Entry(IntKey(1), Str("warning")),
                  Entry(IntKey(2), Str("i5A64FtlPt"))];
    assert !IsAllowed(input[2].val);
    assert KeepAllowed(input[2..]) == [];
    assert input[1..][1..] == input[2..];
  }
}
