/** The section state machine of the renderer, counted over a run of
    non-quoted headings (xml2rfcv2.go:163-174) followed by the closing of
    every open section at the document's end (xml2rfcv2.go:458-461).

    Each heading opens exactly one section. A heading at a level not deeper
    than the current one first closes `current - level + 1` sections; a
    deeper one closes none, however many levels it skips, and the current
    level becomes the heading's level either way. */
module Sections {

  /** How many sections `Header` closes before opening one at `level`. */
  function HeaderCloses(current: int, level: int): (r: nat)
    ensures r > 0 <==> level <= current
    ensures r > 0 ==> current - r == level - 1
  {
    if level <= current then current - level + 1 else 0
  }

  /** How many sections the end of the document closes when `level` is
      the current level: one per level above zero. */
  function SectionsToClose(level: int): (r: nat)
    ensures level >= 0 ==> r == level
    ensures level <= 0 ==> r == 0
  {
    if level > 0 then level else 0
  }

  /** The current level after the headings `levels`, starting at `current`. */
  function FinalLevel(current: int, levels: seq<int>): int {
    if levels == [] then current else levels[|levels| - 1]
  }

  /** Section closing tags written by the headings `levels`. */
  function HeadingCloses(current: int, levels: seq<int>): nat {
    if levels == [] then 0
    else
      var init := levels[..|levels| - 1];
      HeadingCloses(current, init) + HeaderCloses(FinalLevel(current, init), levels[|levels| - 1])
  }

  /** The levels skipped by the headings `levels`: a heading at depth
      `d + k` right after depth `d` skips `k - 1` levels. */
  function Skipped(current: int, levels: seq<int>): nat {
    if levels == [] then 0
    else
      var init := levels[..|levels| - 1];
      var prev := FinalLevel(current, init);
      var last := levels[|levels| - 1];
      Skipped(current, init) + (if last > prev + 1 then last - prev - 1 else 0)
  }

  /** The level in force when heading `i` of `levels` arrives. */
  function LevelBefore(current: int, levels: seq<int>, i: nat): int
    requires i < |levels|
  {
    if i == 0 then current else levels[i - 1]
  }

  /** No heading is more than one level deeper than the one before it. */
  predicate RisesByAtMostOne(current: int, levels: seq<int>) {
    forall i :: 0 <= i < |levels| ==> levels[i] <= LevelBefore(current, levels, i) + 1
  }

  /** Exact counts for any run of headings: the closes the headings write
      plus the current level at the end equal the level at the start plus
      the number of sections opened plus the number of levels skipped. */
  lemma {:induction false} SectionCounts(current: int, levels: seq<int>)
    ensures HeadingCloses(current, levels) + FinalLevel(current, levels)
            == current + |levels| + Skipped(current, levels)
  {
    if levels != [] {
      SectionCounts(current, levels[..|levels| - 1]);
    }
  }

  /** No level is skipped exactly when every heading rises by at most one. */
  lemma {:induction false} NoSkipIffRisesByAtMostOne(current: int, levels: seq<int>)
    ensures Skipped(current, levels) == 0 <==> RisesByAtMostOne(current, levels)
  {
    if levels != [] {
      var n := |levels|;
      var init := levels[..n - 1];
      var prev := FinalLevel(current, init);
      NoSkipIffRisesByAtMostOne(current, init);
      assert prev == if n == 1 then current else levels[n - 2];
      assert forall i :: 0 <= i < n - 1 ==> init[i] == levels[i];
      if RisesByAtMostOne(current, levels) {
        forall i | 0 <= i < n - 1
          ensures init[i] <= LevelBefore(current, init, i) + 1
        {
          assert levels[i] <= LevelBefore(current, levels, i) + 1;
        }
        assert levels[n - 1] <= LevelBefore(current, levels, n - 1) + 1;
      } else {
        var i :| 0 <= i < n && levels[i] > LevelBefore(current, levels, i) + 1;
        if i < n - 1 {
          assert init[i] > LevelBefore(current, init, i) + 1;
        } else {
          assert levels[n - 1] > prev + 1;
        }
      }
    }
  }

  /** Balanced nesting: starting with no open section, when headings are
      at level one or deeper and rise by at most one level at a time, the
      closes written by the headings and by the document's end together
      equal the sections opened. */
  lemma {:induction false} Balanced(levels: seq<int>)
    requires forall i :: 0 <= i < |levels| ==> levels[i] >= 1
    requires RisesByAtMostOne(0, levels)
    ensures HeadingCloses(0, levels) + SectionsToClose(FinalLevel(0, levels)) == |levels|
  {
    SectionCounts(0, levels);
    NoSkipIffRisesByAtMostOne(0, levels);
  }

  /** Skipping a level breaks the balance: with headings at level one or
      deeper, a run that skips any level ends with more section closes
      than section opens, one extra per skipped level. */
  lemma {:induction false} OverclosesWhenSkipping(levels: seq<int>)
    requires forall i :: 0 <= i < |levels| ==> levels[i] >= 1
    requires !RisesByAtMostOne(0, levels)
    ensures HeadingCloses(0, levels) + SectionsToClose(FinalLevel(0, levels))
            == |levels| + Skipped(0, levels) > |levels|
  {
    SectionCounts(0, levels);
    NoSkipIffRisesByAtMostOne(0, levels);
  }

  /** Level 1 then level 3: two sections opened, none closed by the
      headings, three closed at the end. */
  lemma SkipFromOneToThree()
    ensures HeadingCloses(0, [1, 3]) == 0
    ensures FinalLevel(0, [1, 3]) == 3
    ensures SectionsToClose(FinalLevel(0, [1, 3])) == |[1, 3]| + 1
  {
  }
}
