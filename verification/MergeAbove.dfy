/** A line inserted right above one the other side changed: whose it is decides whether the live merge sees a conflict. */
module MergeAbove {
  import opened Common
  import opened Scripts
  import opened Texts
  import opened Regions
  import opened MergeHunks
  import Anchors
  import M = MergeText
  import E = MergeExamples

  const CHANGE := Hunk(0, 1, 0, 1)
  const INSERTION := Hunk(0, 0, 0, 1)

  /** As long as what it equals; where it is the line "a", that is too. */
  lemma {:induction false} SameLine(lines: seq<string>, p: nat, l: nat, q: nat)
    requires Same(["a"], 0, p, lines, l, q)
    ensures p <= 1 && q - l == p && (p == 1 ==> lines[l] == "a")
  {
    assert |["a"][0..p]| == |lines[l..q]|;
    if p == 1 { assert ["a"][0..1][0] == lines[l..q][0]; }
  }

  /** What agrees with the base before the second hunk, or before the end. */
  lemma {:induction false} AfterFirst(lines: seq<string>, hs: seq<Hunk>)
    requires hs != [] && Mismatches(["a"], lines, hs, 0, 0, 1, |lines|) && hs[0].baseTo == 0
    ensures hs[0].lineTo < |lines| && lines[hs[0].lineTo] == "a" && (|hs| == 1 ==> |lines| == hs[0].lineTo + 1)
    ensures |hs| > 1 ==> hs[1].baseFrom == 1 && hs[1].lineFrom == hs[0].lineTo + 1
  {
    var y, rest := hs[0].lineTo, hs[1..];
    if rest == [] {
      SameLine(lines, 1, y, |lines|);
    } else {
      MismatchesEnd(["a"], lines, hs, 0, 0, 1, |lines|, 1);
      SameLine(lines, rest[0].baseFrom, y, rest[0].lineFrom);
    }
  }

  /** A one-line text of another line is one hunk. */
  lemma {:induction false} ChangeHunk(lines: seq<string>, hs: seq<Hunk>)
    requires |lines| == 1 && lines[0] != "a" && Mismatches(["a"], lines, hs, 0, 0, 1, 1)
    ensures hs == [CHANGE]
  {
    if hs == [] {
      SameLine(lines, 1, 0, 1);
    } else {
      var h := hs[0];
      SameLine(lines, h.baseFrom, 0, h.lineFrom);
      if h.baseTo == 0 { AfterFirst(lines, hs); }
      E.OneHunk(["a"], lines, hs, 0) by { HunkTakesLine(lines, hs); }
    }
  }

  lemma {:induction false} HunkTakesLine(lines: seq<string>, hs: seq<Hunk>)
    requires hs != [] && Mismatches(["a"], lines, hs, 0, 0, 1, |lines|) && hs[0].baseFrom == 0 && hs[0].baseTo == 1
    ensures |hs| == 1 && Taken(hs) == 1
  {
    assert hs == [hs[0]];
    E.TakenOf(hs[0], hs[0]);
  }

  /** A line put in above is one hunk, where the script takes nothing out. */
  lemma {:induction false} InsertionHunk(hs: seq<Hunk>)
    requires Mismatches(["a"], ["X", "a"], hs, 0, 0, 1, 2) && Taken(hs) == 0
    ensures hs == [INSERTION]
  {
    var lines := ["X", "a"];
    if hs != [] {
      var h := hs[0];
      SameLine(lines, h.baseFrom, 0, h.lineFrom);
      if |hs| == 1 { E.TakenOf(h, h); } else { FirstTakesNone(lines, hs); }
      assert hs[..1] == [h];
      AfterFirst(lines, hs);
    }
  }

  lemma {:induction false} FirstTakesNone(lines: seq<string>, hs: seq<Hunk>)
    requires |hs| > 1 && Mismatches(["a"], lines, hs, 0, 0, 1, |lines|)
    ensures hs[0].baseTo == 0
  {
    MismatchesEnd(["a"], lines, hs, 0, 0, 1, |lines|, 1);
  }

  lemma {:induction false} TwoMerged()
    ensures Merged([CHANGE], [INSERTION]) == [Sided(Local, CHANGE), Sided(Remote, INSERTION)]
    ensures Merged([INSERTION], [CHANGE]) == [Sided(Local, INSERTION), Sided(Remote, CHANGE)]
  {
    assert [CHANGE][1..] == [] && [INSERTION][1..] == [];
    assert Merged([], [INSERTION]) == [Sided(Remote, INSERTION)] + Merged([], []);
    assert Merged([], [CHANGE]) == [Sided(Remote, CHANGE)] + Merged([], []);
  }

  /** The groups of two hunks: one of both, where they meet, or one of each. */
  lemma {:induction false} GroupsOfTwo(base: seq<string>, ours: seq<string>, room: seq<string>, regions: seq<Region>, groups: seq<seq<SideHunk>>, a: SideHunk, b: SideHunk)
    requires RegionsOk(base, ours, room, regions, groups, false) && Flat(groups) == [a, b]
    ensures groups == if Meets(a.base, b.base, false) then [[a, b]] else [[a], [b]]
  {
    forall k | 0 <= k < |groups| ensures groups[k] != [] && Linked(groups[k], false) {
      assert RegionOk(base, ours, room, regions[k], groups[k], false);
    }
    E.FlatLong(groups);
    E.FlatFew(groups);
    if |groups| == 1 {
      LinkedTwo(groups[0], a, b);
    } else {
      E.OneEach(groups[0], groups[1], a, b);
      assert Regions.Split(groups, 1, false);
      ApartTwo([a], a, b);
    }
  }

  lemma {:induction false} LinkedTwo(group: seq<SideHunk>, a: SideHunk, b: SideHunk)
    requires group == [a, b] && Linked(group, false)
    ensures Meets(a.base, b.base, false)
  {
    assert MeetsOne(group[..1], group[1], false) && group[..1] == [a];
  }

  lemma {:induction false} ApartTwo(group: seq<SideHunk>, a: SideHunk, b: SideHunk)
    requires group == [a] && !MeetsOne(group, b, false)
    ensures !Meets(a.base, b.base, false)
  {
    assert group[0] == a;
  }

  // ---- the other device's line above this one's change

  lemma {:induction false} BothRegion(ours: seq<string>, room: seq<string>, g: Region)
    requires |ours| == 1 && RegionOk(["a"], ours, room, g, [Sided(Local, CHANGE), Sided(Remote, INSERTION)], false) && |room| == 2
    ensures g == Region(Range(0, 1), Range(0, 1), Range(0, 2), true, true)
  {
    var group := [Sided(Local, CHANGE), Sided(Remote, INSERTION)];
    TwoMerged();
    OfSideMerged([CHANGE], [INSERTION]);
    assert g.base == Range(0, 1) by {
      var k :| 0 <= k < |group| && group[k].base.upto == g.base.upto;
      assert group[0].base.upto <= g.base.upto;
    }
    OneHunkRange(["a"], ours, CHANGE, g.local);
    InsertionRange(room, g.remote);
  }

  lemma {:induction false} InsertionRange(lines: seq<string>, r: Range)
    requires Mismatches(["a"], lines, [INSERTION], 0, r.from, 1, r.upto)
    ensures r == Range(0, 2)
  {
    assert [INSERTION][1..] == [];
    assert |["a"][0..0]| == |lines[r.from..0]| && |["a"][0..1]| == |lines[1..r.upto]|;
  }

  /** Lines that share a start share the first line, and with an end the last. */
  lemma {:induction false} SharedLines(theirs: seq<string>, mine: seq<string>, head: nat, tail: nat)
    requires theirs != [] && mine != [] && Anchors.SharedEnds(theirs, mine, head, tail)
    ensures head > 0 ==> theirs[0] == mine[0]
    ensures tail > 0 ==> theirs[|theirs| - 1] == mine[|mine| - 1]
  {
    if head > 0 { assert theirs[..head][0] == mine[..head][0]; }
    if tail > 0 { assert theirs[|theirs| - tail..][tail - 1] == mine[|mine| - tail..][tail - 1]; }
  }

  /** Both are kept, the other device's text first. */
  lemma {:induction false} BothAbove(part: seq<string>)
    requires exists head, tail :: M.IsBoth(part, ["X", "a"], ["A"], head, tail)
    ensures part == ["X", "a", "A"]
  {
    var theirs, mine := ["X", "a"], ["A"];
    var head, tail :| M.IsBoth(part, theirs, mine, head, tail);
    SharedLines(theirs, mine, head, tail);
    assert part == theirs[..2] + mine[0..1] + theirs[2..];
  }

  lemma {:induction false} OnePart(regions: seq<Region>, parts: seq<seq<string>>)
    requires |regions| == |parts| == 1 && regions[0].base == Range(0, 1)
    ensures M.Whole(["a"], regions, parts) == parts[0]
  {
    assert M.Laid(["a"], regions, parts, 0) == [];
  }

  lemma {:induction false} ConflictAbove(regions: seq<Region>, groups: seq<seq<SideHunk>>, parts: seq<seq<string>>, mine: seq<Hunk>, theirs: seq<Hunk>)
    requires M.IsMerge(["a"], ["A"], ["X", "a"], regions, groups, parts) && Gathered(["a"], ["A"], ["X", "a"], groups, mine, theirs)
    requires Taken(theirs) == 0
    ensures M.Whole(["a"], regions, parts) == ["X", "a", "A"]
  {
    ChangeHunk(["A"], mine);
    InsertionHunk(theirs);
    TwoMerged();
    GroupsOfTwo(["a"], ["A"], ["X", "a"], regions, groups, Sided(Local, CHANGE), Sided(Remote, INSERTION));
    assert RegionOk(["a"], ["A"], ["X", "a"], regions[0], groups[0], false);
    BothRegion(["A"], ["X", "a"], regions[0]);
    assert M.PartOk(["A"], ["X", "a"], regions[0], parts[0]);
    assert ["A"][0..1] == ["A"] && ["X", "a"][0..2] == ["X", "a"];
    BothAbove(parts[0]);
    OnePart(regions, parts);
  }

  // ---- this device's line above the other's change

  lemma {:induction false} TwoParts(regions: seq<Region>, parts: seq<seq<string>>)
    requires |regions| == |parts| == 2 && regions[0].base == Range(0, 0) && regions[1].base == Range(0, 1)
    ensures M.Whole(["a"], regions, parts) == parts[0] + parts[1]
  {
    assert M.Laid(["a"], regions, parts, 0) == [] && M.Laid(["a"], regions, parts, 1) == parts[0];
  }

  lemma {:induction false} NoConflictAbove(regions: seq<Region>, groups: seq<seq<SideHunk>>, parts: seq<seq<string>>, mine: seq<Hunk>, theirs: seq<Hunk>)
    requires M.IsMerge(["a"], ["X", "a"], ["A"], regions, groups, parts) && Gathered(["a"], ["X", "a"], ["A"], groups, mine, theirs)
    requires Taken(mine) == 0
    ensures M.Whole(["a"], regions, parts) == ["X", "A"]
  {
    InsertionHunk(mine);
    ChangeHunk(["A"], theirs);
    TwoMerged();
    var h, g := Sided(Local, INSERTION), Sided(Remote, CHANGE);
    GroupsOfTwo(["a"], ["X", "a"], ["A"], regions, groups, h, g);
    assert RegionOk(["a"], ["X", "a"], ["A"], regions[0], groups[0], false) && RegionOk(["a"], ["X", "a"], ["A"], regions[1], groups[1], false);
    SingleIsOwn(["a"], ["X", "a"], ["A"], regions[0], h, false);
    SingleIsOwn(["a"], ["X", "a"], ["A"], regions[1], g, false);
    assert M.PartOk(["X", "a"], ["A"], regions[0], parts[0]) && M.PartOk(["X", "a"], ["A"], regions[1], parts[1]);
    assert ["X", "a"][0..1] == ["X"] && ["A"][0..1] == ["A"];
    TwoParts(regions, parts);
    assert ["X"] + ["A"] == ["X", "A"];
  }

  lemma {:induction false} AboveTexts()
    ensures ToLines("a") == ["a"] && ToLines("A") == ["A"] && ToLines("X\na") == ["X", "a"]
  {
    E.LinesOf("a", ["a"]);
    E.LinesOf("A", ["A"]);
    E.LinesOf("X\na", ["X", "a"]);
  }

  lemma {:induction false} JoinedTexts()
    ensures Join(["X", "a", "A"]) == "X\na\nA" && Join(["X", "A"]) == "X\nA"
  {
    assert ["X", "a", "A"][1..] == ["a", "A"] && ["a", "A"][1..] == ["A"] && ["X", "A"][1..] == ["A"];
  }

  lemma {:induction false} PutsIn(changes: seq<Change>)
    requires changes == [Added(1), Kept(1)]
    ensures RemovedBy(changes, |changes|) == 0
  {
    OneMoreChange(changes, 0);
    OneMoreChange(changes, 1);
  }

  /**
   * The base "a": this device made it "A", the other put "X" above, and the merge has both versions of the line. With
   * the devices swapped it has one.
   */
  method InsertedAbove(differ: LineDiffer) returns (merged: string, swapped: string)
    requires IsDiffer(differ) && differ(["a"], ["X", "a"]) == Some([Added(1), Kept(1)])
    ensures merged == "X\na\nA" && swapped == "X\nA"
  {
    AboveTexts();
    JoinedTexts();
    PutsIn([Added(1), Kept(1)]);
    ghost var regions, groups, parts, mine, theirs;
    merged, regions, groups, parts, mine, theirs := M.MergeThreeWay(differ, "a", "A", "X\na");
    ConflictAbove(regions, groups, parts, mine, theirs);
    swapped, regions, groups, parts, mine, theirs := M.MergeThreeWay(differ, "a", "X\na", "A");
    NoConflictAbove(regions, groups, parts, mine, theirs);
  }
}
