/** Merge sessions in which taking both sides of a conflict and reverting them loses a line. */
module MergeExamples {
  import opened Common
  import opened Scripts
  import opened Texts
  import opened Regions
  import opened MergeChoices
  import opened MergeStacks
  import opened MergeSessions
  import M = MergeText

  // ---- three texts that part in their last line

  /** The differ keeps the first `n` lines, and takes one line of the base out below them. */
  ghost predicate KeepsFirst(changes: Option<seq<Change>>, n: nat)
  {
    && changes.Some? && changes.value != [] && changes.value[0] == Kept(n) && n > 0
    && RemovedBy(changes.value, |changes.value|) == 1
  }

  lemma {:induction false} ScriptKeeps(n: nat, changes: seq<Change>)
    requires n > 0 && (changes == [Kept(n), Removed(1)] || changes == [Kept(n), Removed(1), Added(1)])
    ensures KeepsFirst(Some(changes), n)
  {
    OneMoreChange(changes, 0);
    OneMoreChange(changes, 1);
    if |changes| == 3 { OneMoreChange(changes, 2); }
  }

  lemma {:induction false} HunkNotEmpty(base: seq<string>, lines: seq<string>, hs: seq<Hunk>, b: nat, l: nat, p: nat, q: nat, j: nat)
    requires Mismatches(base, lines, hs, b, l, p, q) && j < |hs|
    ensures hs[j].baseFrom < hs[j].baseTo || hs[j].lineFrom < hs[j].lineTo
    decreases |hs|
  {
    if j > 0 { HunkNotEmpty(base, lines, hs[1..], hs[0].baseTo, hs[0].lineTo, p, q, j - 1); }
  }

  /** So every hunk is below the lines kept. */
  lemma {:induction false} HunksBelow(base: seq<string>, lines: seq<string>, hs: seq<Hunk>, changes: seq<Change>, n: nat)
    requires Mismatches(base, lines, hs, 0, 0, |base|, |lines|) && KeepsFirst(Some(changes), n) && KeptOut(changes, |changes|, hs, 0, 0)
    ensures forall j :: 0 <= j < |hs| ==> n <= hs[j].baseFrom
  {
    assert OldAt(changes, 0) == 0 && NewAt(changes, 0) == 0 && OldAt(changes, 1) == n;
    forall j | 0 <= j < |hs| ensures n <= hs[j].baseFrom {
      HunkNotEmpty(base, lines, hs, 0, 0, |base|, |lines|, j);
      assert changes[0].Kept? && Apart(changes, 0, hs[j], 0, 0);
    }
  }

  lemma {:induction false} TakenOf(a: Hunk, b: Hunk)
    ensures Taken([a]) == a.baseTo - a.baseFrom
    ensures Taken([a, b]) == a.baseTo - a.baseFrom + b.baseTo - b.baseFrom
  {
    assert [a][..0] == [] && [a, b][..1] == [a];
  }

  lemma {:induction false} HunksApart(base: seq<string>, lines: seq<string>, hs: seq<Hunk>, b: nat, l: nat, p: nat, q: nat, j: nat)
    requires Mismatches(base, lines, hs, b, l, p, q) && j + 1 < |hs|
    ensures hs[j].baseFrom <= hs[j].baseTo < hs[j + 1].baseFrom <= hs[j + 1].baseTo <= p
    decreases |hs|
  {
    if j > 0 {
      HunksApart(base, lines, hs[1..], hs[0].baseTo, hs[0].lineTo, p, q, j - 1);
    } else {
      MismatchesEnd(base, lines, hs, b, l, p, q, 1);
    }
  }

  /** Two hunks a line apart, at the two ends of one line, take nothing out. */
  lemma {:induction false} TwoHunks(base: seq<string>, lines: seq<string>, hs: seq<Hunk>, n: nat)
    requires |base| == n + 1 && Mismatches(base, lines, hs, 0, 0, n + 1, |lines|) && |hs| >= 2
    requires forall j :: 0 <= j < |hs| ==> n <= hs[j].baseFrom
    ensures Taken(hs) == 0
  {
    HunksApart(base, lines, hs, 0, 0, n + 1, |lines|, 0);
    if |hs| > 2 {
      HunksApart(base, lines, hs, 0, 0, n + 1, |lines|, 1);
    } else {
      assert hs == [hs[0], hs[1]];
      TakenOf(hs[0], hs[1]);
    }
  }

  /** One base line taken out, the last: there is one hunk, of that line and all there is instead. */
  lemma {:induction false} OneHunk(base: seq<string>, lines: seq<string>, hs: seq<Hunk>, n: nat)
    requires |base| == n + 1 && Mismatches(base, lines, hs, 0, 0, n + 1, |lines|) && Taken(hs) != 0
    requires forall j :: 0 <= j < |hs| ==> n <= hs[j].baseFrom
    ensures |lines| >= n && hs == [Hunk(n, n + 1, n, |lines|)]
  {
    if |hs| >= 2 {
      TwoHunks(base, lines, hs, n);
    } else {
      var h := hs[0];
      assert hs == [h] && hs[1..] == [];
      TakenOf(h, h);
      assert |base[0..h.baseFrom]| == |lines[0..h.lineFrom]| && |base[h.baseTo..n + 1]| == |lines[h.lineTo..|lines|]|;
    }
  }

  lemma {:induction false} FlatOne(group: seq<SideHunk>)
    ensures Flat([group]) == group
  {
    assert [group][..0] == [] && [] + group == group;
  }

  lemma {:induction false} FlatFew(groups: seq<seq<SideHunk>>)
    ensures |groups| == 1 ==> Flat(groups) == groups[0]
    ensures |groups| == 2 ==> Flat(groups) == groups[0] + groups[1]
  {
    if |groups| == 1 {
      assert groups == [groups[0]];
      FlatOne(groups[0]);
    } else if |groups| == 2 {
      assert groups[..1] == [groups[0]];
      FlatOne(groups[0]);
    }
  }

  lemma {:induction false} FlatLong(groups: seq<seq<SideHunk>>)
    requires forall k :: 0 <= k < |groups| ==> groups[k] != []
    ensures |Flat(groups)| >= |groups|
  {
    if groups != [] { FlatLong(groups[..|groups| - 1]); }
  }

  lemma {:induction false} GroupOfOne(base: seq<string>, local: seq<string>, remote: seq<string>, g: Region, h: SideHunk)
    requires RegionOk(base, local, remote, g, [h], true)
    ensures g.base == h.base
  {
  }

  /** Hunks of one range are in one group. */
  lemma {:induction false} OneGroup(s: Session, regions: seq<Region>, groups: seq<seq<SideHunk>>, a: SideHunk, b: SideHunk)
    requires RegionsOk(s.baseLines, s.localLines, s.remoteLines, regions, groups, true)
    requires Flat(groups) == [a, b] && a.base == b.base
    ensures groups == [[a, b]] && |regions| == 1
  {
    forall k | 0 <= k < |groups| ensures groups[k] != [] {
      assert RegionOk(s.baseLines, s.localLines, s.remoteLines, regions[k], groups[k], true);
    }
    FlatLong(groups);
    FlatFew(groups);
    if |groups| == 2 {
      OneEach(groups[0], groups[1], a, b);
      TwoGroups(s, regions, groups, a, b);
    }
  }

  lemma {:induction false} OneEach(x: seq<SideHunk>, y: seq<SideHunk>, a: SideHunk, b: SideHunk)
    requires x + y == [a, b] && x != [] && y != []
    ensures x == [a] && y == [b]
  {
    assert |x| + |y| == 2 && (x + y)[0] == x[0] && (x + y)[1] == y[0];
  }

  lemma {:induction false} TwoGroups(s: Session, regions: seq<Region>, groups: seq<seq<SideHunk>>, a: SideHunk, b: SideHunk)
    requires |regions| == 2 && groups == [[a], [b]] && AllRegions(s.baseLines, s.localLines, s.remoteLines, regions, groups, true)
    requires a.base == b.base
    ensures !Parted(regions, 1, true)
  {
    assert groups[0] == [a] && groups[1] == [b];
    GroupOfOne(s.baseLines, s.localLines, s.remoteLines, regions[0], a);
    GroupOfOne(s.baseLines, s.localLines, s.remoteLines, regions[1], b);
  }

  /** One hunk of the last line on both sides makes one region. */
  lemma {:induction false} OneRegion(s: Session, regions: seq<Region>, groups: seq<seq<SideHunk>>, n: nat)
    requires RegionsOk(s.baseLines, s.localLines, s.remoteLines, regions, groups, true)
    requires |s.baseLines| == n + 1 && |s.localLines| >= n && |s.remoteLines| >= n
    requires Flat(groups) == Merged([Hunk(n, n + 1, n, |s.localLines|)], [Hunk(n, n + 1, n, |s.remoteLines|)])
    ensures regions == [Region(Range(n, n + 1), Range(n, |s.localLines|), Range(n, |s.remoteLines|), true, true)]
  {
    var ours, theirs := Hunk(n, n + 1, n, |s.localLines|), Hunk(n, n + 1, n, |s.remoteLines|);
    MergedTwo(ours, theirs);
    OneGroup(s, regions, groups, Sided(Local, ours), Sided(Remote, theirs));
    assert RegionOk(s.baseLines, s.localLines, s.remoteLines, regions[0], groups[0], true);
    RegionIs(s, regions[0], groups[0], n, ours, theirs);
  }

  lemma {:induction false} MergedTwo(a: Hunk, b: Hunk)
    requires a.baseFrom == b.baseFrom
    ensures var m := [Sided(Local, a), Sided(Remote, b)];
      Merged([a], [b]) == m && OfSide(m, Local) == [a] && OfSide(m, Remote) == [b]
  {
    OfSideMerged([a], [b]);
    assert [a][1..] == [] && [b][1..] == [];
    assert Merged([], [b]) == [Sided(Remote, b)] + Merged([], []);
  }

  lemma {:induction false} RegionIs(s: Session, g: Region, group: seq<SideHunk>, n: nat, ours: Hunk, theirs: Hunk)
    requires RegionOk(s.baseLines, s.localLines, s.remoteLines, g, group, true) && |s.baseLines| == n + 1
    requires group == [Sided(Local, ours), Sided(Remote, theirs)] && OfSide(group, Local) == [ours] && OfSide(group, Remote) == [theirs]
    requires ours == Hunk(n, n + 1, n, |s.localLines|) && theirs == Hunk(n, n + 1, n, |s.remoteLines|)
    ensures g == Region(Range(n, n + 1), Range(n, |s.localLines|), Range(n, |s.remoteLines|), true, true)
  {
    assert [ours][1..] == [] && [theirs][1..] == [];
    assert g.base == Range(n, n + 1);
    SidesOf(s.baseLines, s.localLines, ours, n, g.local);
    SidesOf(s.baseLines, s.remoteLines, theirs, n, g.remote);
  }

  lemma {:induction false} SidesOf(base: seq<string>, lines: seq<string>, h: Hunk, n: nat, r: Range)
    requires Mismatches(base, lines, [h], n, r.from, n + 1, r.upto) && h == Hunk(n, n + 1, n, |lines|)
    ensures r == Range(n, |lines|)
  {
    assert [h][1..] == [];
    assert |base[n..n]| == |lines[r.from..n]| && |base[n + 1..n + 1]| == |lines[|lines|..r.upto]|;
  }

  // ---- the session of such texts

  /** The lines before the region, its own, and none after it. */
  lemma {:induction false} RegionLines(s: Session, regions: seq<Region>, n: nat)
    requires |s.baseLines| == n + 1 && |s.localLines| >= n && |s.remoteLines| >= n
    requires regions == [Region(Range(n, n + 1), Range(n, |s.localLines|), Range(n, |s.remoteLines|), true, true)]
    ensures LinesAt(s.baseLines, s.localLines, s.remoteLines, regions[0])
         == Lines(s.baseLines[n..], Both(s.localLines[n..], s.remoteLines[n..]))
    ensures Pre(s.baseLines, regions, PartsOf(s, regions), 0) == s.baseLines[..n]
    ensures Post(s.baseLines, regions, PartsOf(s, regions), 0) == []
  {
    assert s.baseLines[n..n + 1] == s.baseLines[n..] && s.baseLines[n + 1..n + 1] == [];
    assert s.localLines[n..|s.localLines|] == s.localLines[n..] && s.remoteLines[n..|s.remoteLines|] == s.remoteLines[n..];
    assert M.Laid(s.baseLines, regions, PartsOf(s, regions), 0) == [] && [] + s.baseLines[0..n] == s.baseLines[..n];
  }

  /** Where the sides differ below the lines kept, there is one change, a conflict over the last line. */
  method LastLineConflict(differ: LineDiffer, base: string, local: string, remote: string, ghost n: nat)
    returns (s: Session, ghost regions: seq<Region>, ghost groups: seq<seq<SideHunk>>)
    requires IsDiffer(differ) && |ToLines(base)| == n + 1
    requires KeepsFirst(differ(ToLines(base), ToLines(local)), n) && KeepsFirst(differ(ToLines(base), ToLines(remote)), n)
    requires |ToLines(local)| >= n && |ToLines(remote)| >= n ==> ToLines(local)[n..] != ToLines(remote)[n..]
    ensures s.baseLines == ToLines(base) && s.localLines == ToLines(local) && s.remoteLines == ToLines(remote)
    ensures SessionOk(s, regions, groups) && |s.changes| == 1 && s.changes[0].conflict
    ensures s.changes[0].status == Both(Open, Open) && |s.localLines| >= n && |s.remoteLines| >= n
    ensures |regions| == 1 && LinesAt(s.baseLines, s.localLines, s.remoteLines, regions[0])
         == Lines(s.baseLines[n..], Both(s.localLines[n..], s.remoteLines[n..]))
    ensures EditorOk(Editor(s.text, s.changes[0]), Lines(s.baseLines[n..], Both(s.localLines[n..], s.remoteLines[n..])), s.baseLines[..n], [])
  {
    ghost var ours, theirs;
    s, regions, groups, ours, theirs := BuildMergeSession(differ, base, local, remote);
    HunksBelow(s.baseLines, s.localLines, ours, differ(s.baseLines, s.localLines).value, n);
    HunksBelow(s.baseLines, s.remoteLines, theirs, differ(s.baseLines, s.remoteLines).value, n);
    OneHunk(s.baseLines, s.localLines, ours, n);
    OneHunk(s.baseLines, s.remoteLines, theirs, n);
    OneRegion(s, regions, groups, n);
    RegionLines(s, regions, n);
    FreshIsOk(s, regions, groups, 0);
  }

  lemma {:induction false} LinesOf(text: string, lines: seq<string>)
    requires text == Join(lines) && lines != [] && NoBreaks(lines) && '\r' !in text
    ensures ToLines(text) == lines
  {
    ToLfKeeps(text);
    SplitJoin(lines);
  }

  /** A conflict over the last line shows the base's own text until it is clicked. */
  lemma {:induction false} ShowsBase(e: Editor, lines: Lines, pre: seq<string>)
    requires EditorOk(e, lines, pre, []) && e.change.conflict && e.change.status == Both(Open, Open)
    ensures e.text == Join(pre + lines.base)
  {
    assert pre + lines.base + [] == pre + lines.base;
  }

  /** This device's side taken, then the other's, and both reverted in that order, the text is `left`. */
  ghost predicate Reverted(s: Session, regions: seq<Region>, left: string)
    requires |s.changes| == |regions| == 1
  {
    var lines := LinesAt(s.baseLines, s.localLines, s.remoteLines, regions[0]);
    var last := After(Editor(s.text, s.changes[0]), lines, TakeAndRevert(Local, Local));
    last.Some? && last.value.text == left
  }

  // ---- this side removed the last line, the other changed it

  lemma {:induction false} LastLineTexts()
    ensures ToLines("a\nb") == ["a", "b"] && ToLines("a") == ["a"] && ToLines("a\nB") == ["a", "B"]
  {
    LinesOf("a\nb", ["a", "b"]);
    LinesOf("a", ["a"]);
    LinesOf("a\nB", ["a", "B"]);
  }

  lemma {:induction false} LastLineLoses()
    ensures var pre: seq<string> := [] + ["a"];
      LosesLine(Lines(["b"], Both([], ["B"])), pre, [], Local) && Join(pre + ["b"]) == "a\nb" && Join([] + ["b"]) == "b"
  {
    var pre: seq<string> := [] + ["a"];
    assert pre == ["a"] && pre + ["b"] == ["a", "b"] && [] + ["b"] == ["b"];
    assert Both([], ["B"]).At(Local) == [] && Both([], ["B"]).At(Remote) == ["B"];
  }

  /** Taking both sides there and reverting them in the same order loses the line above: "a" is gone. */
  method SecondRevertLosesLine(differ: LineDiffer) returns (s: Session, ghost regions: seq<Region>, ghost groups: seq<seq<SideHunk>>)
    requires IsDiffer(differ)
    requires differ(["a", "b"], ["a"]) == Some([Kept(1), Removed(1)])
    requires differ(["a", "b"], ["a", "B"]) == Some([Kept(1), Removed(1), Added(1)])
    ensures s.baseLines == ToLines("a\nb") && s.localLines == ToLines("a") && s.remoteLines == ToLines("a\nB")
    ensures SessionOk(s, regions, groups) && |s.changes| == |regions| == 1 && s.changes[0].conflict && s.text == "a\nb"
    ensures Reverted(s, regions, "b")
  {
    LastLineTexts();
    ScriptKeeps(1, [Kept(1), Removed(1)]);
    ScriptKeeps(1, [Kept(1), Removed(1), Added(1)]);
    s, regions, groups := LastLineConflict(differ, "a\nb", "a", "a\nB", 1);
    ghost var e, lines := Editor(s.text, s.changes[0]), Lines(["b"], Both([], ["B"]));
    assert s.baseLines[1..] == ["b"] && s.localLines[1..] == [] && s.remoteLines[1..] == ["B"] && s.baseLines[..1] == [] + ["a"];
    LastLineLoses();
    ShowsBase(e, lines, [] + ["a"]);
    LineAboveGone(e, lines, [], "a", Local, "b");
  }

  // ---- below an empty line, this side changed the last line and the other emptied it

  lemma {:induction false} BlankTexts()
    ensures ToLines("a\n\nb") == ["a", "", "b"] && ToLines("a\n\nB") == ["a", "", "B"] && ToLines("a\n\n") == ["a", "", ""]
  {
    BelowBlank("a\n\nb", "b");
    BelowBlank("a\n\nB", "B");
    BelowBlank("a\n\n", "");
  }

  lemma {:induction false} BelowBlank(text: string, last: string)
    requires text == "a" + "\n" + ("" + "\n" + last) && '\n' !in last && '\r' !in last
    ensures ToLines(text) == ["a", "", last]
  {
    var lines := ["a", "", last];
    var below := ["", last];
    assert lines[1..] == below && below[1..] == [last] && Join([last]) == last;
    assert Join(below) == "" + "\n" + last && Join(lines) == "a" + "\n" + Join(below);
    LinesOf(text, lines);
  }

  lemma {:induction false} BlankLoses()
    ensures var pre := ["a"] + [""];
      LosesLine(Lines(["b"], Both(["B"], [""])), pre, [], Local) && Join(pre + ["b"]) == "a\n\nb" && Join(["a"] + ["b"]) == "a\nb"
  {
    var pre := ["a"] + [""];
    assert pre == ["a", ""] && pre + ["b"] == ["a", "", "b"] && pre[1..] == [""];
    assert ["a", "", "b"][1..] == ["", "b"] && ["", "b"][1..] == ["b"] && Join(["", "b"]) == "\nb";
    assert Join(["a", "", "b"]) == "a\n\nb" && Join([""]) == "" && Join(pre) == "a\n";
    assert ["a"] + ["b"] == ["a", "b"];
    assert Both(["B"], [""]).At(Local) == ["B"] && Both(["B"], [""]).At(Remote) == [""];
  }

  /** There the empty line above goes as well. */
  method SecondRevertLosesBlank(differ: LineDiffer) returns (s: Session, ghost regions: seq<Region>, ghost groups: seq<seq<SideHunk>>)
    requires IsDiffer(differ)
    requires differ(["a", "", "b"], ["a", "", "B"]) == Some([Kept(2), Removed(1), Added(1)])
    requires differ(["a", "", "b"], ["a", "", ""]) == Some([Kept(2), Removed(1), Added(1)])
    ensures s.baseLines == ToLines("a\n\nb") && s.localLines == ToLines("a\n\nB") && s.remoteLines == ToLines("a\n\n")
    ensures SessionOk(s, regions, groups) && |s.changes| == |regions| == 1 && s.changes[0].conflict && s.text == "a\n\nb"
    ensures Reverted(s, regions, "a\nb")
  {
    BlankTexts();
    ScriptKeeps(2, [Kept(2), Removed(1), Added(1)]);
    s, regions, groups := LastLineConflict(differ, "a\n\nb", "a\n\nB", "a\n\n", 2);
    ghost var e, lines := Editor(s.text, s.changes[0]), Lines(["b"], Both(["B"], [""]));
    assert s.baseLines[2..] == ["b"] && s.localLines[2..] == ["B"] && s.remoteLines[2..] == [""] && s.baseLines[..2] == ["a"] + [""];
    BlankLoses();
    ShowsBase(e, lines, ["a"] + [""]);
    LineAboveGone(e, lines, ["a"], "", Local, "a\nb");
  }
}
