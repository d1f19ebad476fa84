/**
 * What the regions make of each hunk, said without the grouping: which hunks are changes of their own, and which are
 * merged with the other side's. packages/plugin/src/sync/merge-model.ts and packages/plugin/src/live/text/merge.ts.
 */
module MergeHunks {
  import opened Common
  import opened Scripts
  import opened Regions
  import M = MergeText

  /**
   * The two sides change the same base lines, one inserts between lines the other replaces, or both insert at one
   * point; the other device's insertion right above this one's change counts too, but not the other way round. Where
   * touching counts, meeting is enough.
   */
  predicate Clash(local: Range, remote: Range, touching: bool)
  {
    if touching then local.from <= remote.upto && remote.from <= local.upto
    else
      || (local.from < remote.upto && remote.from < local.upto)
      || (local == remote && local.from == local.upto)
      || (local.from == remote.from == remote.upto < local.upto)
  }

  /** `h` and `g`, each from its own side. */
  predicate Clashes(h: SideHunk, g: SideHunk, touching: bool)
  {
    if h.side == Local then Clash(h.base, g.base, touching) else Clash(g.base, h.base, touching)
  }

  /** Which side inserts makes a difference at one place alone: the line above the other's change. */
  lemma {:induction false} ClashSwaps(a: Range, b: Range, touching: bool)
    requires a.from <= a.upto && b.from <= b.upto
    ensures Clash(a, b, touching) == Clash(b, a, touching) <==> touching || a.from != b.from || (a.from == a.upto <==> b.from == b.upto)
  {
  }

  // ---- where a hunk is among the groups

  function Start(groups: seq<seq<SideHunk>>, k: nat): nat
    requires k <= |groups|
  {
    |Flat(groups[..k])|
  }

  lemma {:induction false} FlatAt(groups: seq<seq<SideHunk>>, k: nat, m: nat)
    requires k < |groups| && m < |groups[k]|
    ensures Start(groups, k) + |groups[k]| == Start(groups, k + 1) <= |Flat(groups)|
    ensures Flat(groups)[Start(groups, k) + m] == groups[k][m]
    decreases |groups|
  {
    var n := |groups| - 1;
    assert groups[..k + 1][..k] == groups[..k] && groups[..|groups|] == groups;
    if k < n {
      FlatAt(groups[..n], k, m);
      assert groups[..n][..k] == groups[..k] && groups[..n][..k + 1] == groups[..k + 1];
    }
  }

  lemma {:induction false} StartsRise(groups: seq<seq<SideHunk>>, j: nat, k: nat)
    requires j <= k <= |groups|
    ensures Start(groups, j) <= Start(groups, k)
    decreases k
  {
    if j < k {
      StartsRise(groups, j, k - 1);
      assert groups[..k][..k - 1] == groups[..k - 1];
    }
  }

  lemma {:induction false} FlatHolds(groups: seq<seq<SideHunk>>, h: SideHunk) returns (k: nat, m: nat)
    requires h in Flat(groups)
    ensures k < |groups| && m < |groups[k]| && groups[k][m] == h
    decreases |groups|
  {
    var n := |groups| - 1;
    if h in groups[n] {
      k := n;
      m :| 0 <= m < |groups[n]| && groups[n][m] == h;
    } else {
      k, m := FlatHolds(groups[..n], h);
    }
  }

  // ---- hunks of one side

  lemma {:induction false} OwnApart<T>(base: seq<T>, lines: seq<T>, hs: seq<Hunk>, b: nat, l: nat, p: nat, q: nat, i: nat, j: nat)
    requires Mismatches(base, lines, hs, b, l, p, q) && i < j < |hs|
    ensures hs[i].baseFrom <= hs[i].baseTo < hs[j].baseFrom <= hs[j].baseTo
    decreases |hs|
  {
    var x, y := hs[0].baseTo, hs[0].lineTo;
    if i > 0 {
      OwnApart(base, lines, hs[1..], x, y, p, q, i - 1, j - 1);
    } else {
      if j > 1 { OwnApart(base, lines, hs[1..], x, y, p, q, 0, j - 1); }
      MismatchesEnd(base, lines, hs, b, l, p, q, j);
    }
  }

  /** All that is known of the hunks of three texts. */
  ghost predicate Known(hs: seq<SideHunk>)
  {
    && Sorted(hs) && (forall k :: 0 <= k < |hs| ==> hs[k].base.from <= hs[k].base.upto)
    && forall i, j :: 0 <= i < j < |hs| && hs[i].side == hs[j].side ==> hs[i].base.upto < hs[j].base.from
  }

  lemma {:induction false} SameSide(base: seq<string>, lines: seq<string>, hs: seq<SideHunk>, i: nat, j: nat)
    requires Sorted(hs) && i < j < |hs| && hs[i].side == hs[j].side
    requires Mismatches(base, lines, OfSide(hs, hs[i].side), 0, 0, |base|, |lines|)
    ensures hs[i].base.upto < hs[j].base.from
  {
    var own := OfSide(hs, hs[i].side);
    assert InOrder(hs[i], hs[j]);
    var x := OfSideHolds(hs, hs[i].side, i);
    var y := OfSideHolds(hs, hs[i].side, j);
    if x < y {
      OwnApart(base, lines, own, 0, 0, |base|, |lines|, x, y);
    } else if y < x {
      OwnApart(base, lines, own, 0, 0, |base|, |lines|, y, x);
    }
  }

  lemma {:induction false} AllKnown(base: seq<string>, local: seq<string>, remote: seq<string>, groups: seq<seq<SideHunk>>, ours: seq<Hunk>, theirs: seq<Hunk>)
    requires Gathered(base, local, remote, groups, ours, theirs)
    ensures Known(Flat(groups))
  {
    var hs := Flat(groups);
    MergedInOrder(base, local, remote, ours, theirs);
    OfSideMerged(ours, theirs);
    WholeSide(base, local, hs, Local, ours);
    WholeSide(base, remote, hs, Remote, theirs);
    forall i, j | 0 <= i < j < |hs| && hs[i].side == hs[j].side ensures hs[i].base.upto < hs[j].base.from {
      SameSide(base, if hs[i].side == Local then local else remote, hs, i, j);
    }
  }

  // ---- hunks that clash are in one region

  lemma {:induction false} ClashMeets(hs: seq<SideHunk>, p: nat, q: nat, touching: bool)
    requires Known(hs) && p < q < |hs| && hs[p].side != hs[q].side
    ensures Clashes(hs[p], hs[q], touching) <==> Meets(hs[p].base, hs[q].base, touching)
    ensures Clashes(hs[q], hs[p], touching) <==> Meets(hs[p].base, hs[q].base, touching)
  {
    assert InOrder(hs[p], hs[q]);
  }

  /** What does not meet a hunk meets none after it. */
  lemma {:induction false} NoneAfter(hs: seq<SideHunk>, p: nat, i: nat, q: nat, touching: bool)
    requires Known(hs) && p < i <= q < |hs| && !Meets(hs[p].base, hs[i].base, touching)
    ensures !Meets(hs[p].base, hs[q].base, touching)
  {
    assert InOrder(hs[p], hs[i]) && (i < q ==> InOrder(hs[i], hs[q]));
  }

  /** Hunks of two groups do not meet. */
  lemma {:induction false} GroupsApart(groups: seq<seq<SideHunk>>, j: nat, a: nat, k: nat, b: nat, touching: bool)
    requires AllSplit(groups, touching) && Known(Flat(groups)) && j < k < |groups| && a < |groups[j]| && b < |groups[k]|
    ensures !Meets(groups[j][a].base, groups[k][b].base, touching)
  {
    assert Split(groups, j + 1, touching);
    FlatAt(groups, j, a);
    FlatAt(groups, j + 1, 0);
    FlatAt(groups, k, b);
    StartsRise(groups, j + 1, k);
    NoneAfter(Flat(groups), Start(groups, j) + a, Start(groups, j + 1), Start(groups, k) + b, touching);
  }

  lemma {:induction false} MeetsInGroup(groups: seq<seq<SideHunk>>, j: nat, a: nat, k: nat, b: nat, touching: bool)
    requires AllSplit(groups, touching) && Known(Flat(groups)) && j < |groups| && k < |groups| && a < |groups[j]| && b < |groups[k]|
    requires Meets(groups[j][a].base, groups[k][b].base, touching) && Start(groups, j) + a < Start(groups, k) + b
    ensures j == k
  {
    if k < j {
      FlatAt(groups, k, b);
      StartsRise(groups, k + 1, j);
    } else if j < k {
      GroupsApart(groups, j, a, k, b, touching);
    }
  }

  /** Hunks of the two sides that clash are in one group. */
  lemma {:induction false} ClashTogether(groups: seq<seq<SideHunk>>, h: SideHunk, g: SideHunk, touching: bool) returns (k: nat)
    requires AllSplit(groups, touching) && Known(Flat(groups)) && h in Flat(groups) && g in Flat(groups)
    requires h.side != g.side && Clashes(h, g, touching)
    ensures k < |groups| && h in groups[k] && g in groups[k]
  {
    var j, a := FlatHolds(groups, h);
    var i, b := FlatHolds(groups, g);
    FlatAt(groups, j, a);
    FlatAt(groups, i, b);
    var p, q := Start(groups, j) + a, Start(groups, i) + b;
    if p < q {
      ClashMeets(Flat(groups), p, q, touching);
      MeetsInGroup(groups, j, a, i, b, touching);
    } else {
      ClashMeets(Flat(groups), q, p, touching);
      MeetsInGroup(groups, i, b, j, a, touching);
    }
    k := i;
  }

  // ---- and hunks that clash with none are alone

  /** In a group of more than one, every hunk clashes with one of the other side in it. */
  lemma {:induction false} NotAlone(groups: seq<seq<SideHunk>>, k: nat, m: nat, touching: bool) returns (g: SideHunk)
    requires Known(Flat(groups)) && k < |groups| && m < |groups[k]| && |groups[k]| > 1 && Linked(groups[k], touching)
    ensures g in groups[k] && g.side != groups[k][m].side && Clashes(groups[k][m], g, touching)
  {
    var group := groups[k];
    var n := if m == 0 then 1 else m;
    assert MeetsOne(group[..n], group[n], touching);
    var i :| 0 <= i < n && Meets(group[..n][i].base, group[n].base, touching);
    FlatAt(groups, k, i);
    FlatAt(groups, k, n);
    var p, q := Start(groups, k) + i, Start(groups, k) + n;
    assert InOrder(Flat(groups)[p], Flat(groups)[q]);
    ClashMeets(Flat(groups), p, q, touching);
    g := group[if m == 0 then 1 else i];
  }

  // ---- which hunks are regions of their own

  /** A region that only this hunk's side changed, and there only at this hunk. */
  ghost predicate IsOwn(g: Region, h: SideHunk)
  {
    g.base == h.base && M.LinesOf(g, h.side) == h.lines && M.Changed(g, h.side) && !M.Changed(g, Other(h.side))
  }

  /** The hunk clashes with none of the other side's. */
  ghost predicate Undisputed(h: SideHunk, others: seq<Hunk>, touching: bool)
  {
    forall j :: 0 <= j < |others| ==> !Clashes(h, Sided(Other(h.side), others[j]), touching)
  }

  lemma {:induction false} SidedIn(hs: seq<SideHunk>, side: Side, k: nat)
    requires k < |OfSide(hs, side)|
    ensures Sided(side, OfSide(hs, side)[k]) in hs
  {
    var i := OfSideFrom(hs, side, k);
    assert hs[i] == Sided(side, OfSide(hs, side)[k]);
  }

  lemma {:induction false} OneHunkRange<T>(base: seq<T>, lines: seq<T>, h: Hunk, r: Range)
    requires Mismatches(base, lines, [h], h.baseFrom, r.from, h.baseTo, r.upto)
    ensures r == Range(h.lineFrom, h.lineTo)
  {
    assert [h][1..] == [];
    assert |base[h.baseFrom..h.baseFrom]| == |lines[r.from..h.lineFrom]| && |base[h.baseTo..h.baseTo]| == |lines[h.lineTo..r.upto]|;
  }

  /** The region of one hunk is that hunk's own. */
  lemma {:induction false} SingleIsOwn(base: seq<string>, local: seq<string>, remote: seq<string>, g: Region, h: SideHunk, touching: bool)
    requires RegionOk(base, local, remote, g, [h], touching)
    ensures IsOwn(g, h)
  {
    assert [h][1..] == [] && OfSide([h], h.side) == [Plain(h)] && OfSide([h], Other(h.side)) == [];
    assert g.base == h.base;
    OneHunkRange(base, if h.side == Local then local else remote, Plain(h), M.LinesOf(g, h.side));
  }

  /** Where one side alone changed a region, its group is one hunk. */
  lemma {:induction false} OwnIsSingle(base: seq<string>, local: seq<string>, remote: seq<string>, regions: seq<Region>, groups: seq<seq<SideHunk>>, k: nat, h: SideHunk, touching: bool)
    requires RegionsOk(base, local, remote, regions, groups, touching) && Known(Flat(groups)) && k < |groups| && IsOwn(regions[k], h)
    ensures groups[k] == [h]
  {
    var g, group := regions[k], groups[k];
    assert RegionOk(base, local, remote, g, group, touching);
    if |group| > 1 {
      var other := NotAlone(groups, k, 0, touching);
      var i :| 0 <= i < |group| && group[i] == other;
      var x := OfSideHolds(group, group[0].side, 0);
      var y := OfSideHolds(group, other.side, i);
    } else {
      assert group == [group[0]];
      SingleIsOwn(base, local, remote, g, group[0], touching);
    }
  }

  /**
   * A hunk is a region of its own, its side's change alone, exactly where it clashes with no hunk of the other side:
   * hunks that only meet stay apart where touching does not count.
   */
  lemma {:induction false} OwnRegion(base: seq<string>, local: seq<string>, remote: seq<string>, regions: seq<Region>, groups: seq<seq<SideHunk>>, ours: seq<Hunk>, theirs: seq<Hunk>, touching: bool, side: Side, n: nat)
    requires RegionsOk(base, local, remote, regions, groups, touching) && Gathered(base, local, remote, groups, ours, theirs)
    requires n < |if side == Local then ours else theirs|
    ensures var h := Sided(side, (if side == Local then ours else theirs)[n]);
      Undisputed(h, if side == Local then theirs else ours, touching) <==> exists k :: 0 <= k < |regions| && IsOwn(regions[k], h)
  {
    var h, others := Sided(side, (if side == Local then ours else theirs)[n]), if side == Local then theirs else ours;
    AllKnown(base, local, remote, groups, ours, theirs);
    OfSideMerged(ours, theirs);
    SidedIn(Flat(groups), side, n);
    if Undisputed(h, others, touching) {
      var k := UndisputedIsOwn(base, local, remote, regions, groups, ours, theirs, touching, h);
    }
    if k :| 0 <= k < |regions| && IsOwn(regions[k], h) {
      OwnIsSingle(base, local, remote, regions, groups, k, h, touching);
      OwnIsUndisputed(groups, k, h, ours, theirs, touching);
    }
  }

  lemma {:induction false} UndisputedIsOwn(base: seq<string>, local: seq<string>, remote: seq<string>, regions: seq<Region>, groups: seq<seq<SideHunk>>, ours: seq<Hunk>, theirs: seq<Hunk>, touching: bool, h: SideHunk) returns (k: nat)
    requires RegionsOk(base, local, remote, regions, groups, touching) && Flat(groups) == Merged(ours, theirs) && Known(Flat(groups))
    requires h in Flat(groups) && Undisputed(h, if h.side == Local then theirs else ours, touching)
    ensures k < |regions| && IsOwn(regions[k], h) && groups[k] == [h]
  {
    var m;
    k, m := FlatHolds(groups, h);
    assert RegionOk(base, local, remote, regions[k], groups[k], touching);
    if |groups[k]| > 1 {
      var g := NotAlone(groups, k, m, touching);
      GroupInFlat(groups, k, g);
      OthersHold(ours, theirs, g);
    } else {
      assert groups[k] == [h];
      SingleIsOwn(base, local, remote, regions[k], h, touching);
    }
  }

  lemma {:induction false} GroupInFlat(groups: seq<seq<SideHunk>>, k: nat, g: SideHunk)
    requires k < |groups| && g in groups[k]
    ensures g in Flat(groups)
  {
    var m :| 0 <= m < |groups[k]| && groups[k][m] == g;
    FlatAt(groups, k, m);
  }

  /** A hunk of the merged list is one of its side's. */
  lemma {:induction false} OthersHold(ours: seq<Hunk>, theirs: seq<Hunk>, g: SideHunk)
    requires g in Merged(ours, theirs)
    ensures Plain(g) in if g.side == Local then ours else theirs
  {
    OfSideMerged(ours, theirs);
    var i :| 0 <= i < |Merged(ours, theirs)| && Merged(ours, theirs)[i] == g;
    var j := OfSideHolds(Merged(ours, theirs), g.side, i);
  }

  lemma {:induction false} HeldOnce(groups: seq<seq<SideHunk>>, h: SideHunk, j: nat, k: nat)
    requires Known(Flat(groups)) && j < |groups| && k < |groups| && h in groups[j] && h in groups[k]
    ensures j == k
  {
    var a :| 0 <= a < |groups[j]| && groups[j][a] == h;
    var b :| 0 <= b < |groups[k]| && groups[k][b] == h;
    FlatAt(groups, j, a);
    FlatAt(groups, k, b);
    if j < k { StartsRise(groups, j + 1, k); } else if k < j { StartsRise(groups, k + 1, j); }
  }

  lemma {:induction false} OwnIsUndisputed(groups: seq<seq<SideHunk>>, k: nat, h: SideHunk, ours: seq<Hunk>, theirs: seq<Hunk>, touching: bool)
    requires AllSplit(groups, touching) && Flat(groups) == Merged(ours, theirs) && Known(Flat(groups))
    requires k < |groups| && groups[k] == [h]
    ensures Undisputed(h, if h.side == Local then theirs else ours, touching)
  {
    var others := if h.side == Local then theirs else ours;
    OfSideMerged(ours, theirs);
    forall j | 0 <= j < |others| ensures !Clashes(h, Sided(Other(h.side), others[j]), touching) {
      SidedIn(Merged(ours, theirs), Other(h.side), j);
      SingleClashes(groups, k, h, Sided(Other(h.side), others[j]), touching);
    }
  }

  lemma {:induction false} SingleClashes(groups: seq<seq<SideHunk>>, k: nat, h: SideHunk, g: SideHunk, touching: bool)
    requires AllSplit(groups, touching) && Known(Flat(groups)) && k < |groups| && groups[k] == [h]
    requires g in Flat(groups) && g.side != h.side
    ensures !Clashes(h, g, touching)
  {
    GroupInFlat(groups, k, h);
    if Clashes(h, g, touching) {
      var i := ClashTogether(groups, h, g, touching);
      HeldOnce(groups, h, i, k);
    }
  }

  // ---- what the merge writes for them

  /** `parts` hold, for a region of this hunk's own, what its side wrote there. */
  ghost predicate IsTaken(ours: seq<string>, room: seq<string>, regions: seq<Region>, parts: seq<seq<string>>, h: SideHunk)
    requires |parts| == |regions|
  {
    exists k :: 0 <= k < |regions| && IsOwn(regions[k], h)
      && parts[k] == Slice(if h.side == Local then ours else room, h.lines.from, h.lines.upto)
  }

  /** A change of either side that clashes with none of the other's comes out as that side wrote it, where it was made. */
  lemma {:induction false} UndisputedIsTaken(base: seq<string>, ours: seq<string>, room: seq<string>, regions: seq<Region>, groups: seq<seq<SideHunk>>, parts: seq<seq<string>>, mine: seq<Hunk>, theirs: seq<Hunk>, side: Side, n: nat)
    requires M.IsMerge(base, ours, room, regions, groups, parts) && Gathered(base, ours, room, groups, mine, theirs)
    requires n < |if side == Local then mine else theirs|
    ensures var h := Sided(side, (if side == Local then mine else theirs)[n]);
      Undisputed(h, if side == Local then theirs else mine, false) <==> IsTaken(ours, room, regions, parts, h)
  {
    OwnRegion(base, ours, room, regions, groups, mine, theirs, false, side, n);
    var h := Sided(side, (if side == Local then mine else theirs)[n]);
    if k :| 0 <= k < |regions| && IsOwn(regions[k], h) {
      assert M.PartOk(ours, room, regions[k], parts[k]);
    }
  }
}
