/** diff3 regions of a base and two sides: `threeWayRegions` of packages/plugin/src/sync/merge-model.ts. */
module Regions {
  import opened Common
  import opened Scripts
  import Anchors

  datatype Side = Local | Remote

  function Other(side: Side): Side { if side == Local then Remote else Local }

  datatype SideHunk = SideHunk(side: Side, base: Range, lines: Range)

  /** Three ranges that stand for one another; on a side not `Changed` the lines are the base's own. */
  datatype Region = Region(base: Range, local: Range, remote: Range, localChanged: bool, remoteChanged: bool)

  function Sided(side: Side, h: Hunk): SideHunk
  {
    SideHunk(side, Range(h.baseFrom, h.baseTo), Range(h.lineFrom, h.lineTo))
  }

  function Plain(h: SideHunk): Hunk
  {
    Hunk(h.base.from, h.base.upto, h.lines.from, h.lines.upto)
  }

  /** One side's hunks, in order. */
  function OfSide(hs: seq<SideHunk>, side: Side): seq<Hunk>
  {
    if hs == [] then []
    else (if hs[0].side == side then [Plain(hs[0])] else []) + OfSide(hs[1..], side)
  }

  /**
   * Both sides' hunks by where they start in the base, the local one first when both start there: what a stable
   * sort of the local hunks followed by the remote ones gives.
   */
  function Merged(local: seq<Hunk>, remote: seq<Hunk>): (r: seq<SideHunk>)
    ensures |r| == |local| + |remote|
  {
    if local == [] && remote == [] then []
    else if remote == [] || (local != [] && local[0].baseFrom <= remote[0].baseFrom) then
      [Sided(Local, local[0])] + Merged(local[1..], remote)
    else [Sided(Remote, remote[0])] + Merged(local, remote[1..])
  }

  lemma {:induction false} OfSideMerged(local: seq<Hunk>, remote: seq<Hunk>)
    ensures OfSide(Merged(local, remote), Local) == local && OfSide(Merged(local, remote), Remote) == remote
    decreases |local| + |remote|, 0
  {
    if local == [] && remote == [] {
    } else if remote == [] || (local != [] && local[0].baseFrom <= remote[0].baseFrom) {
      LocalFirst(local, remote);
    } else {
      RemoteFirst(local, remote);
    }
  }

  lemma {:induction false} LocalFirst(local: seq<Hunk>, remote: seq<Hunk>)
    requires local != [] && (remote == [] || local[0].baseFrom <= remote[0].baseFrom)
    ensures OfSide(Merged(local, remote), Local) == local && OfSide(Merged(local, remote), Remote) == remote
    decreases |local| + |remote| - 1, 1
  {
    OfSideMerged(local[1..], remote);
    OfSideFirst(Sided(Local, local[0]), Merged(local[1..], remote));
  }

  lemma {:induction false} RemoteFirst(local: seq<Hunk>, remote: seq<Hunk>)
    requires remote != [] && (local == [] || remote[0].baseFrom < local[0].baseFrom)
    ensures OfSide(Merged(local, remote), Local) == local && OfSide(Merged(local, remote), Remote) == remote
    decreases |local| + |remote| - 1, 1
  {
    OfSideMerged(local, remote[1..]);
    OfSideFirst(Sided(Remote, remote[0]), Merged(local, remote[1..]));
  }

  lemma {:induction false} OfSideFirst(h: SideHunk, rest: seq<SideHunk>)
    ensures OfSide([h] + rest, h.side) == [Plain(h)] + OfSide(rest, h.side)
    ensures forall side :: side != h.side ==> OfSide([h] + rest, side) == OfSide(rest, side)
  {
    assert ([h] + rest)[1..] == rest && ([h] + rest)[0] == h;
  }

  ghost predicate Ascending(hs: seq<Hunk>)
  {
    forall i, j :: 0 <= i < j < |hs| ==> hs[i].baseFrom < hs[j].baseFrom
  }

  lemma {:induction false} MismatchesAscend<T>(base: seq<T>, lines: seq<T>, hs: seq<Hunk>, b: nat, l: nat, p: nat, q: nat)
    requires Mismatches(base, lines, hs, b, l, p, q)
    ensures Ascending(hs)
    decreases |hs|
  {
    if hs != [] {
      MismatchesAscend(base, lines, hs[1..], hs[0].baseTo, hs[0].lineTo, p, q);
      forall j | 0 < j < |hs| ensures hs[0].baseFrom < hs[j].baseFrom {
        assert j > 1 ==> hs[1..][0].baseFrom < hs[1..][j - 1].baseFrom;
      }
      forall i, j | 0 < i < j < |hs| ensures hs[i].baseFrom < hs[j].baseFrom {
        assert hs[1..][i - 1].baseFrom < hs[1..][j - 1].baseFrom;
      }
    }
  }

  /** Ascending by start, local first on a tie: with `OfSideMerged`, the only list a stable sort can give. */
  ghost predicate Sorted(hs: seq<SideHunk>)
  {
    forall i, j :: 0 <= i < j < |hs| ==> InOrder(hs[i], hs[j])
  }

  ghost predicate InOrder(g: SideHunk, h: SideHunk)
  {
    g.base.from <= h.base.from && (g.base.from == h.base.from ==> g.side == Local && h.side == Remote)
  }

  lemma {:induction false} MergedSorted(local: seq<Hunk>, remote: seq<Hunk>)
    requires Ascending(local) && Ascending(remote)
    ensures Sorted(Merged(local, remote))
  {
    if local == [] && remote == [] {
    } else if remote == [] || (local != [] && local[0].baseFrom <= remote[0].baseFrom) {
      MergedSorted(local[1..], remote);
      SortedFrom(Sided(Local, local[0]), local[1..], remote);
    } else {
      MergedSorted(local, remote[1..]);
      SortedFrom(Sided(Remote, remote[0]), local, remote[1..]);
    }
  }

  lemma {:induction false} SortedFrom(h: SideHunk, local: seq<Hunk>, remote: seq<Hunk>)
    requires Sorted(Merged(local, remote)) && Ascending(local) && Ascending(remote)
    requires local == [] || InOrder(h, Sided(Local, local[0]))
    requires remote == [] || InOrder(h, Sided(Remote, remote[0]))
    ensures Sorted([h] + Merged(local, remote))
  {
    var r := Merged(local, remote);
    forall j | 0 <= j < |r| ensures InOrder(h, r[j]) {
      assert r[0] == (if remote == [] || (local != [] && local[0].baseFrom <= remote[0].baseFrom) then Sided(Local, local[0]) else Sided(Remote, remote[0]));
      if j > 0 { assert InOrder(r[0], r[j]); }
    }
  }

  /** Overlapping the region so far, touching it where touching counts, or a second insertion at the same point. */
  predicate Joins(h: SideHunk, start: nat, end: nat, groupTouching: bool)
  {
    if h.base.from != end then h.base.from < end
    else groupTouching || (start == end && h.base.upto == end)
  }

  /** The point between two base lines lies in the hunk; its own ends count when touching does. */
  ghost predicate Spans(h: SideHunk, x: nat, touching: bool)
  {
    if touching then h.base.from <= x <= h.base.upto else h.base.from < x < h.base.upto
  }

  /** Nothing splits the group: a hunk spans every point inside it. */
  ghost predicate Tight(group: seq<SideHunk>, start: nat, end: nat, touching: bool)
  {
    && (forall k :: 0 <= k < |group| ==> start <= group[k].base.from <= group[k].base.upto <= end)
    && (group != [] ==> group[0].base.from == start)
    && (group != [] ==> exists k :: 0 <= k < |group| && group[k].base.upto == end)
    && (forall x :: start < x < end ==> SpannedBy(group, x, touching))
  }

  ghost predicate SpannedBy(group: seq<SideHunk>, x: nat, touching: bool)
  {
    exists k :: 0 <= k < |group| && Spans(group[k], x, touching)
  }

  lemma {:induction false} SpannedMore(group: seq<SideHunk>, h: SideHunk, x: nat, touching: bool)
    requires SpannedBy(group, x, touching) || Spans(h, x, touching)
    ensures SpannedBy(group + [h], x, touching)
  {
    var more := group + [h];
    if SpannedBy(group, x, touching) {
      var k :| 0 <= k < |group| && Spans(group[k], x, touching);
      assert Spans(more[k], x, touching);
    } else {
      assert Spans(more[|group|], x, touching);
    }
  }

  lemma {:induction false} TightGrows(group: seq<SideHunk>, h: SideHunk, start: nat, end: nat, touching: bool)
    requires Tight(group, start, end, touching) && group != [] && h.base.from <= h.base.upto && start <= h.base.from
    requires Joins(h, start, end, touching)
    ensures Tight(group + [h], start, Max(end, h.base.upto), touching)
  {
    var more, last := group + [h], Max(end, h.base.upto);
    var k :| 0 <= k < |group| && group[k].base.upto == end;
    assert more[k] == group[k] && more[|group|] == h;
    forall x | start < x < last ensures SpannedBy(more, x, touching) {
      if x == end && touching { assert Spans(group[k], x, touching); }
      SpannedMore(group, h, x, touching);
    }
  }

  /** What a hunk at `h` shares with one at `g` before it: base lines, where touching counts an end, or the point both insert at. */
  predicate Meets(g: Range, h: Range, touching: bool)
  {
    if touching then h.from <= g.upto
    else h.from < g.upto || (g == h && g.from == g.upto)
  }

  /** Every hunk after the first meets one before it. */
  ghost predicate Linked(group: seq<SideHunk>, touching: bool)
  {
    forall m {:trigger group[m]} :: 0 < m < |group| ==> MeetsOne(group[..m], group[m], touching)
  }

  ghost predicate MeetsOne(group: seq<SideHunk>, h: SideHunk, touching: bool)
  {
    exists k :: 0 <= k < |group| && Meets(group[k].base, h.base, touching)
  }

  lemma {:induction false} LinkedMore(group: seq<SideHunk>, h: SideHunk, touching: bool)
    requires Linked(group, touching) && (group != [] ==> MeetsOne(group, h, touching))
    ensures Linked(group + [h], touching)
  {
    var more := group + [h];
    forall m {:trigger more[m]} | 0 < m < |more| ensures MeetsOne(more[..m], more[m], touching) {
      assert more[..m] == group[..m];
      if m < |group| {
        assert MeetsOne(group[..m], group[m], touching);
      } else {
        assert group[..m] == group;
      }
    }
  }

  /** Only insertions at one point reach their end without lines to go there. */
  ghost predicate EndsOnce(group: seq<SideHunk>, start: nat, end: nat)
  {
    start < end ==> forall k :: 0 <= k < |group| ==> group[k].base.from < end
  }

  lemma {:induction false} JoinsMeets(group: seq<SideHunk>, h: SideHunk, start: nat, end: nat, touching: bool)
    requires Tight(group, start, end, touching) && group != [] && (!touching ==> EndsOnce(group, start, end))
    ensures Joins(h, start, end, touching) <==> MeetsOne(group, h, touching)
  {
    var k :| 0 <= k < |group| && group[k].base.upto == end;
    if Joins(h, start, end, touching) {
      assert Meets(group[if h.base.from == end && !touching then 0 else k].base, h.base, touching);
    }
  }

  lemma {:induction false} EndsOnceMore(group: seq<SideHunk>, h: SideHunk, start: nat, end: nat)
    requires Tight(group, start, end, false) && EndsOnce(group, start, end) && h.base.from <= h.base.upto
    requires Joins(h, start, end, false)
    ensures EndsOnce(group + [h], start, Max(end, h.base.upto))
  {
  }

  /** What the loop that takes a group keeps of the hunks taken. */
  ghost predicate Grown(group: seq<SideHunk>, start: nat, end: nat, touching: bool)
  {
    Tight(group, start, end, touching) && Linked(group, touching) && (!touching ==> EndsOnce(group, start, end))
  }

  lemma {:induction false} GroupGrows(hunks: seq<SideHunk>, i: nat, j: nat, start: nat, end: nat, touching: bool)
    requires i < j < |hunks| && Grown(hunks[i..j], start, end, touching)
    requires start <= hunks[j].base.from <= hunks[j].base.upto && Joins(hunks[j], start, end, touching)
    ensures Grown(hunks[i..j + 1], start, Max(end, hunks[j].base.upto), touching)
  {
    var group, h := hunks[i..j], hunks[j];
    assert hunks[i..j + 1] == group + [h];
    TightGrows(group, h, start, end, touching);
    JoinsMeets(group, h, start, end, touching);
    LinkedMore(group, h, touching);
    if !touching { EndsOnceMore(group, h, start, end); }
  }

  lemma {:induction false} GroupStarts(hunks: seq<SideHunk>, i: nat, touching: bool)
    requires i < |hunks| && hunks[i].base.from <= hunks[i].base.upto
    ensures Grown(hunks[i..i + 1], hunks[i].base.from, hunks[i].base.upto, touching)
  {
    var h := hunks[i];
    assert hunks[i..i + 1] == [h];
    forall x | h.base.from < x < h.base.upto ensures SpannedBy([h], x, touching) {
      assert Spans([h][0], x, touching);
    }
  }

  /** The hunks from `i` that go into one region, and where it ends in the base: as many as meet one before them. */
  method TakeGroup(hunks: seq<SideHunk>, i: nat, groupTouching: bool) returns (j: nat, end: nat)
    requires i < |hunks| && Sorted(hunks) && forall k :: 0 <= k < |hunks| ==> hunks[k].base.from <= hunks[k].base.upto
    ensures i < j <= |hunks| && Tight(hunks[i..j], hunks[i].base.from, end, groupTouching)
    ensures Linked(hunks[i..j], groupTouching)
    ensures j < |hunks| ==> !MeetsOne(hunks[i..j], hunks[j], groupTouching)
  {
    var start := hunks[i].base.from;
    end := hunks[i].base.upto;
    j := i + 1;
    GroupStarts(hunks, i, groupTouching);
    while j < |hunks| && Joins(hunks[j], start, end, groupTouching)
      invariant i < j <= |hunks| && Grown(hunks[i..j], start, end, groupTouching)
    {
      assert InOrder(hunks[i], hunks[j]);
      GroupGrows(hunks, i, j, start, end, groupTouching);
      end := Max(end, hunks[j].base.upto);
      j := j + 1;
    }
    if j < |hunks| { JoinsMeets(hunks[i..j], hunks[j], start, end, groupTouching); }
  }

  ghost predicate OwnFits(own: seq<Hunk>, start: nat, end: nat)
  {
    own != [] ==> own[0].baseFrom - start <= own[0].lineFrom && own[|own| - 1].baseTo <= end
  }

  /** The side's range for base[start..end], counted from a cursor that stands at equal places on both. */
  function SideRange(own: seq<Hunk>, start: nat, end: nat, cursorBase: nat, cursorSide: nat): Range
    requires cursorBase <= start <= end
    requires OwnFits(own, start, end)
  {
    if own == [] then Range(start - cursorBase + cursorSide, end - cursorBase + cursorSide)
    else Range(own[0].lineFrom - (own[0].baseFrom - start), own[|own| - 1].lineTo + (end - own[|own| - 1].baseTo))
  }

  /** The line at a base point among the agreeing lines after the last of the hunks. */
  function LineAt(own: seq<Hunk>, b: nat, l: nat, point: nat): int
  {
    if own == [] then l + point - b else own[|own| - 1].lineTo + point - own[|own| - 1].baseTo
  }

  /** The first of two stretches of mismatches ends anywhere among the agreeing lines between them. */
  lemma {:induction false} MismatchesSplit<T>(base: seq<T>, lines: seq<T>, own: seq<Hunk>, rest: seq<Hunk>, b: nat, l: nat, p: nat, q: nat, end: nat)
    requires Mismatches(base, lines, own + rest, b, l, p, q)
    requires own != [] ==> own[|own| - 1].baseTo <= end
    requires b <= end <= p && (rest != [] ==> end <= rest[0].baseFrom)
    ensures LineAt(own, b, l, end) >= 0 && Mismatches(base, lines, own, b, l, end, LineAt(own, b, l, end))
    ensures Mismatches(base, lines, rest, end, LineAt(own, b, l, end), p, q)
    decreases |own|
  {
    if own == [] {
      assert own + rest == rest;
      SplitSame(base, lines, rest, b, l, p, q, end);
    } else {
      assert (own + rest)[1..] == own[1..] + rest;
      MismatchesLast(base, lines, own + rest, b, l, p, q, |own| - 1);
      assert LineAt(own[1..], own[0].baseTo, own[0].lineTo, end) == LineAt(own, b, l, end);
      MismatchesSplit(base, lines, own[1..], rest, own[0].baseTo, own[0].lineTo, p, q, end);
      FirstOfMore(base, lines, own, rest, b, l, p, q, end, LineAt(own, b, l, end));
    }
  }

  lemma {:induction false} FirstOfMore<T>(base: seq<T>, lines: seq<T>, own: seq<Hunk>, rest: seq<Hunk>, b: nat, l: nat, p: nat, q: nat, p2: nat, q2: nat)
    requires own != [] && Mismatches(base, lines, own + rest, b, l, p, q)
    requires Mismatches(base, lines, own[1..], own[0].baseTo, own[0].lineTo, p2, q2)
    ensures Mismatches(base, lines, own, b, l, p2, q2)
  {
    MismatchesOrder(base, lines, own[1..], own[0].baseTo, own[0].lineTo, p2, q2);
    assert |own| > 1 ==> (own + rest)[1] == own[1];
  }

  lemma {:induction false} SplitSlice<T>(s: seq<T>, from: nat, mid: nat, upto: nat)
    requires from <= mid <= upto <= |s|
    ensures s[from..upto][..mid - from] == s[from..mid] && s[from..upto][mid - from..] == s[mid..upto]
  {
  }

  lemma {:induction false} SplitSame<T>(base: seq<T>, lines: seq<T>, rest: seq<Hunk>, b: nat, l: nat, p: nat, q: nat, end: nat)
    requires Mismatches(base, lines, rest, b, l, p, q) && b <= end <= p && (rest != [] ==> end <= rest[0].baseFrom)
    ensures Same(base, b, end, lines, l, l + end - b) && Mismatches(base, lines, rest, end, l + end - b, p, q)
  {
    var x, y := if rest == [] then p else rest[0].baseFrom, if rest == [] then q else rest[0].lineFrom;
    var n := end - b;
    SplitSlice(base, b, end, x);
    SplitSlice(lines, l, l + n, y);
    assert base[b..x][..n] == lines[l..y][..n] && base[b..x][n..] == lines[l..y][n..];
  }

  lemma {:induction false} MismatchesLast<T>(base: seq<T>, lines: seq<T>, hs: seq<Hunk>, b: nat, l: nat, p: nat, q: nat, i: nat)
    requires Mismatches(base, lines, hs, b, l, p, q) && i < |hs|
    ensures b <= hs[i].baseFrom && hs[0].baseTo <= hs[i].baseTo <= p <= |base| && hs[i].lineTo <= q <= |lines|
    decreases |hs|
  {
    MismatchesOrder(base, lines, hs, b, l, p, q);
    if i > 0 { MismatchesLast(base, lines, hs[1..], hs[0].baseTo, hs[0].lineTo, p, q, i - 1); }
  }

  lemma {:induction false} OfSideConcat(a: seq<SideHunk>, b: seq<SideHunk>, side: Side)
    ensures OfSide(a + b, side) == OfSide(a, side) + OfSide(b, side)
  {
    if a == [] {
      assert a + b == b;
    } else {
      OfSideConcat(a[1..], b, side);
      OfSideStep(a, b, side);
      Regroup(if a[0].side == side then [Plain(a[0])] else [], OfSide(a[1..], side), OfSide(b, side));
    }
  }

  lemma {:induction false} OfSideStep(a: seq<SideHunk>, b: seq<SideHunk>, side: Side)
    requires a != []
    ensures var first := if a[0].side == side then [Plain(a[0])] else [];
      OfSide(a + b, side) == first + OfSide(a[1..] + b, side) && OfSide(a, side) == first + OfSide(a[1..], side)
  {
    assert (a + b)[1..] == a[1..] + b && (a + b)[0] == a[0];
  }

  lemma {:induction false} OfSideFrom(hs: seq<SideHunk>, side: Side, k: nat) returns (i: nat)
    requires k < |OfSide(hs, side)|
    ensures i < |hs| && OfSide(hs, side)[k] == Plain(hs[i]) && hs[i].side == side
  {
    if hs[0].side == side && k == 0 {
      i := 0;
    } else {
      var j := OfSideFrom(hs[1..], side, if hs[0].side == side then k - 1 else k);
      i := j + 1;
    }
  }

  lemma {:induction false} RegionRange<T>(base: seq<T>, lines: seq<T>, own: seq<Hunk>, b: nat, l: nat, start: nat, end: nat)
    requires b <= start <= end && LineAt(own, start, l + start - b, end) >= 0
    requires Mismatches(base, lines, own, start, l + start - b, end, LineAt(own, start, l + start - b, end))
    requires own != [] ==> own[|own| - 1].baseTo <= end
    ensures OwnFits(own, start, end)
    ensures SideRange(own, start, end, b, l) == Range(l + start - b, LineAt(own, start, l + start - b, end))
  {
    if own != [] {
      assert |base[start..own[0].baseFrom]| == |lines[l + start - b..own[0].lineFrom]|;
    }
  }

  /** One side's part of a region: its range, what agrees before it, and what is left after it. */
  lemma {:induction false} RegionSide<T>(base: seq<T>, lines: seq<T>, own: seq<Hunk>, rest: seq<Hunk>, b: nat, l: nat, start: nat, end: nat) returns (r: Range)
    requires Mismatches(base, lines, own + rest, b, l, |base|, |lines|) && b <= start <= end <= |base|
    requires own != [] ==> start <= own[0].baseFrom && own[|own| - 1].baseTo <= end
    requires rest != [] ==> end <= rest[0].baseFrom
    ensures OwnFits(own, start, end) && r == SideRange(own, start, end, b, l)
    ensures Same(base, b, start, lines, l, r.from)
    ensures Mismatches(base, lines, own, start, r.from, end, r.upto)
    ensures Mismatches(base, lines, rest, end, r.upto, |base|, |lines|)
  {
    var all := own + rest;
    assert all != [] ==> all[0] == if own != [] then own[0] else rest[0];
    SplitSame(base, lines, all, b, l, |base|, |lines|, start);
    MismatchesSplit(base, lines, own, rest, start, l + start - b, |base|, |lines|, end);
    RegionRange(base, lines, own, b, l, start, end);
    r := Range(l + start - b, LineAt(own, start, l + start - b, end));
  }

  /** The sorted hunks from `i` on are what is left of one side. */
  ghost predicate Left(base: seq<string>, lines: seq<string>, hunks: seq<SideHunk>, side: Side, i: nat, b: nat, l: nat)
    requires i <= |hunks|
  {
    b <= |base| && Mismatches(base, lines, OfSide(hunks[i..], side), b, l, |base|, |lines|)
  }

  lemma {:induction false} SideBounds(hunks: seq<SideHunk>, side: Side, i: nat, j: nat, end: nat)
    requires i < j <= |hunks|
    requires forall k :: i <= k < j ==> hunks[i].base.from <= hunks[k].base.from && hunks[k].base.upto <= end
    requires forall k :: j <= k < |hunks| ==> end <= hunks[k].base.from
    ensures var own, rest := OfSide(hunks[i..j], side), OfSide(hunks[j..], side);
      && OfSide(hunks[i..], side) == own + rest
      && (own != [] ==> hunks[i].base.from <= own[0].baseFrom && own[|own| - 1].baseTo <= end)
      && (rest != [] ==> end <= rest[0].baseFrom)
  {
    var own, rest := OfSide(hunks[i..j], side), OfSide(hunks[j..], side);
    assert hunks[i..] == hunks[i..j] + hunks[j..];
    OfSideConcat(hunks[i..j], hunks[j..], side);
    if own != [] {
      var k := OfSideFrom(hunks[i..j], side, 0);
      var m := OfSideFrom(hunks[i..j], side, |own| - 1);
    }
    if rest != [] {
      var k := OfSideFrom(hunks[j..], side, 0);
    }
  }

  /** Taking the group hunks[i..j] leaves, of one side, what comes after its range. */
  lemma {:induction false} TakenSide(base: seq<string>, lines: seq<string>, hunks: seq<SideHunk>, side: Side, i: nat, j: nat, b: nat, l: nat, end: nat) returns (r: Range)
    requires i < j <= |hunks| && Left(base, lines, hunks, side, i, b, l)
    requires b <= hunks[i].base.from <= end <= |base|
    requires forall k :: i <= k < j ==> hunks[i].base.from <= hunks[k].base.from && hunks[k].base.upto <= end
    requires forall k :: j <= k < |hunks| ==> end <= hunks[k].base.from
    ensures OwnFits(OfSide(hunks[i..j], side), hunks[i].base.from, end)
    ensures r == SideRange(OfSide(hunks[i..j], side), hunks[i].base.from, end, b, l)
    ensures Same(base, b, hunks[i].base.from, lines, l, r.from)
    ensures Mismatches(base, lines, OfSide(hunks[i..j], side), hunks[i].base.from, r.from, end, r.upto)
    ensures Left(base, lines, hunks, side, j, end, r.upto)
  {
    SideBounds(hunks, side, i, j, end);
    r := RegionSide(base, lines, OfSide(hunks[i..j], side), OfSide(hunks[j..], side), b, l, hunks[i].base.from, end);
  }

  function BaseEnd(regions: seq<Region>, k: nat): nat
    requires k <= |regions|
  {
    if k == 0 then 0 else regions[k - 1].base.upto
  }

  function LocalEnd(regions: seq<Region>, k: nat): nat
    requires k <= |regions|
  {
    if k == 0 then 0 else regions[k - 1].local.upto
  }

  function RemoteEnd(regions: seq<Region>, k: nat): nat
    requires k <= |regions|
  {
    if k == 0 then 0 else regions[k - 1].remote.upto
  }

  /** A region is its group of linked hunks, widened on each side to the same base lines. */
  ghost predicate RegionOk(base: seq<string>, local: seq<string>, remote: seq<string>, g: Region, group: seq<SideHunk>, touching: bool)
  {
    && group != [] && Tight(group, g.base.from, g.base.upto, touching) && Linked(group, touching)
    && Mismatches(base, local, OfSide(group, Local), g.base.from, g.local.from, g.base.upto, g.local.upto)
    && Mismatches(base, remote, OfSide(group, Remote), g.base.from, g.remote.from, g.base.upto, g.remote.upto)
    && (g.localChanged <==> OfSide(group, Local) != []) && (g.remoteChanged <==> OfSide(group, Remote) != [])
  }

  /** What lies between two regions is the same on all three sides. */
  ghost predicate GapOk(base: seq<string>, local: seq<string>, remote: seq<string>, regions: seq<Region>, k: nat)
    requires k < |regions|
  {
    && Same(base, BaseEnd(regions, k), regions[k].base.from, local, LocalEnd(regions, k), regions[k].local.from)
    && Same(base, BaseEnd(regions, k), regions[k].base.from, remote, RemoteEnd(regions, k), regions[k].remote.from)
  }

  /** Regions that touch are one where touching counts; else only a point has one region of insertions. */
  ghost predicate Parted(regions: seq<Region>, k: nat, touching: bool)
    requires 0 < k < |regions|
  {
    var end, next := regions[k - 1].base.upto, regions[k].base;
    if touching then end < next.from
    else end <= next.from && !(regions[k - 1].base.from == end == next.from == next.upto)
  }

  ghost predicate AllRegions(base: seq<string>, local: seq<string>, remote: seq<string>, regions: seq<Region>, groups: seq<seq<SideHunk>>, touching: bool)
    requires |regions| == |groups|
  {
    forall k {:trigger groups[k]} :: 0 <= k < |groups| ==> RegionOk(base, local, remote, regions[k], groups[k], touching)
  }

  ghost predicate AllGaps(base: seq<string>, local: seq<string>, remote: seq<string>, regions: seq<Region>)
  {
    forall k {:trigger GapOk(base, local, remote, regions, k)} :: 0 <= k < |regions| ==> GapOk(base, local, remote, regions, k)
  }

  ghost predicate AllParted(regions: seq<Region>, touching: bool)
  {
    forall k {:trigger Parted(regions, k, touching)} :: 0 < k < |regions| ==> Parted(regions, k, touching)
  }

  /** The first hunk of a group meets none of the group before it. */
  ghost predicate Split(groups: seq<seq<SideHunk>>, k: nat, touching: bool)
    requires 0 < k < |groups|
  {
    groups[k] != [] && !MeetsOne(groups[k - 1], groups[k][0], touching)
  }

  ghost predicate AllSplit(groups: seq<seq<SideHunk>>, touching: bool)
  {
    forall k {:trigger Split(groups, k, touching)} :: 0 < k < |groups| ==> Split(groups, k, touching)
  }

  ghost predicate RegionsOk(base: seq<string>, local: seq<string>, remote: seq<string>, regions: seq<Region>, groups: seq<seq<SideHunk>>, touching: bool)
  {
    && |regions| == |groups| && AllRegions(base, local, remote, regions, groups, touching)
    && AllGaps(base, local, remote, regions) && AllParted(regions, touching) && AllSplit(groups, touching)
  }

  function Flat(groups: seq<seq<SideHunk>>): seq<SideHunk>
  {
    if groups == [] then [] else Flat(groups[..|groups| - 1]) + groups[|groups| - 1]
  }

  /** Within the differ's budget, the hunks take and add as many lines as its script, and none that it keeps. */
  ghost predicate OfScript(differ: LineDiffer, base: seq<string>, lines: seq<string>, hunks: seq<Hunk>)
  {
    differ(base, lines).Some? ==>
      var changes := differ(base, lines).value;
      && Taken(hunks) == RemovedBy(changes, |changes|) && Put(hunks) == AddedBy(changes, |changes|)
      && KeptOut(changes, |changes|, hunks, 0, 0)
  }

  /** The groups hold both sides' mismatches, each as its script has them. */
  ghost predicate HunksOf(differ: LineDiffer, base: seq<string>, local: seq<string>, remote: seq<string>, groups: seq<seq<SideHunk>>, localHunks: seq<Hunk>, remoteHunks: seq<Hunk>)
  {
    && Gathered(base, local, remote, groups, localHunks, remoteHunks)
    && OfScript(differ, base, local, localHunks) && OfScript(differ, base, remote, remoteHunks)
  }

  ghost predicate Gathered(base: seq<string>, local: seq<string>, remote: seq<string>, groups: seq<seq<SideHunk>>, localHunks: seq<Hunk>, remoteHunks: seq<Hunk>)
  {
    && Flat(groups) == Merged(localHunks, remoteHunks)
    && Mismatches(base, local, localHunks, 0, 0, |base|, |local|) && Mismatches(base, remote, remoteHunks, 0, 0, |base|, |remote|)
  }

  /** One side's mismatches with the base: the exact differ's, or the anchored ones past its budget. */
  method SideHunks(differ: LineDiffer, base: seq<string>, lines: seq<string>) returns (hunks: seq<Hunk>)
    requires IsDiffer(differ)
    ensures Mismatches(base, lines, hunks, 0, 0, |base|, |lines|)
    ensures OfScript(differ, base, lines, hunks)
  {
    var changes := differ(base, lines);
    if changes.Some? {
      assert base[0..|base|] == base && lines[0..|lines|] == lines;
      hunks := HunksFromChanges(changes.value, 0, 0, base, lines, |base|, |lines|);
    } else {
      ghost var head, tail, chain;
      hunks, head, tail, chain := Anchors.AnchoredHunks(differ, base, lines);
    }
  }

  lemma {:induction false} MoreRegions(base: seq<string>, local: seq<string>, remote: seq<string>, regions: seq<Region>, groups: seq<seq<SideHunk>>, touching: bool, g: Region, group: seq<SideHunk>)
    requires |regions| == |groups| && AllRegions(base, local, remote, regions, groups, touching)
    requires RegionOk(base, local, remote, g, group, touching)
    ensures AllRegions(base, local, remote, regions + [g], groups + [group], touching)
  {
    var rs, gs := regions + [g], groups + [group];
    forall k | 0 <= k < |gs| ensures RegionOk(base, local, remote, rs[k], gs[k], touching) {
      assert k < |groups| ==> gs[k] == groups[k] && rs[k] == regions[k];
    }
  }

  lemma {:induction false} MoreGaps(base: seq<string>, local: seq<string>, remote: seq<string>, regions: seq<Region>, g: Region)
    requires AllGaps(base, local, remote, regions)
    requires Same(base, BaseEnd(regions, |regions|), g.base.from, local, LocalEnd(regions, |regions|), g.local.from)
    requires Same(base, BaseEnd(regions, |regions|), g.base.from, remote, RemoteEnd(regions, |regions|), g.remote.from)
    ensures AllGaps(base, local, remote, regions + [g])
  {
    var rs := regions + [g];
    forall k | 0 <= k < |rs| ensures GapOk(base, local, remote, rs, k) {
      if k < |regions| { assert GapOk(base, local, remote, regions, k); }
    }
  }

  lemma {:induction false} MoreParted(regions: seq<Region>, g: Region, touching: bool)
    requires AllParted(regions, touching) && (regions != [] ==> Parted(regions + [g], |regions|, touching))
    ensures AllParted(regions + [g], touching)
  {
    var rs := regions + [g];
    forall k | 0 < k < |rs| ensures Parted(rs, k, touching) {
      if k < |regions| { assert Parted(regions, k, touching); }
    }
  }

  lemma {:induction false} MoreSplit(groups: seq<seq<SideHunk>>, group: seq<SideHunk>, touching: bool)
    requires AllSplit(groups, touching) && group != []
    requires groups != [] ==> !MeetsOne(groups[|groups| - 1], group[0], touching)
    ensures AllSplit(groups + [group], touching)
  {
    var gs := groups + [group];
    forall k | 0 < k < |gs| ensures Split(gs, k, touching) {
      if k < |groups| { assert Split(groups, k, touching); }
    }
  }

  /** One more region, from the hunks of one more group. */
  lemma {:induction false} NextRegion(base: seq<string>, local: seq<string>, remote: seq<string>, regions: seq<Region>, groups: seq<seq<SideHunk>>, touching: bool, g: Region, group: seq<SideHunk>)
    requires RegionsOk(base, local, remote, regions, groups, touching)
    requires RegionOk(base, local, remote, g, group, touching)
    requires Same(base, BaseEnd(regions, |regions|), g.base.from, local, LocalEnd(regions, |regions|), g.local.from)
    requires Same(base, BaseEnd(regions, |regions|), g.base.from, remote, RemoteEnd(regions, |regions|), g.remote.from)
    requires regions != [] ==> Parted(regions + [g], |regions|, touching)
    requires groups != [] ==> !MeetsOne(groups[|groups| - 1], group[0], touching)
    ensures RegionsOk(base, local, remote, regions + [g], groups + [group], touching)
  {
    MoreRegions(base, local, remote, regions, groups, touching, g, group);
    MoreGaps(base, local, remote, regions, g);
    MoreParted(regions, g, touching);
    MoreSplit(groups, group, touching);
  }

  /** A region that starts past the last one, and whose first hunk meets none of that one's. */
  lemma {:induction false} PartedNext(regions: seq<Region>, last: seq<SideHunk>, g: Region, group: seq<SideHunk>, touching: bool)
    requires regions != [] && regions[|regions| - 1].base.upto <= g.base.from
    requires last != [] && Tight(last, regions[|regions| - 1].base.from, regions[|regions| - 1].base.upto, touching)
    requires group != [] && Tight(group, g.base.from, g.base.upto, touching) && !MeetsOne(last, group[0], touching)
    ensures Parted(regions + [g], |regions|, touching)
  {
    var end := regions[|regions| - 1].base.upto;
    var k :| 0 <= k < |last| && last[k].base.upto == end;
    assert !Meets(last[k].base, group[0].base, touching) && !Meets(last[0].base, group[0].base, touching);
  }

  /** The next group of sorted hunks, as a region; what agrees before it, and what it leaves of either side. */
  method TakeRegion(ghost base: seq<string>, ghost local: seq<string>, ghost remote: seq<string>, hunks: seq<SideHunk>, i: nat, b: nat, l: nat, r: nat, touching: bool)
    returns (g: Region, j: nat)
    requires i < |hunks| && Sorted(hunks) && InRange(hunks, |base|)
    requires Left(base, local, hunks, Local, i, b, l) && Left(base, remote, hunks, Remote, i, b, r) && b <= hunks[i].base.from
    ensures i < j <= |hunks| && RegionOk(base, local, remote, g, hunks[i..j], touching)
    ensures Same(base, b, g.base.from, local, l, g.local.from) && Same(base, b, g.base.from, remote, r, g.remote.from)
    ensures Left(base, local, hunks, Local, j, g.base.upto, g.local.upto) && Left(base, remote, hunks, Remote, j, g.base.upto, g.remote.upto)
    ensures j < |hunks| ==> g.base.upto <= hunks[j].base.from && !MeetsOne(hunks[i..j], hunks[j], touching)
  {
    var start := hunks[i].base.from;
    var end;
    j, end := TakeGroup(hunks, i, touching);
    var group := hunks[i..j];
    GroupBounds(hunks, i, j, end, touching, |base|);
    ghost var localRange := TakenSide(base, local, hunks, Local, i, j, b, l, end);
    ghost var remoteRange := TakenSide(base, remote, hunks, Remote, i, j, b, r, end);
    g := Region(Range(start, end),
      SideRange(OfSide(group, Local), start, end, b, l), SideRange(OfSide(group, Remote), start, end, b, r),
      OfSide(group, Local) != [], OfSide(group, Remote) != []);
  }

  lemma {:induction false} GroupBounds(hunks: seq<SideHunk>, i: nat, j: nat, end: nat, touching: bool, n: nat)
    requires i < j <= |hunks| && Sorted(hunks) && InRange(hunks, n) && Tight(hunks[i..j], hunks[i].base.from, end, touching)
    requires j < |hunks| ==> !MeetsOne(hunks[i..j], hunks[j], touching)
    ensures end <= n
    ensures forall k :: i <= k < j ==> hunks[i].base.from <= hunks[k].base.from && hunks[k].base.upto <= end
    ensures forall k :: j <= k < |hunks| ==> end <= hunks[k].base.from
  {
    forall k | i <= k < j ensures hunks[i].base.from <= hunks[k].base.from && hunks[k].base.upto <= end {
      assert hunks[i..j][k - i] == hunks[k];
    }
    var last :| 0 <= last < j - i && hunks[i..j][last].base.upto == end;
    forall k | j <= k < |hunks| ensures end <= hunks[k].base.from {
      assert !Meets(hunks[i..j][last].base, hunks[j].base, touching);
      assert k > j ==> InOrder(hunks[j], hunks[k]);
    }
  }

  ghost predicate InRange(hunks: seq<SideHunk>, n: nat)
  {
    forall k :: 0 <= k < |hunks| ==> hunks[k].base.from <= hunks[k].base.upto <= n
  }

  /** The regions of three texts; `groupTouching` joins hunks that only meet. */
  method ThreeWayRegions(differ: LineDiffer, base: seq<string>, local: seq<string>, remote: seq<string>, groupTouching: bool)
    returns (regions: seq<Region>, ghost groups: seq<seq<SideHunk>>, ghost localHunks: seq<Hunk>, ghost remoteHunks: seq<Hunk>)
    requires IsDiffer(differ)
    ensures HunksOf(differ, base, local, remote, groups, localHunks, remoteHunks)
    ensures RegionsOk(base, local, remote, regions, groups, groupTouching)
    ensures AllTaken(base, local, remote, regions)
  {
    var ours := SideHunks(differ, base, local);
    var theirs := SideHunks(differ, base, remote);
    localHunks, remoteHunks := ours, theirs;
    var hunks := Merged(ours, theirs);
    OfSideMerged(ours, theirs);
    MergedInOrder(base, local, remote, ours, theirs);
    WholeSide(base, local, hunks, Local, ours);
    WholeSide(base, remote, hunks, Remote, theirs);
    regions, groups := Grouped(base, local, remote, hunks, groupTouching);
  }

  /** After the last region the three sides agree. */
  ghost predicate AllTaken(base: seq<string>, local: seq<string>, remote: seq<string>, regions: seq<Region>)
  {
    && Same(base, BaseEnd(regions, |regions|), |base|, local, LocalEnd(regions, |regions|), |local|)
    && Same(base, BaseEnd(regions, |regions|), |base|, remote, RemoteEnd(regions, |regions|), |remote|)
  }

  /** The regions of hunks[..i], with what they leave of either side. */
  ghost predicate Reached(base: seq<string>, local: seq<string>, remote: seq<string>, hunks: seq<SideHunk>, i: nat, regions: seq<Region>, groups: seq<seq<SideHunk>>, touching: bool)
  {
    && i <= |hunks| && Flat(groups) == hunks[..i] && RegionsOk(base, local, remote, regions, groups, touching)
    && Left(base, local, hunks, Local, i, BaseEnd(regions, |regions|), LocalEnd(regions, |regions|))
    && Left(base, remote, hunks, Remote, i, BaseEnd(regions, |regions|), RemoteEnd(regions, |regions|))
    && (i < |hunks| ==> BaseEnd(regions, |regions|) <= hunks[i].base.from)
    && (i < |hunks| && groups != [] ==> !MeetsOne(groups[|groups| - 1], hunks[i], touching))
  }

  lemma {:induction false} FlatMore(hunks: seq<SideHunk>, i: nat, j: nat, groups: seq<seq<SideHunk>>)
    requires i < j <= |hunks| && Flat(groups) == hunks[..i]
    ensures Flat(groups + [hunks[i..j]]) == hunks[..j]
  {
    var gs := groups + [hunks[i..j]];
    assert gs[..|groups|] == groups && gs[|gs| - 1] == hunks[i..j] && hunks[..j] == hunks[..i] + hunks[i..j];
  }

  lemma {:induction false} RegionsMore(base: seq<string>, local: seq<string>, remote: seq<string>, hunks: seq<SideHunk>, i: nat, j: nat, regions: seq<Region>, groups: seq<seq<SideHunk>>, touching: bool, g: Region)
    requires i < j <= |hunks| && Reached(base, local, remote, hunks, i, regions, groups, touching)
    requires RegionOk(base, local, remote, g, hunks[i..j], touching)
    requires Same(base, BaseEnd(regions, |regions|), g.base.from, local, LocalEnd(regions, |regions|), g.local.from)
    requires Same(base, BaseEnd(regions, |regions|), g.base.from, remote, RemoteEnd(regions, |regions|), g.remote.from)
    ensures RegionsOk(base, local, remote, regions + [g], groups + [hunks[i..j]], touching)
  {
    if regions != [] {
      assert RegionOk(base, local, remote, regions[|regions| - 1], groups[|groups| - 1], touching);
      PartedNext(regions, groups[|groups| - 1], g, hunks[i..j], touching);
    }
    NextRegion(base, local, remote, regions, groups, touching, g, hunks[i..j]);
  }

  lemma {:induction false} ReachMore(base: seq<string>, local: seq<string>, remote: seq<string>, hunks: seq<SideHunk>, i: nat, j: nat, regions: seq<Region>, groups: seq<seq<SideHunk>>, touching: bool, g: Region)
    requires i < j <= |hunks| && Reached(base, local, remote, hunks, i, regions, groups, touching)
    requires RegionOk(base, local, remote, g, hunks[i..j], touching)
    requires Same(base, BaseEnd(regions, |regions|), g.base.from, local, LocalEnd(regions, |regions|), g.local.from)
    requires Same(base, BaseEnd(regions, |regions|), g.base.from, remote, RemoteEnd(regions, |regions|), g.remote.from)
    requires Left(base, local, hunks, Local, j, g.base.upto, g.local.upto) && Left(base, remote, hunks, Remote, j, g.base.upto, g.remote.upto)
    requires j < |hunks| ==> g.base.upto <= hunks[j].base.from && !MeetsOne(hunks[i..j], hunks[j], touching)
    ensures Reached(base, local, remote, hunks, j, regions + [g], groups + [hunks[i..j]], touching)
  {
    RegionsMore(base, local, remote, hunks, i, j, regions, groups, touching, g);
    FlatMore(hunks, i, j, groups);
    EndsThere(regions, g);
  }

  lemma {:induction false} EndsThere(regions: seq<Region>, g: Region)
    ensures var rs := regions + [g];
      BaseEnd(rs, |rs|) == g.base.upto && LocalEnd(rs, |rs|) == g.local.upto && RemoteEnd(rs, |rs|) == g.remote.upto
  {
  }

  /** The region of the next group, with the regions before it. */
  method TakeNext(ghost base: seq<string>, ghost local: seq<string>, ghost remote: seq<string>, hunks: seq<SideHunk>, i: nat, ghost regions: seq<Region>, ghost groups: seq<seq<SideHunk>>, b: nat, l: nat, r: nat, touching: bool)
    returns (g: Region, j: nat)
    requires i < |hunks| && Sorted(hunks) && InRange(hunks, |base|) && Reached(base, local, remote, hunks, i, regions, groups, touching)
    requires b == BaseEnd(regions, |regions|) && l == LocalEnd(regions, |regions|) && r == RemoteEnd(regions, |regions|)
    ensures i < j <= |hunks| && Reached(base, local, remote, hunks, j, regions + [g], groups + [hunks[i..j]], touching)
  {
    g, j := TakeRegion(base, local, remote, hunks, i, b, l, r, touching);
    ReachMore(base, local, remote, hunks, i, j, regions, groups, touching, g);
  }

  method Grouped(ghost base: seq<string>, ghost local: seq<string>, ghost remote: seq<string>, hunks: seq<SideHunk>, groupTouching: bool)
    returns (regions: seq<Region>, ghost groups: seq<seq<SideHunk>>)
    requires Sorted(hunks) && InRange(hunks, |base|)
    requires Left(base, local, hunks, Local, 0, 0, 0) && Left(base, remote, hunks, Remote, 0, 0, 0)
    ensures Flat(groups) == hunks
    ensures RegionsOk(base, local, remote, regions, groups, groupTouching)
    ensures AllTaken(base, local, remote, regions)
  {
    regions, groups := [], [];
    var i, cursorBase: nat, cursorLocal: nat, cursorRemote: nat := 0, 0, 0, 0;
    while i < |hunks|
      invariant Reached(base, local, remote, hunks, i, regions, groups, groupTouching)
      invariant cursorBase == BaseEnd(regions, |regions|) && cursorLocal == LocalEnd(regions, |regions|) && cursorRemote == RemoteEnd(regions, |regions|)
    {
      var region, j := TakeNext(base, local, remote, hunks, i, regions, groups, cursorBase, cursorLocal, cursorRemote, groupTouching);
      regions, groups := regions + [region], groups + [hunks[i..j]];
      cursorBase, cursorLocal, cursorRemote := region.base.upto, region.local.upto, region.remote.upto;
      i := j;
    }
    assert hunks[..i] == hunks && hunks[i..] == [];
  }

  lemma {:induction false} MergedInOrder(base: seq<string>, local: seq<string>, remote: seq<string>, ours: seq<Hunk>, theirs: seq<Hunk>)
    requires Mismatches(base, local, ours, 0, 0, |base|, |local|) && Mismatches(base, remote, theirs, 0, 0, |base|, |remote|)
    ensures Sorted(Merged(ours, theirs))
  {
    MismatchesAscend(base, local, ours, 0, 0, |base|, |local|);
    MismatchesAscend(base, remote, theirs, 0, 0, |base|, |remote|);
    MergedSorted(ours, theirs);
  }

  /** All of one side's hunks are left at the start, and lie in the base. */
  lemma {:induction false} WholeSide(base: seq<string>, lines: seq<string>, hunks: seq<SideHunk>, side: Side, own: seq<Hunk>)
    requires Mismatches(base, lines, own, 0, 0, |base|, |lines|) && OfSide(hunks, side) == own
    ensures Left(base, lines, hunks, side, 0, 0, 0)
    ensures forall k :: 0 <= k < |hunks| && hunks[k].side == side ==> hunks[k].base.from <= hunks[k].base.upto <= |base|
  {
    assert hunks[0..] == hunks;
    forall k | 0 <= k < |hunks| && hunks[k].side == side ensures hunks[k].base.from <= hunks[k].base.upto <= |base| {
      HunkInRange(base, lines, hunks, side, k);
    }
  }

  lemma {:induction false} HunkInRange(base: seq<string>, lines: seq<string>, hunks: seq<SideHunk>, side: Side, k: nat)
    requires k < |hunks| && hunks[k].side == side && Mismatches(base, lines, OfSide(hunks, side), 0, 0, |base|, |lines|)
    ensures hunks[k].base.from <= hunks[k].base.upto <= |base|
  {
    var n := OfSideHolds(hunks, side, k);
    Anchors.MismatchesInside(base, lines, OfSide(hunks, side), 0, 0, |base|, |lines|, n);
  }

  lemma {:induction false} OfSideHolds(hs: seq<SideHunk>, side: Side, i: nat) returns (k: nat)
    requires i < |hs| && hs[i].side == side
    ensures k < |OfSide(hs, side)| && OfSide(hs, side)[k] == Plain(hs[i])
  {
    if i == 0 {
      k := 0;
    } else {
      var j := OfSideHolds(hs[1..], side, i - 1);
      k := if hs[0].side == side then j + 1 else j;
    }
  }
}
