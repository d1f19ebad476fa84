/** The live three-way merge: packages/plugin/src/live/text/merge.ts. */
module MergeText {
  import opened Common
  import opened Scripts
  import opened Regions
  import opened Texts

  function LinesOf(g: Region, side: Side): Range
  {
    if side == Local then g.local else g.remote
  }

  function SideEnd(regions: seq<Region>, side: Side, k: nat): nat
    requires k <= |regions|
  {
    if side == Local then LocalEnd(regions, k) else RemoteEnd(regions, k)
  }

  function Changed(g: Region, side: Side): bool
  {
    if side == Local then g.localChanged else g.remoteChanged
  }

  /** The base's lines before region `k` with the lines of `parts` in place of the regions'. */
  function Laid(base: seq<string>, regions: seq<Region>, parts: seq<seq<string>>, k: nat): seq<string>
    requires k <= |regions| && k <= |parts|
  {
    if k == 0 then []
    else Laid(base, regions, parts, k - 1) + Slice(base, BaseEnd(regions, k - 1), regions[k - 1].base.from) + parts[k - 1]
  }

  function Whole(base: seq<string>, regions: seq<Region>, parts: seq<seq<string>>): seq<string>
    requires |parts| == |regions|
  {
    Laid(base, regions, parts, |regions|) + Slice(base, BaseEnd(regions, |regions|), |base|)
  }

  /** One side of every region. */
  function PartsOf(lines: seq<string>, regions: seq<Region>, side: Side): (r: seq<seq<string>>)
    ensures |r| == |regions|
  {
    seq(|regions|, k requires 0 <= k < |regions| => Slice(lines, LinesOf(regions[k], side).from, LinesOf(regions[k], side).upto))
  }

  /** One side agrees with the base before every region and after the last, and its ranges follow each other. */
  ghost predicate SideFits(base: seq<string>, lines: seq<string>, regions: seq<Region>, side: Side)
  {
    && (forall k :: 0 <= k < |regions| ==> LinesOf(regions[k], side).from <= LinesOf(regions[k], side).upto <= |lines|)
    && (forall k {:trigger SideGap(base, lines, regions, side, k)} :: 0 <= k < |regions| ==> SideGap(base, lines, regions, side, k))
    && Same(base, BaseEnd(regions, |regions|), |base|, lines, SideEnd(regions, side, |regions|), |lines|)
  }

  ghost predicate SideGap(base: seq<string>, lines: seq<string>, regions: seq<Region>, side: Side, k: nat)
    requires k < |regions|
  {
    Same(base, BaseEnd(regions, k), regions[k].base.from, lines, SideEnd(regions, side, k), LinesOf(regions[k], side).from)
  }

  lemma {:induction false} RegionsFit(base: seq<string>, local: seq<string>, remote: seq<string>, regions: seq<Region>, groups: seq<seq<SideHunk>>, touching: bool)
    requires RegionsOk(base, local, remote, regions, groups, touching) && AllTaken(base, local, remote, regions)
    ensures SideFits(base, local, regions, Local) && SideFits(base, remote, regions, Remote)
  {
    forall k | 0 <= k < |regions| ensures regions[k].local.from <= regions[k].local.upto <= |local| && regions[k].remote.from <= regions[k].remote.upto <= |remote| {
      RangesFit(base, local, remote, regions[k], groups[k], touching);
    }
    forall k | 0 <= k < |regions| ensures SideGap(base, local, regions, Local, k) && SideGap(base, remote, regions, Remote, k) {
      assert GapOk(base, local, remote, regions, k);
    }
  }

  lemma {:induction false} RangesFit(base: seq<string>, local: seq<string>, remote: seq<string>, g: Region, group: seq<SideHunk>, touching: bool)
    requires RegionOk(base, local, remote, g, group, touching)
    ensures g.local.from <= g.local.upto <= |local| && g.remote.from <= g.remote.upto <= |remote| && g.base.from <= g.base.upto <= |base|
  {
    MismatchesOrder(base, local, OfSide(group, Local), g.base.from, g.local.from, g.base.upto, g.local.upto);
    MismatchesOrder(base, remote, OfSide(group, Remote), g.base.from, g.remote.from, g.base.upto, g.remote.upto);
  }

  lemma {:induction false} ThreeSlices<T>(s: seq<T>, i: nat, j: nat, k: nat)
    requires i <= j <= k <= |s|
    ensures s[..i] + s[i..j] + s[j..k] == s[..k]
  {
  }

  lemma {:induction false} SideLaid(base: seq<string>, lines: seq<string>, regions: seq<Region>, side: Side, k: nat)
    requires SideFits(base, lines, regions, side) && k <= |regions|
    ensures Laid(base, regions, PartsOf(lines, regions, side), k) == lines[..SideEnd(regions, side, k)]
  {
    if k > 0 {
      SideLaid(base, lines, regions, side, k - 1);
      var r := LinesOf(regions[k - 1], side);
      assert SideGap(base, lines, regions, side, k - 1);
      ThreeSlices(lines, SideEnd(regions, side, k - 1), r.from, r.upto);
    }
  }

  /** Putting one side's ranges in the base's place rebuilds that side. */
  lemma {:induction false} SideRebuilt(base: seq<string>, lines: seq<string>, regions: seq<Region>, side: Side)
    requires SideFits(base, lines, regions, side)
    ensures Whole(base, regions, PartsOf(lines, regions, side)) == lines
  {
    SideLaid(base, lines, regions, side, |regions|);
    ThreeSlices(lines, SideEnd(regions, side, |regions|), |lines|, |lines|);
  }

  /** A side a region leaves unchanged holds the base's lines there. */
  lemma {:induction false} UnchangedIsBase(base: seq<string>, local: seq<string>, remote: seq<string>, g: Region, group: seq<SideHunk>, touching: bool)
    requires RegionOk(base, local, remote, g, group, touching)
    ensures !g.localChanged ==> Same(base, g.base.from, g.base.upto, local, g.local.from, g.local.upto)
    ensures !g.remoteChanged ==> Same(base, g.base.from, g.base.upto, remote, g.remote.from, g.remote.upto)
    ensures g.localChanged || g.remoteChanged
  {
    SomeSide(group);
  }

  lemma {:induction false} SomeSide(group: seq<SideHunk>)
    requires group != []
    ensures OfSide(group, Local) != [] || OfSide(group, Remote) != []
  {
  }

  /** Both sides in full, the lines they open and close with once. */
  ghost predicate IsBoth(r: seq<string>, theirs: seq<string>, mine: seq<string>, head: nat, tail: nat)
  {
    && Anchors.SharedEnds(theirs, mine, head, tail)
    && !Anchors.SharedEnds(theirs, mine, head + 1, 0) && !Anchors.SharedEnds(theirs, mine, head, tail + 1)
    && r == theirs[..|theirs| - tail] + mine[head..|mine| - tail] + theirs[|theirs| - tail..]
  }

  /** `head` and `tail` count the lines written once at either end; between them stand both middles. */
  method KeepBoth(theirs: seq<string>, mine: seq<string>) returns (r: seq<string>, ghost head: nat, ghost tail: nat)
    ensures IsBoth(r, theirs, mine, head, tail)
  {
    var start, after := Anchors.CommonEnds(theirs, mine);
    head, tail := start, after;
    r := theirs[..|theirs| - after] + mine[start..|mine| - after] + theirs[|theirs| - after..];
  }

  lemma {:induction false} TheirsKept(theirs: seq<string>, middle: seq<string>, n: nat)
    requires n <= |theirs|
    ensures IsSub(theirs, theirs[..n] + middle + theirs[n..])
  {
    SubSelf(theirs[..n]);
    SubSelf(theirs[n..]);
    SubConcat(theirs[..n], theirs[..n], [], middle);
    assert theirs[..n] + [] == theirs[..n];
    SubConcat(theirs[..n], theirs[..n] + middle, theirs[n..], theirs[n..]);
    assert theirs == theirs[..n] + theirs[n..];
  }

  lemma {:induction false} MineKept(first: seq<string>, rest: seq<string>, middle: seq<string>, last: seq<string>)
    ensures IsSub(first + middle + last, first + rest + middle + last)
  {
    SubSelf(first);
    SubSelf(middle);
    SubSelf(last);
    SubConcat(first, first, [], rest);
    assert first + [] == first;
    SubConcat(first, first + rest, middle, middle);
    SubConcat(first + middle, first + rest + middle, last, last);
  }

  lemma {:induction false} BothFromMine(theirs: seq<string>, mine: seq<string>, head: nat, tail: nat)
    requires Anchors.SharedEnds(theirs, mine, head, tail)
    ensures mine == mine[..head] + mine[head..|mine| - tail] + mine[|mine| - tail..]
    ensures theirs[..|theirs| - tail] == mine[..head] + theirs[head..|theirs| - tail]
  {
    assert theirs[..|theirs| - tail] == theirs[..head] + theirs[head..|theirs| - tail];
  }

  /** Nothing of either side is lost, and the shared ends are written once. */
  lemma {:induction false} BothKept(r: seq<string>, theirs: seq<string>, mine: seq<string>, head: nat, tail: nat)
    requires IsBoth(r, theirs, mine, head, tail)
    ensures IsSub(theirs, r) && IsSub(mine, r) && |r| + head + tail == |theirs| + |mine|
  {
    var n, m := |theirs| - tail, |mine| - tail;
    TheirsKept(theirs, mine[head..m], n);
    BothFromMine(theirs, mine, head, tail);
    MineKept(mine[..head], theirs[head..n], mine[head..m], mine[m..]);
  }

  /** The shared ends are where both sides had them. */
  lemma {:induction false} BothEnds(r: seq<string>, theirs: seq<string>, mine: seq<string>, head: nat, tail: nat)
    requires IsBoth(r, theirs, mine, head, tail)
    ensures head <= |r| && tail <= |r| && r[..head] == mine[..head] == theirs[..head]
    ensures r[|r| - tail..] == mine[|mine| - tail..] == theirs[|theirs| - tail..]
  {
    assert r[..head] == theirs[..|theirs| - tail][..head] == theirs[..head];
  }

  function LinesIn(lines: seq<string>, g: Region, side: Side): seq<string>
  {
    Slice(lines, LinesOf(g, side).from, LinesOf(g, side).upto)
  }

  /** What the merge writes for a region. */
  ghost predicate PartOk(ours: seq<string>, room: seq<string>, g: Region, part: seq<string>)
  {
    var mine, theirs := LinesIn(ours, g, Local), LinesIn(room, g, Remote);
    if !g.localChanged then part == theirs
    else if !g.remoteChanged || mine == theirs then part == mine
    else exists head, tail :: IsBoth(part, theirs, mine, head, tail)
  }

  ghost predicate PartsOk(ours: seq<string>, room: seq<string>, regions: seq<Region>, parts: seq<seq<string>>)
  {
    |parts| == |regions| && forall k :: 0 <= k < |regions| ==> PartOk(ours, room, regions[k], parts[k])
  }

  /** `parts` merge the two sides region by region. */
  ghost predicate IsMerge(base: seq<string>, ours: seq<string>, room: seq<string>, regions: seq<Region>, groups: seq<seq<SideHunk>>, parts: seq<seq<string>>)
  {
    && RegionsOk(base, ours, room, regions, groups, false) && AllTaken(base, ours, room, regions)
    && PartsOk(ours, room, regions, parts)
  }

  /** The lines of one region as the merge writes them. */
  method MergeRegion(ours: seq<string>, room: seq<string>, g: Region) returns (part: seq<string>)
    requires g.local.from <= g.local.upto <= |ours| && g.remote.from <= g.remote.upto <= |room|
    ensures PartOk(ours, room, g, part)
  {
    var mine := ours[g.local.from..g.local.upto];
    var theirs := room[g.remote.from..g.remote.upto];
    if !g.localChanged {
      part := theirs;
    } else if !g.remoteChanged || mine == theirs {
      part := mine;
    } else {
      ghost var head, tail;
      part, head, tail := KeepBoth(theirs, mine);
    }
  }

  /** Region `k` lies inside all three sides, past the one before it. */
  ghost predicate InBounds(base: seq<string>, ours: seq<string>, room: seq<string>, regions: seq<Region>, k: nat)
    requires k < |regions|
  {
    var g := regions[k];
    && BaseEnd(regions, k) <= g.base.from <= g.base.upto <= |base|
    && g.local.from <= g.local.upto <= |ours| && g.remote.from <= g.remote.upto <= |room|
  }

  lemma {:induction false} AllInBounds(base: seq<string>, ours: seq<string>, room: seq<string>, regions: seq<Region>, groups: seq<seq<SideHunk>>, touching: bool)
    requires RegionsOk(base, ours, room, regions, groups, touching)
    ensures forall k :: 0 <= k < |regions| ==> InBounds(base, ours, room, regions, k)
  {
    forall k | 0 <= k < |regions| ensures InBounds(base, ours, room, regions, k) {
      assert GapOk(base, ours, room, regions, k);
      RangesFit(base, ours, room, regions[k], groups[k], touching);
    }
  }

  lemma {:induction false} LaidNext(base: seq<string>, regions: seq<Region>, parts: seq<seq<string>>, part: seq<string>, k: nat)
    requires k < |regions| && k == |parts| && BaseEnd(regions, k) <= regions[k].base.from <= |base|
    ensures Laid(base, regions, parts + [part], k + 1)
         == Laid(base, regions, parts, k) + base[BaseEnd(regions, k)..regions[k].base.from] + part
  {
    LaidMore(base, regions, parts, part, k);
  }

  lemma {:induction false} MorePartsOk(ours: seq<string>, room: seq<string>, regions: seq<Region>, parts: seq<seq<string>>, part: seq<string>)
    requires |parts| < |regions| && PartOk(ours, room, regions[|parts|], part)
    requires forall j :: 0 <= j < |parts| ==> PartOk(ours, room, regions[j], parts[j])
    ensures forall j :: 0 <= j <= |parts| ==> PartOk(ours, room, regions[j], (parts + [part])[j])
  {
    forall j | 0 <= j <= |parts| ensures PartOk(ours, room, regions[j], (parts + [part])[j]) {
      if j < |parts| { assert PartOk(ours, room, regions[j], parts[j]); }
    }
  }

  /** The base's lines with each region's merged lines in its place. */
  method LayOut(base: seq<string>, ours: seq<string>, room: seq<string>, regions: seq<Region>) returns (out: seq<string>, ghost parts: seq<seq<string>>)
    requires forall k :: 0 <= k < |regions| ==> InBounds(base, ours, room, regions, k)
    ensures PartsOk(ours, room, regions, parts) && out == Whole(base, regions, parts)
  {
    parts := [];
    out := [];
    var cursor: nat := 0;
    for k := 0 to |regions|
      invariant cursor == BaseEnd(regions, k) <= |base| && |parts| == k && out == Laid(base, regions, parts, k)
      invariant forall j :: 0 <= j < k ==> PartOk(ours, room, regions[j], parts[j])
    {
      var region := regions[k];
      assert InBounds(base, ours, room, regions, k);
      var part := MergeRegion(ours, room, region);
      LaidNext(base, regions, parts, part, k);
      MorePartsOk(ours, room, regions, parts, part);
      out := out + base[cursor..region.base.from] + part;
      parts := parts + [part];
      cursor := region.base.upto;
    }
    out := out + base[cursor..];
  }

  /** The merge of texts that all differ, line by line. */
  method MergeLines(differ: LineDiffer, base: seq<string>, ours: seq<string>, room: seq<string>)
    returns (out: seq<string>, ghost regions: seq<Region>, ghost groups: seq<seq<SideHunk>>, ghost parts: seq<seq<string>>, ghost localHunks: seq<Hunk>, ghost remoteHunks: seq<Hunk>)
    requires IsDiffer(differ)
    ensures IsMerge(base, ours, room, regions, groups, parts) && out == Whole(base, regions, parts)
    ensures HunksOf(differ, base, ours, room, groups, localHunks, remoteHunks)
  {
    var found;
    found, groups, localHunks, remoteHunks := ThreeWayRegions(differ, base, ours, room, false);
    regions := found;
    AllInBounds(base, ours, room, found, groups, false);
    out, parts := LayOut(base, ours, room, found);
  }

  lemma {:induction false} LaidMore(base: seq<string>, regions: seq<Region>, parts: seq<seq<string>>, part: seq<string>, k: nat)
    requires k <= |regions| && k <= |parts|
    ensures Laid(base, regions, parts + [part], k) == Laid(base, regions, parts, k)
    decreases k, 0
  {
    if k > 0 { OneMoreLaid(base, regions, parts, part, k - 1); }
  }

  lemma {:induction false} OneMoreLaid(base: seq<string>, regions: seq<Region>, parts: seq<seq<string>>, part: seq<string>, k: nat)
    requires k < |regions| && k < |parts|
    ensures Laid(base, regions, parts + [part], k + 1) == Laid(base, regions, parts, k + 1)
    decreases k, 1
  {
    LaidMore(base, regions, parts, part, k);
    assert (parts + [part])[k] == parts[k];
  }

  /** A side equal to the base yields to the other; only otherwise are regions taken. */
  method MergeThreeWay(differ: LineDiffer, base: string, ours: string, room: string)
    returns (merged: string, ghost regions: seq<Region>, ghost groups: seq<seq<SideHunk>>, ghost parts: seq<seq<string>>, ghost localHunks: seq<Hunk>, ghost remoteHunks: seq<Hunk>)
    requires IsDiffer(differ)
    ensures ours == base ==> merged == room
    ensures room == base || room == ours ==> merged == ours
    ensures ours != base && room != base && room != ours ==>
      IsMerge(ToLines(base), ToLines(ours), ToLines(room), regions, groups, parts) && merged == Join(Whole(ToLines(base), regions, parts))
    ensures ours != base && room != base && room != ours ==>
      HunksOf(differ, ToLines(base), ToLines(ours), ToLines(room), groups, localHunks, remoteHunks)
  {
    regions, groups, parts, localHunks, remoteHunks := [], [], [], [], [];
    if ours == base { return room, [], [], [], [], []; }
    if room == base || room == ours { return ours, [], [], [], [], []; }
    var out;
    out, regions, groups, parts, localHunks, remoteHunks := MergeLines(differ, ToLines(base), ToLines(ours), ToLines(room));
    merged := Join(out);
  }

  /** Where this device changed nothing, the merge is the room. */
  lemma {:induction false} NoLocalChange(base: seq<string>, ours: seq<string>, room: seq<string>, regions: seq<Region>, groups: seq<seq<SideHunk>>, parts: seq<seq<string>>)
    requires IsMerge(base, ours, room, regions, groups, parts) && forall g :: g in regions ==> !g.localChanged
    ensures Whole(base, regions, parts) == room
  {
    RegionsFit(base, ours, room, regions, groups, false);
    forall k | 0 <= k < |regions| ensures parts[k] == PartsOf(room, regions, Remote)[k] {
      assert PartOk(ours, room, regions[k], parts[k]) && regions[k] in regions;
    }
    assert parts == PartsOf(room, regions, Remote);
    SideRebuilt(base, room, regions, Remote);
  }

  /** Where the room changed nothing, the merge is this device's text. */
  lemma {:induction false} NoRemoteChange(base: seq<string>, ours: seq<string>, room: seq<string>, regions: seq<Region>, groups: seq<seq<SideHunk>>, parts: seq<seq<string>>)
    requires IsMerge(base, ours, room, regions, groups, parts) && forall g :: g in regions ==> !g.remoteChanged
    ensures Whole(base, regions, parts) == ours
  {
    RegionsFit(base, ours, room, regions, groups, false);
    forall k | 0 <= k < |regions| ensures parts[k] == PartsOf(ours, regions, Local)[k] {
      assert PartOk(ours, room, regions[k], parts[k]) && regions[k] in regions;
      UnchangedIsBase(base, ours, room, regions[k], groups[k], false);
    }
    assert parts == PartsOf(ours, regions, Local);
    SideRebuilt(base, ours, regions, Local);
  }

  /** What one side holds in the regions it changed, before region `k`. */
  function Edited(lines: seq<string>, regions: seq<Region>, side: Side, k: nat): seq<string>
    requires k <= |regions|
  {
    if k == 0 then []
    else Edited(lines, regions, side, k - 1) + if Changed(regions[k - 1], side) then LinesIn(lines, regions[k - 1], side) else []
  }

  lemma {:induction false} PartKeeps(ours: seq<string>, room: seq<string>, g: Region, part: seq<string>, side: Side)
    requires PartOk(ours, room, g, part) && Changed(g, side)
    ensures IsSub(LinesIn(if side == Local then ours else room, g, side), part)
  {
    var mine, theirs := LinesIn(ours, g, Local), LinesIn(room, g, Remote);
    SubSelf(part);
    if g.localChanged && g.remoteChanged && mine != theirs {
      var head, tail :| IsBoth(part, theirs, mine, head, tail);
      BothKept(part, theirs, mine, head, tail);
    }
  }

  lemma {:induction false} EditedMore(lines: seq<string>, regions: seq<Region>, side: Side, k: nat)
    requires 0 < k <= |regions|
    ensures Edited(lines, regions, side, k)
         == Edited(lines, regions, side, k - 1) + if Changed(regions[k - 1], side) then LinesIn(lines, regions[k - 1], side) else []
  {
  }

  lemma {:induction false} LaidStep(base: seq<string>, regions: seq<Region>, parts: seq<seq<string>>, k: nat)
    requires 0 < k <= |regions| && k <= |parts|
    ensures Laid(base, regions, parts, k)
         == Laid(base, regions, parts, k - 1) + Slice(base, BaseEnd(regions, k - 1), regions[k - 1].base.from) + parts[k - 1]
  {
  }

  lemma {:induction false} OwnKept(ours: seq<string>, room: seq<string>, regions: seq<Region>, parts: seq<seq<string>>, side: Side, k: nat)
    requires PartsOk(ours, room, regions, parts) && k < |regions|
    ensures var lines := if side == Local then ours else room;
      IsSub(if Changed(regions[k], side) then LinesIn(lines, regions[k], side) else [], parts[k])
  {
    assert PartOk(ours, room, regions[k], parts[k]);
    if Changed(regions[k], side) { PartKeeps(ours, room, regions[k], parts[k], side); } else { SubNone(parts[k]); }
  }

  /** One more region keeps what the side changed. */
  lemma {:induction false} EditedKeptNext(base: seq<string>, ours: seq<string>, room: seq<string>, regions: seq<Region>, parts: seq<seq<string>>, side: Side, k: nat)
    requires PartsOk(ours, room, regions, parts) && k < |regions|
    ensures IsSub(Edited(if side == Local then ours else room, regions, side, k + 1), Laid(base, regions, parts, k + 1))
    decreases k, 1
  {
    var lines, g := if side == Local then ours else room, regions[k];
    var own := if Changed(g, side) then LinesIn(lines, g, side) else [];
    EditedKept(base, ours, room, regions, parts, side, k);
    OwnKept(ours, room, regions, parts, side, k);
    SubAcross(Edited(lines, regions, side, k), Laid(base, regions, parts, k), Slice(base, BaseEnd(regions, k), g.base.from), own, parts[k]);
    EditedMore(lines, regions, side, k + 1);
    LaidStep(base, regions, parts, k + 1);
  }

  lemma {:induction false} EditedKept(base: seq<string>, ours: seq<string>, room: seq<string>, regions: seq<Region>, parts: seq<seq<string>>, side: Side, k: nat)
    requires PartsOk(ours, room, regions, parts) && k <= |regions|
    ensures IsSub(Edited(if side == Local then ours else room, regions, side, k), Laid(base, regions, parts, k))
    decreases k, 0
  {
    if k > 0 { EditedKeptNext(base, ours, room, regions, parts, side, k - 1); }
  }

  lemma {:induction false} SubAcross(edited: seq<string>, laid: seq<string>, gap: seq<string>, own: seq<string>, part: seq<string>)
    requires IsSub(edited, laid) && IsSub(own, part)
    ensures IsSub(edited + own, laid + gap + part)
  {
    SubNone(gap);
    SubConcat(edited, laid, [], gap);
    assert edited + [] == edited;
    SubConcat(edited, laid + gap, own, part);
  }

  /** Every line of every region a side changed is in the merge, in that side's order: neither side's edit is lost. */
  lemma {:induction false} NoEditLost(base: seq<string>, ours: seq<string>, room: seq<string>, regions: seq<Region>, groups: seq<seq<SideHunk>>, parts: seq<seq<string>>)
    requires IsMerge(base, ours, room, regions, groups, parts)
    ensures IsSub(Edited(ours, regions, Local, |regions|), Whole(base, regions, parts))
    ensures IsSub(Edited(room, regions, Remote, |regions|), Whole(base, regions, parts))
  {
    var n := |regions|;
    var rest := Slice(base, BaseEnd(regions, n), |base|);
    SubNone(rest);
    EditedKept(base, ours, room, regions, parts, Local, n);
    EditedKept(base, ours, room, regions, parts, Remote, n);
    SubConcat(Edited(ours, regions, Local, n), Laid(base, regions, parts, n), [], rest);
    SubConcat(Edited(room, regions, Remote, n), Laid(base, regions, parts, n), [], rest);
    assert Edited(ours, regions, Local, n) + [] == Edited(ours, regions, Local, n);
    assert Edited(room, regions, Remote, n) + [] == Edited(room, regions, Remote, n);
  }
}
