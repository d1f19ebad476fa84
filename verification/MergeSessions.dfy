/** A merge editor session as it opens: `buildMergeSession` of packages/plugin/src/sync/merge-model.ts. */
module MergeSessions {
  import opened Common
  import opened Scripts
  import opened Texts
  import opened Regions
  import opened MergeEdits
  import opened MergeChoices
  import M = MergeText

  datatype Session = Session(text: string, changes: seq<MergeChange>, baseLines: seq<string>, localLines: seq<string>, remoteLines: seq<string>)

  /** A region's lines on the three sides. */
  function LinesAt(base: seq<string>, local: seq<string>, remote: seq<string>, g: Region): Lines
  {
    Lines(Slice(base, g.base.from, g.base.upto), Both(M.LinesIn(local, g, Local), M.LinesIn(remote, g, Remote)))
  }

  /** Both sides changed, each in its own way. */
  predicate IsConflict(g: Region, lines: Lines)
  {
    g.localChanged && g.remoteChanged && lines.sides.local != lines.sides.remote
  }

  /** The lines a region puts into the session's text before any click. */
  function FirstShown(g: Region, lines: Lines): seq<string>
  {
    if IsConflict(g, lines) then lines.base else if g.localChanged then lines.sides.local else lines.sides.remote
  }

  function FirstStatus(changed: bool, conflict: bool): Status
  {
    if !changed then NotThere else if conflict then Open else Applied
  }

  function FirstTaken(changed: bool, conflict: bool, result: Span): Option<Span>
  {
    if changed && !conflict then Some(result) else None
  }

  /** A change as the session builds it, at `result`. */
  function NewChange(g: Region, index: nat, conflict: bool, endsAtEof: bool, result: Span): MergeChange
  {
    MergeChange(index, conflict, g.base, endsAtEof, Both(g.local, g.remote), result,
      Both(FirstTaken(g.localChanged, conflict, result), FirstTaken(g.remoteChanged, conflict, result)),
      Both(FirstStatus(g.localChanged, conflict), FirstStatus(g.remoteChanged, conflict)))
  }

  /** The lines before region `k`'s in the result, and those after them. */
  function Pre(base: seq<string>, regions: seq<Region>, parts: seq<seq<string>>, k: nat): seq<string>
    requires k < |regions| && k <= |parts|
  {
    M.Laid(base, regions, parts, k) + Slice(base, BaseEnd(regions, k), regions[k].base.from)
  }

  function Post(base: seq<string>, regions: seq<Region>, parts: seq<seq<string>>, k: nat): seq<string>
    requires k < |regions| == |parts|
  {
    LinesAfter(base, regions, parts, k + 1)
  }

  /** The result from region `k`'s gap on. */
  function LinesAfter(base: seq<string>, regions: seq<Region>, parts: seq<seq<string>>, k: nat): seq<string>
    requires k <= |regions| == |parts|
    decreases |regions| - k
  {
    if k == |regions| then Slice(base, BaseEnd(regions, k), |base|)
    else Slice(base, BaseEnd(regions, k), regions[k].base.from) + (parts[k] + LinesAfter(base, regions, parts, k + 1))
  }

  lemma {:induction false} LaidThenAfter(base: seq<string>, regions: seq<Region>, parts: seq<seq<string>>, k: nat)
    requires k <= |regions| == |parts|
    ensures M.Whole(base, regions, parts) == M.Laid(base, regions, parts, k) + LinesAfter(base, regions, parts, k)
    decreases |regions| - k, 0
  {
    if k < |regions| { OneBack(base, regions, parts, k); }
  }

  lemma {:induction false} OneBack(base: seq<string>, regions: seq<Region>, parts: seq<seq<string>>, k: nat)
    requires k < |regions| == |parts|
    ensures M.Whole(base, regions, parts) == M.Laid(base, regions, parts, k) + LinesAfter(base, regions, parts, k)
    decreases |regions| - k - 1, 1
  {
    LaidThenAfter(base, regions, parts, k + 1);
    var laid, gap, rest := M.Laid(base, regions, parts, k), Slice(base, BaseEnd(regions, k), regions[k].base.from), LinesAfter(base, regions, parts, k + 1);
    Regroup(laid + gap, parts[k], rest);
    Regroup(laid, gap, parts[k] + rest);
  }

  lemma {:induction false} LaidSplits(base: seq<string>, regions: seq<Region>, parts: seq<seq<string>>, k: nat)
    requires k < |regions| == |parts|
    ensures M.Laid(base, regions, parts, k + 1) == Pre(base, regions, parts, k) + parts[k]
  {
  }

  /** The result is what comes before a region's lines, those lines, and what comes after. */
  lemma {:induction false} WholeSplits(base: seq<string>, regions: seq<Region>, parts: seq<seq<string>>, k: nat)
    requires k < |regions| == |parts|
    ensures M.Whole(base, regions, parts) == Pre(base, regions, parts, k) + parts[k] + Post(base, regions, parts, k)
  {
    LaidSplits(base, regions, parts, k);
    LaidThenAfter(base, regions, parts, k + 1);
  }

  /** Only the last region can end the file, and it does when it ends the base. */
  lemma {:induction false} PostEmpty(base: seq<string>, regions: seq<Region>, parts: seq<seq<string>>, k: nat)
    requires k < |regions| == |parts| && AllParted(regions, true)
    requires forall j :: 0 <= j < |regions| ==> regions[j].base.from <= regions[j].base.upto <= |base|
    ensures Post(base, regions, parts, k) == [] <==> regions[k].base.upto == |base|
  {
    if k + 1 < |regions| {
      assert Parted(regions, k + 1, true);
      assert |Slice(base, BaseEnd(regions, k + 1), regions[k + 1].base.from)| > 0;
    } else {
      assert Post(base, regions, parts, k) == Slice(base, BaseEnd(regions, k + 1), |base|);
    }
  }

  /** A base line lies before every region but the first. */
  lemma {:induction false} PreNotEmpty(base: seq<string>, regions: seq<Region>, parts: seq<seq<string>>, k: nat)
    requires 0 < k < |regions| == |parts| && AllParted(regions, true)
    requires forall j :: 0 <= j < |regions| ==> regions[j].base.from <= regions[j].base.upto <= |base|
    ensures Pre(base, regions, parts, k) != []
  {
    assert Parted(regions, k, true);
    assert |Slice(base, BaseEnd(regions, k), regions[k].base.from)| > 0;
  }

  /** What every region first shows. */
  function FirstParts(base: seq<string>, local: seq<string>, remote: seq<string>, regions: seq<Region>): (r: seq<seq<string>>)
    ensures |r| == |regions|
  {
    seq(|regions|, k requires 0 <= k < |regions| => FirstShown(regions[k], LinesAt(base, local, remote, regions[k])))
  }

  function PartsOf(s: Session, regions: seq<Region>): (r: seq<seq<string>>)
    ensures |r| == |regions|
  {
    FirstParts(s.baseLines, s.localLines, s.remoteLines, regions)
  }

  /** Region `k`'s change, at `result`. */
  function ChangeOf(base: seq<string>, local: seq<string>, remote: seq<string>, g: Region, k: nat, result: Span): MergeChange
  {
    NewChange(g, k, IsConflict(g, LinesAt(base, local, remote, g)), g.base.upto == |base|, result)
  }

  /** Where region `k`'s lines sit in the result. */
  function PlaceOf(s: Session, regions: seq<Region>, k: nat): Span
    requires k < |regions|
  {
    var parts := PartsOf(s, regions);
    SpanOf(Pre(s.baseLines, regions, parts, k), parts[k], Post(s.baseLines, regions, parts, k))
  }

  ghost predicate SessionOk(s: Session, regions: seq<Region>, groups: seq<seq<SideHunk>>)
  {
    && RegionsOk(s.baseLines, s.localLines, s.remoteLines, regions, groups, true)
    && AllTaken(s.baseLines, s.localLines, s.remoteLines, regions) && ChangesOk(s, regions)
    && s.baseLines != [] && s.localLines != [] && s.remoteLines != []
  }

  /** The text is every region's first lines in the base's, and every change knows where its lines are. */
  ghost predicate ChangesOk(s: Session, regions: seq<Region>)
  {
    && s.text == Join(M.Whole(s.baseLines, regions, PartsOf(s, regions))) && |s.changes| == |regions|
    && forall k :: 0 <= k < |s.changes| ==>
      s.changes[k] == ChangeOf(s.baseLines, s.localLines, s.remoteLines, regions[k], k, PlaceOf(s, regions, k))
  }

  /** More lines, and the characters they take, a newline after each counted. */
  method Push(out: seq<string>, length: nat, lines: seq<string>) returns (more: seq<string>, size: nat)
    requires length == Len(out)
    ensures more == out + lines && size == Len(more)
  {
    more, size := out, length;
    for i := 0 to |lines|
      invariant more == out + lines[..i] && size == Len(more)
    {
      EndedConcat(more, [lines[i]]);
      assert lines[..i + 1] == lines[..i] + [lines[i]];
      more := more + [lines[i]];
      size := size + |lines[i]| + 1;
    }
    assert lines[..|lines|] == lines;
  }

  /** Places counted with one newline too many, cut back to a text of `n` characters. */
  function Clamped(change: MergeChange, n: nat): MergeChange
  {
    var result := Span(Min(change.result.from, n), Min(change.result.upto, n));
    change.(result := result,
            taken := Both(if change.taken.local.Some? then Some(result) else None, if change.taken.remote.Some? then Some(result) else None))
  }

  /** One region's lines and change, after the base's lines before it. */
  method PushRegion(base: seq<string>, local: seq<string>, remote: seq<string>, g: Region, index: nat, out: seq<string>, length: nat, cursor: nat)
    returns (more: seq<string>, size: nat, change: MergeChange)
    requires length == Len(out) && cursor <= g.base.from <= g.base.upto <= |base|
    requires g.local.from <= g.local.upto <= |local| && g.remote.from <= g.remote.upto <= |remote|
    ensures more == out + base[cursor..g.base.from] + FirstShown(g, LinesAt(base, local, remote, g)) && size == Len(more)
    ensures change == ChangeOf(base, local, remote, g, index, Span(Len(out + base[cursor..g.base.from]), size))
  {
    more, size := Push(out, length, base[cursor..g.base.from]);
    var from := size;
    var ownLocal, ownRemote := local[g.local.from..g.local.upto], remote[g.remote.from..g.remote.upto];
    var conflict := g.localChanged && g.remoteChanged && ownLocal != ownRemote;
    if conflict {
      more, size := Push(more, size, base[g.base.from..g.base.upto]);
    } else {
      more, size := Push(more, size, if g.localChanged then ownLocal else ownRemote);
    }
    change := NewChange(g, index, conflict, g.base.upto == |base|, Span(from, size));
  }

  /** Region `k`'s change before clamping. */
  function RawOf(base: seq<string>, local: seq<string>, remote: seq<string>, regions: seq<Region>, k: nat): MergeChange
    requires k < |regions|
  {
    var parts := FirstParts(base, local, remote, regions);
    ChangeOf(base, local, remote, regions[k], k, Span(Len(Pre(base, regions, parts, k)), Len(M.Laid(base, regions, parts, k + 1))))
  }

  ghost predicate AllRaw(base: seq<string>, local: seq<string>, remote: seq<string>, regions: seq<Region>, raw: seq<MergeChange>)
  {
    |raw| <= |regions| && forall k :: 0 <= k < |raw| ==> raw[k] == RawOf(base, local, remote, regions, k)
  }

  lemma {:induction false} MoreRaw(base: seq<string>, local: seq<string>, remote: seq<string>, regions: seq<Region>, raw: seq<MergeChange>, change: MergeChange)
    requires AllRaw(base, local, remote, regions, raw) && |raw| < |regions| && change == RawOf(base, local, remote, regions, |raw|)
    ensures AllRaw(base, local, remote, regions, raw + [change])
  {
    var more := raw + [change];
    forall k | 0 <= k < |more| ensures more[k] == RawOf(base, local, remote, regions, k) {
      if k < |raw| { assert more[k] == raw[k]; } else { assert more[k] == change; }
    }
  }

  lemma {:induction false} RegionLaid(base: seq<string>, local: seq<string>, remote: seq<string>, regions: seq<Region>, k: nat)
    requires k < |regions| && M.InBounds(base, local, remote, regions, k)
    ensures var parts, g := FirstParts(base, local, remote, regions), regions[k];
      var plain := M.Laid(base, regions, parts, k) + base[BaseEnd(regions, k)..g.base.from];
      var laid := plain + FirstShown(g, LinesAt(base, local, remote, g));
      && M.Laid(base, regions, parts, k + 1) == laid
      && RawOf(base, local, remote, regions, k) == ChangeOf(base, local, remote, g, k, Span(Len(plain), Len(laid)))
  {
  }

  lemma {:induction false} LaidToEnd(base: seq<string>, regions: seq<Region>, parts: seq<seq<string>>)
    requires |parts| == |regions| && BaseEnd(regions, |regions|) <= |base|
    ensures M.Whole(base, regions, parts) == M.Laid(base, regions, parts, |regions|) + base[BaseEnd(regions, |regions|)..]
  {
  }

  /** The lines and the changes before clamping of the first `k` regions, a newline counted after every line. */
  ghost predicate LaidTo(base: seq<string>, local: seq<string>, remote: seq<string>, regions: seq<Region>, k: nat, out: seq<string>, length: nat, cursor: nat, raw: seq<MergeChange>)
    requires k <= |regions|
  {
    && cursor == BaseEnd(regions, k) && length == Len(out) && out == M.Laid(base, regions, FirstParts(base, local, remote, regions), k)
    && |raw| == k && AllRaw(base, local, remote, regions, raw)
  }

  /** One region more. */
  method LayNext(base: seq<string>, local: seq<string>, remote: seq<string>, regions: seq<Region>, k: nat, out: seq<string>, length: nat, cursor: nat, raw: seq<MergeChange>)
    returns (more: seq<string>, size: nat, changes: seq<MergeChange>)
    requires k < |regions| && M.InBounds(base, local, remote, regions, k)
    requires LaidTo(base, local, remote, regions, k, out, length, cursor, raw)
    ensures LaidTo(base, local, remote, regions, k + 1, more, size, regions[k].base.upto, changes)
  {
    var change;
    more, size, change := PushRegion(base, local, remote, regions[k], k, out, length, cursor);
    RegionLaid(base, local, remote, regions, k);
    MoreRaw(base, local, remote, regions, raw, change);
    changes := raw + [change];
  }

  /** The result's lines, and the changes before clamping. */
  method LayRegions(base: seq<string>, local: seq<string>, remote: seq<string>, regions: seq<Region>)
    returns (out: seq<string>, raw: seq<MergeChange>)
    requires forall k :: 0 <= k < |regions| ==> M.InBounds(base, local, remote, regions, k)
    ensures out == M.Whole(base, regions, FirstParts(base, local, remote, regions))
    ensures |raw| == |regions| && AllRaw(base, local, remote, regions, raw)
  {
    out, raw := [], [];
    var length: nat, cursor: nat := 0, 0;
    for k := 0 to |regions|
      invariant cursor <= |base| && LaidTo(base, local, remote, regions, k, out, length, cursor, raw)
    {
      assert M.InBounds(base, local, remote, regions, k);
      out, length, raw := LayNext(base, local, remote, regions, k, out, length, cursor, raw);
      cursor := regions[k].base.upto;
    }
    out, length := Push(out, length, base[cursor..]);
    LaidToEnd(base, regions, FirstParts(base, local, remote, regions));
  }

  lemma {:induction false} RawClamped(s: Session, regions: seq<Region>, k: nat)
    requires k < |regions| && s.text == Join(M.Whole(s.baseLines, regions, PartsOf(s, regions)))
    ensures Clamped(RawOf(s.baseLines, s.localLines, s.remoteLines, regions, k), |s.text|)
         == ChangeOf(s.baseLines, s.localLines, s.remoteLines, regions[k], k, PlaceOf(s, regions, k))
  {
    var parts := PartsOf(s, regions);
    WholeSplits(s.baseLines, regions, parts, k);
    LaidSplits(s.baseLines, regions, parts, k);
    EndedConcat(Pre(s.baseLines, regions, parts, k), parts[k]);
  }

  lemma {:induction false} AllClamped(s: Session, regions: seq<Region>, raw: seq<MergeChange>)
    requires s.text == Join(M.Whole(s.baseLines, regions, PartsOf(s, regions)))
    requires |s.changes| == |raw| == |regions| && AllRaw(s.baseLines, s.localLines, s.remoteLines, regions, raw)
    requires forall j :: 0 <= j < |raw| ==> s.changes[j] == Clamped(raw[j], |s.text|)
    ensures ChangesOk(s, regions)
  {
    forall k | 0 <= k < |regions|
      ensures s.changes[k] == ChangeOf(s.baseLines, s.localLines, s.remoteLines, regions[k], k, PlaceOf(s, regions, k))
    {
      assert raw[k] == RawOf(s.baseLines, s.localLines, s.remoteLines, regions, k);
      RawClamped(s, regions, k);
    }
  }

  /** One change a region, each with the span of its first lines, and the text those lines make with the base's around. */
  method BuildMergeSession(differ: LineDiffer, base: string, local: string, remote: string)
    returns (s: Session, ghost regions: seq<Region>, ghost groups: seq<seq<SideHunk>>, ghost localHunks: seq<Hunk>, ghost remoteHunks: seq<Hunk>)
    requires IsDiffer(differ)
    ensures s.baseLines == ToLines(base) && s.localLines == ToLines(local) && s.remoteLines == ToLines(remote)
    ensures SessionOk(s, regions, groups)
    ensures HunksOf(differ, s.baseLines, s.localLines, s.remoteLines, groups, localHunks, remoteHunks)
  {
    var baseLines, localLines, remoteLines := ToLines(base), ToLines(local), ToLines(remote);
    var found;
    found, groups, localHunks, remoteHunks := ThreeWayRegions(differ, baseLines, localLines, remoteLines, true);
    regions := found;
    M.AllInBounds(baseLines, localLines, remoteLines, found, groups, true);
    s := OpenSession(baseLines, localLines, remoteLines, found);
  }

  /** Every span inside the text. */
  method ClampAll(raw: seq<MergeChange>, n: nat) returns (changes: seq<MergeChange>)
    ensures |changes| == |raw| && forall j :: 0 <= j < |raw| ==> changes[j] == Clamped(raw[j], n)
  {
    changes := [];
    for k := 0 to |raw|
      invariant |changes| == k && forall j :: 0 <= j < k ==> changes[j] == Clamped(raw[j], n)
    {
      changes := changes + [Clamped(raw[k], n)];
    }
  }

  /** The session of three sides whose regions are known. */
  method OpenSession(base: seq<string>, local: seq<string>, remote: seq<string>, regions: seq<Region>) returns (s: Session)
    requires forall k :: 0 <= k < |regions| ==> M.InBounds(base, local, remote, regions, k)
    ensures s.baseLines == base && s.localLines == local && s.remoteLines == remote && ChangesOk(s, regions)
  {
    var out, raw := LayRegions(base, local, remote, regions);
    var text := Join(out);
    var changes := ClampAll(raw, |text|);
    s := Session(text, changes, base, local, remote);
    AllClamped(s, regions, raw);
  }

  lemma {:induction false} HunksTakeLines<T>(base: seq<T>, lines: seq<T>, hs: seq<Hunk>, b: nat, l: nat, p: nat, q: nat)
    requires Mismatches(base, lines, hs, b, l, p, q) && hs != []
    ensures b < p || l < q
  {
    MismatchesOrder(base, lines, hs[1..], hs[0].baseTo, hs[0].lineTo, p, q);
  }

  lemma {:induction false} FirstEndsBefore(s: Session, regions: seq<Region>, groups: seq<seq<SideHunk>>)
    requires SessionOk(s, regions, groups) && |regions| > 1
    ensures regions[0].base.upto < |s.baseLines|
  {
    assert Parted(regions, 1, true);
    M.RangesFit(s.baseLines, s.localLines, s.remoteLines, regions[1], groups[1], true);
  }

  /** A region that is the whole base is the whole of either side. */
  lemma {:induction false} OnlyRegion(s: Session, regions: seq<Region>, groups: seq<seq<SideHunk>>, k: nat)
    requires SessionOk(s, regions, groups) && k < |regions|
    requires Pre(s.baseLines, regions, PartsOf(s, regions), k) + Post(s.baseLines, regions, PartsOf(s, regions), k) == []
    ensures regions[k].base == Range(0, |s.baseLines|)
    ensures regions[k].local == Range(0, |s.localLines|) && regions[k].remote == Range(0, |s.remoteLines|)
  {
    var parts := PartsOf(s, regions);
    BasesInBounds(s, regions, groups);
    assert Pre(s.baseLines, regions, parts, k) == [] && Post(s.baseLines, regions, parts, k) == [];
    if k > 0 { PreNotEmpty(s.baseLines, regions, parts, k); }
    PostEmpty(s.baseLines, regions, parts, k);
    assert GapOk(s.baseLines, s.localLines, s.remoteLines, regions, 0);
    if |regions| > 1 { FirstEndsBefore(s, regions, groups); }
  }

  lemma {:induction false} BasesInBounds(s: Session, regions: seq<Region>, groups: seq<seq<SideHunk>>)
    requires SessionOk(s, regions, groups)
    ensures forall j :: 0 <= j < |regions| ==> regions[j].base.from <= regions[j].base.upto <= |s.baseLines|
    ensures forall j :: 0 <= j < |regions| ==> regions[j].local.from <= regions[j].local.upto <= |s.localLines|
    ensures forall j :: 0 <= j < |regions| ==> regions[j].remote.from <= regions[j].remote.upto <= |s.remoteLines|
  {
    forall j | 0 <= j < |regions|
      ensures regions[j].base.from <= regions[j].base.upto <= |s.baseLines| && regions[j].local.from <= regions[j].local.upto <= |s.localLines|
      ensures regions[j].remote.from <= regions[j].remote.upto <= |s.remoteLines|
    {
      M.RangesFit(s.baseLines, s.localLines, s.remoteLines, regions[j], groups[j], true);
    }
  }

  lemma {:induction false} ChangedTakesLines(base: seq<string>, local: seq<string>, remote: seq<string>, g: Region, group: seq<SideHunk>, side: Side)
    requires RegionOk(base, local, remote, g, group, true) && M.Changed(g, side)
    ensures LinesAt(base, local, remote, g).base != [] || LinesAt(base, local, remote, g).sides.At(side) != []
  {
    M.RangesFit(base, local, remote, g, group, true);
    if side == Local { HunksTakeLines(base, local, OfSide(group, Local), g.base.from, g.local.from, g.base.upto, g.local.upto); }
    else { HunksTakeLines(base, remote, OfSide(group, Remote), g.base.from, g.remote.from, g.base.upto, g.remote.upto); }
  }

  /** A changed side of a region, or the base there, holds a line; both do where the region is the whole file. */
  lemma {:induction false} SidesFit(s: Session, regions: seq<Region>, groups: seq<seq<SideHunk>>, k: nat, side: Side)
    requires SessionOk(s, regions, groups) && k < |regions| && M.Changed(regions[k], side)
    ensures SideFits(LinesAt(s.baseLines, s.localLines, s.remoteLines, regions[k]), side,
      Pre(s.baseLines, regions, PartsOf(s, regions), k), Post(s.baseLines, regions, PartsOf(s, regions), k))
  {
    ChangedTakesLines(s.baseLines, s.localLines, s.remoteLines, regions[k], groups[k], side);
    if Pre(s.baseLines, regions, PartsOf(s, regions), k) + Post(s.baseLines, regions, PartsOf(s, regions), k) == [] {
      OnlyRegion(s, regions, groups, k);
    }
  }

  /** A new change shows its region's first lines, and takes in nothing else. */
  lemma {:induction false} NewChangeShows(g: Region, k: nat, eof: bool, result: Span, lines: Lines)
    requires g.localChanged || g.remoteChanged
    ensures var c := NewChange(g, k, IsConflict(g, lines), eof, result);
      && Shown(c, lines) == FirstShown(g, lines)
      && (c.conflict ==> c.status.local != Applied || c.status.remote != Applied)
      && (forall side :: c.taken.At(side) == if c.status.At(side) == Applied then Some(c.result) else None)
      && (forall side :: c.status.At(side) != NotThere ==> M.Changed(g, side))
      && (!c.conflict && c.status.local != NotThere && c.status.remote != NotThere ==> lines.sides.local == lines.sides.remote)
  {
  }

  /** In a fresh session each change's span covers exactly its region's lines, so every click on it does what it says. */
  lemma {:induction false} FreshIsOk(s: Session, regions: seq<Region>, groups: seq<seq<SideHunk>>, k: nat)
    requires SessionOk(s, regions, groups) && k < |regions|
    ensures EditorOk(Editor(s.text, s.changes[k]), LinesAt(s.baseLines, s.localLines, s.remoteLines, regions[k]),
      Pre(s.baseLines, regions, PartsOf(s, regions), k), Post(s.baseLines, regions, PartsOf(s, regions), k))
  {
    var g, lines, parts := regions[k], LinesAt(s.baseLines, s.localLines, s.remoteLines, regions[k]), PartsOf(s, regions);
    var pre, post := Pre(s.baseLines, regions, parts, k), Post(s.baseLines, regions, parts, k);
    M.UnchangedIsBase(s.baseLines, s.localLines, s.remoteLines, g, groups[k], true);
    NewChangeShows(g, k, g.base.upto == |s.baseLines|, PlaceOf(s, regions, k), lines);
    WholeSplits(s.baseLines, regions, parts, k);
    FreshFits(s, regions, groups, k);
  }

  /**
   * A fresh change is no conflict exactly where one side alone changed, or both hold the same lines now: those lines
   * stand in its place, applied on every side that changed. A conflict shows the base's, and is open on both.
   */
  lemma {:induction false} FreshShows(s: Session, regions: seq<Region>, groups: seq<seq<SideHunk>>, k: nat)
    requires SessionOk(s, regions, groups) && k < |regions|
    ensures var c, g := s.changes[k], regions[k];
      var lines := LinesAt(s.baseLines, s.localLines, s.remoteLines, g);
      var pre, post := Pre(s.baseLines, regions, PartsOf(s, regions), k), Post(s.baseLines, regions, PartsOf(s, regions), k);
      && (!c.conflict <==> !(g.localChanged && g.remoteChanged) || lines.sides.local == lines.sides.remote)
      && (c.conflict ==> c.status == Both(Open, Open) && StandsAs(s, c, pre, lines.base, post))
      && (!c.conflict ==> forall side :: c.status.At(side) == if M.Changed(g, side) then Applied else NotThere)
      && (!c.conflict ==> forall side :: M.Changed(g, side) ==> StandsAs(s, c, pre, lines.sides.At(side), post))
  {
    var g := regions[k];
    var lines := LinesAt(s.baseLines, s.localLines, s.remoteLines, g);
    FreshStands(s, regions, groups, k);
    NewShows(g, k, g.base.upto == |s.baseLines|, PlaceOf(s, regions, k), lines);
  }

  lemma {:induction false} NewShows(g: Region, k: nat, eof: bool, result: Span, lines: Lines)
    requires g.localChanged || g.remoteChanged
    ensures var c := NewChange(g, k, IsConflict(g, lines), eof, result);
      && (!c.conflict <==> !(g.localChanged && g.remoteChanged) || lines.sides.local == lines.sides.remote)
      && (c.conflict ==> c.status == Both(Open, Open) && FirstShown(g, lines) == lines.base)
      && (!c.conflict ==> forall side :: c.status.At(side) == if M.Changed(g, side) then Applied else NotThere)
      && (!c.conflict ==> forall side :: M.Changed(g, side) ==> FirstShown(g, lines) == lines.sides.At(side))
  {
  }

  lemma {:induction false} FreshStands(s: Session, regions: seq<Region>, groups: seq<seq<SideHunk>>, k: nat)
    requires SessionOk(s, regions, groups) && k < |regions|
    ensures var lines := LinesAt(s.baseLines, s.localLines, s.remoteLines, regions[k]);
      && (regions[k].localChanged || regions[k].remoteChanged)
      && s.changes[k] == NewChange(regions[k], k, IsConflict(regions[k], lines), regions[k].base.upto == |s.baseLines|, PlaceOf(s, regions, k))
      && StandsAs(s, s.changes[k], Pre(s.baseLines, regions, PartsOf(s, regions), k), FirstShown(regions[k], lines),
        Post(s.baseLines, regions, PartsOf(s, regions), k))
  {
    WholeSplits(s.baseLines, regions, PartsOf(s, regions), k);
    SomeSideChanged(s, regions, groups, k);
  }

  /** These lines are what the text has at the change's span. */
  ghost predicate StandsAs(s: Session, c: MergeChange, pre: seq<string>, lines: seq<string>, post: seq<string>)
  {
    s.text == Join(pre + lines + post) && c.result == SpanOf(pre, lines, post)
  }

  lemma {:induction false} SomeSideChanged(s: Session, regions: seq<Region>, groups: seq<seq<SideHunk>>, k: nat)
    requires SessionOk(s, regions, groups) && k < |regions|
    ensures regions[k].localChanged || regions[k].remoteChanged
  {
    M.UnchangedIsBase(s.baseLines, s.localLines, s.remoteLines, regions[k], groups[k], true);
  }

  lemma {:induction false} FreshFits(s: Session, regions: seq<Region>, groups: seq<seq<SideHunk>>, k: nat)
    requires SessionOk(s, regions, groups) && k < |regions|
    ensures ChangeFits(s.changes[k], LinesAt(s.baseLines, s.localLines, s.remoteLines, regions[k]),
      Pre(s.baseLines, regions, PartsOf(s, regions), k), Post(s.baseLines, regions, PartsOf(s, regions), k))
  {
    var parts := PartsOf(s, regions);
    BasesInBounds(s, regions, groups);
    PostEmpty(s.baseLines, regions, parts, k);
    AllSidesFit(s, regions, groups, k);
    NewChangeFits(s.baseLines, s.localLines, s.remoteLines, regions[k], k, PlaceOf(s, regions, k),
      Pre(s.baseLines, regions, parts, k), Post(s.baseLines, regions, parts, k));
  }

  lemma {:induction false} NewChangeFits(base: seq<string>, local: seq<string>, remote: seq<string>, g: Region, k: nat, result: Span, pre: seq<string>, post: seq<string>)
    requires g.base.from <= g.base.upto <= |base| && g.local.from <= g.local.upto <= |local| && g.remote.from <= g.remote.upto <= |remote|
    requires g.base.upto == |base| <==> post == []
    requires forall side: Side :: ChangeOf(base, local, remote, g, k, result).status.At(side) != NotThere ==>
      SideFits(LinesAt(base, local, remote, g), side, pre, post)
    ensures ChangeFits(ChangeOf(base, local, remote, g, k, result), LinesAt(base, local, remote, g), pre, post)
  {
    var c, lines := ChangeOf(base, local, remote, g, k, result), LinesAt(base, local, remote, g);
    forall side: Side ensures c.sides.At(side).from + |lines.sides.At(side)| == c.sides.At(side).upto {}
  }

  lemma {:induction false} AllSidesFit(s: Session, regions: seq<Region>, groups: seq<seq<SideHunk>>, k: nat)
    requires SessionOk(s, regions, groups) && k < |regions|
    ensures forall side: Side :: s.changes[k].status.At(side) != NotThere ==>
      SideFits(LinesAt(s.baseLines, s.localLines, s.remoteLines, regions[k]), side,
        Pre(s.baseLines, regions, PartsOf(s, regions), k), Post(s.baseLines, regions, PartsOf(s, regions), k))
  {
    forall side: Side | s.changes[k].status.At(side) != NotThere
      ensures SideFits(LinesAt(s.baseLines, s.localLines, s.remoteLines, regions[k]), side,
        Pre(s.baseLines, regions, PartsOf(s, regions), k), Post(s.baseLines, regions, PartsOf(s, regions), k))
    {
      SidesFit(s, regions, groups, k, side);
    }
  }
}
