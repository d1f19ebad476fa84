/** Applying hunks is splicing: every selected segment's left lines replaced by its right lines, and nothing else. */
module PatchSplice {
  import opened Common
  import opened PatchOps
  import opened PatchHunks

  /** Where the last segment ends on the left. */
  function LastLeft(segs: seq<Segment>, start: nat): nat
  {
    if segs == [] then start else segs[|segs| - 1].left.upto
  }

  function Chosen(a: seq<string>, b: seq<string>, seg: Segment, taken: bool): seq<string>
  {
    if taken then Slice(b, seg.right.from, seg.right.upto) else Slice(a, seg.left.from, seg.left.upto)
  }

  /** Whether segment `i` of hunk `k` is selected. */
  predicate IsTaken(selected: Selection, k: nat, i: nat) { i in TakenOf(selected, k) }

  /** a[start..] up to the last segment's end, the selected segments' left ranges replaced by their right ones. */
  function SpliceFrom(a: seq<string>, b: seq<string>, segs: seq<Segment>, selected: Selection, start: nat): seq<string>
  {
    if segs == [] then []
    else
      var before, seg := segs[..|segs| - 1], segs[|segs| - 1];
      SpliceFrom(a, b, before, selected, start) + Slice(a, LastLeft(before, start), seg.left.from)
      + Chosen(a, b, seg, IsTaken(selected, seg.hunk, seg.index))
  }

  lemma {:induction false} SpliceMore(a: seq<string>, b: seq<string>, segs: seq<Segment>, seg: Segment, selected: Selection, start: nat)
    ensures SpliceFrom(a, b, segs + [seg], selected, start)
         == SpliceFrom(a, b, segs, selected, start) + Slice(a, LastLeft(segs, start), seg.left.from) + Chosen(a, b, seg, IsTaken(selected, seg.hunk, seg.index))
  {
    assert (segs + [seg])[..|segs|] == segs;
  }

  /** The ops say how a's tokens from `p` become b's from `q`. */
  ghost predicate Reads(ops: seq<Op>, a: seq<string>, p: nat, b: seq<string>, q: nat)
  {
    && p + |OldOf(ops, |ops|)| <= |a| && OldOf(ops, |ops|) == a[p..p + |OldOf(ops, |ops|)|]
    && q + |NewOf(ops, |ops|)| <= |b| && NewOf(ops, |ops|) == b[q..q + |NewOf(ops, |ops|)|]
  }

  lemma {:induction false} TokenOnLeft(ops: seq<Op>, a: seq<string>, p: nat, b: seq<string>, q: nat, n: nat)
    requires Reads(ops, a, p, b, q) && n < |ops| && ops[n].kind != Added
    ensures p + |OldOf(ops, n)| < |a| && a[p + |OldOf(ops, n)|] == ops[n].token
  {
    var all, i := OldOf(ops, |ops|), |OldOf(ops, n)|;
    OldOfPrefix(ops, n + 1, |ops|);
    assert OldOf(ops, n + 1)[i] == ops[n].token;
    assert all[i] == a[p..p + |all|][i];
  }

  lemma {:induction false} TokenOnRight(ops: seq<Op>, a: seq<string>, p: nat, b: seq<string>, q: nat, n: nat)
    requires Reads(ops, a, p, b, q) && n < |ops| && ops[n].kind != Removed
    ensures q + |NewOf(ops, n)| < |b| && b[q + |NewOf(ops, n)|] == ops[n].token
  {
    var all, i := NewOf(ops, |ops|), |NewOf(ops, n)|;
    OldOfPrefix(ops, n + 1, |ops|);
    assert NewOf(ops, n + 1)[i] == ops[n].token;
    assert all[i] == b[q..q + |all|][i];
  }

  lemma {:induction false} SliceGrows<T>(s: seq<T>, i: nat, j: nat)
    requires i <= j < |s|
    ensures Slice(s, i, j + 1) == Slice(s, i, j) + [s[j]]
  {
  }

  lemma {:induction false} SliceTo<T>(s: seq<T>, i: nat, j: nat, k: nat, x: T)
    requires i <= j < |s| && k == j + 1 && s[j] == x
    ensures Slice(s, i, k) == Slice(s, i, j) + [x]
  {
  }

  /** How far the left side is read. */
  function LeftRead(ops: seq<Op>, p: nat, n: nat): nat
    requires n <= |ops|
  {
    p + |OldOf(ops, n)|
  }

  lemma {:induction false} LastLeftIs(hunk: nat, ops: seq<Op>, p: nat, q: nat, n: nat)
    requires n <= |ops|
    ensures p <= LastLeft(SegmentsTo(hunk, ops, p, q, n), p) <= LeftRead(ops, p, n)
    ensures Open(ops, n) ==> LastLeft(SegmentsTo(hunk, ops, p, q, n), p) == LeftRead(ops, p, n)
  {
    RunsAreIn(ops, n);
    var runs := Runs(ops, n);
    if runs != [] {
      RunsAreRuns(ops, n);
      assert RunOk(ops, n, runs[|runs| - 1]);
      OldOfPrefix(ops, runs[|runs| - 1].upto, n);
    }
  }

  /** `out` is a's tokens from `start` to `read` with the segments spliced in. */
  ghost predicate Spliced(out: seq<string>, a: seq<string>, b: seq<string>, segs: seq<Segment>, selected: Selection, start: nat, read: nat)
  {
    out == SpliceFrom(a, b, segs, selected, start) + Slice(a, LastLeft(segs, start), read)
  }

  lemma {:induction false} ThenKept(out: seq<string>, a: seq<string>, b: seq<string>, segs: seq<Segment>, selected: Selection, start: nat, read: nat)
    requires Spliced(out, a, b, segs, selected, start, read) && LastLeft(segs, start) <= read < |a|
    ensures Spliced(out + [a[read]], a, b, segs, selected, start, read + 1)
  {
    SliceGrows(a, LastLeft(segs, start), read);
    Regroup(SpliceFrom(a, b, segs, selected, start), Slice(a, LastLeft(segs, start), read), [a[read]]);
  }

  lemma {:induction false} NothingMore<T>(s: seq<T>)
    ensures s + [] == s
  {
  }

  /** At the end of its last segment, what is spliced is its segments and no plain token after them. */
  lemma {:induction false} SplicedAtEnd(out: seq<string>, a: seq<string>, b: seq<string>, segs: seq<Segment>, seg: Segment, selected: Selection, start: nat)
    ensures Spliced(out, a, b, segs + [seg], selected, start, seg.left.upto) <==>
            out == SpliceFrom(a, b, segs, selected, start) + Slice(a, LastLeft(segs, start), seg.left.from) + Chosen(a, b, seg, IsTaken(selected, seg.hunk, seg.index))
  {
    SpliceMore(a, b, segs, seg, selected, start);
    assert Slice(a, seg.left.upto, seg.left.upto) == [];
    NothingMore(SpliceFrom(a, b, segs + [seg], selected, start));
  }

  lemma {:induction false} ThenBegun(out: seq<string>, a: seq<string>, b: seq<string>, segs: seq<Segment>, seg: Segment, selected: Selection, start: nat, shown: seq<string>)
    requires Spliced(out, a, b, segs, selected, start, seg.left.from) && seg.left.upto <= |a|
    requires Chosen(a, b, seg, IsTaken(selected, seg.hunk, seg.index)) == shown
    ensures Spliced(out + shown, a, b, segs + [seg], selected, start, seg.left.upto)
  {
    SplicedAtEnd(out + shown, a, b, segs, seg, selected, start);
  }

  lemma {:induction false} ThenLonger(out: seq<string>, a: seq<string>, b: seq<string>, segs: seq<Segment>, seg: Segment, next: Segment, selected: Selection, start: nat, shown: seq<string>)
    requires Spliced(out, a, b, segs + [seg], selected, start, seg.left.upto) && seg.left.upto <= next.left.upto <= |a|
    requires seg.hunk == next.hunk && seg.index == next.index && seg.left.from == next.left.from
    requires var taken := IsTaken(selected, seg.hunk, seg.index); Chosen(a, b, next, taken) == Chosen(a, b, seg, taken) + shown
    ensures Spliced(out + shown, a, b, segs + [next], selected, start, next.left.upto)
  {
    SplicedAtEnd(out, a, b, segs, seg, selected, start);
    SplicedAtEnd(out + shown, a, b, segs, next, selected, start);
    var before := SpliceFrom(a, b, segs, selected, start) + Slice(a, LastLeft(segs, start), seg.left.from);
    Regroup(before, Chosen(a, b, seg, IsTaken(selected, seg.hunk, seg.index)), shown);
  }

  /** What the first `n` ops of a hunk leave is what splicing its segments so far leaves. */
  ghost predicate HunkSpliced(hunk: nat, ops: seq<Op>, a: seq<string>, p: nat, b: seq<string>, q: nat, selected: Selection, n: nat)
    requires n <= |ops|
  {
    Spliced(Picked(ops, TakenOf(selected, hunk), n), a, b, SegmentsTo(hunk, ops, p, q, n), selected, p, LeftRead(ops, p, n))
  }

  /** The token a changed line adds to what its segment shows. */
  function Shows(op: Op, taken: bool): seq<string>
  {
    if op.kind == (if taken then Added else Removed) then [op.token] else []
  }

  lemma {:induction false} PickedChange(ops: seq<Op>, taken: set<nat>, n: nat, index: nat)
    requires n < |ops| && ops[n].kind != Kept && RunCount(ops, n + 1) == index + 1
    ensures Picked(ops, taken, n + 1) == Picked(ops, taken, n) + Shows(ops[n], index in taken)
  {
  }

  lemma {:induction false} PickedKept(ops: seq<Op>, p: nat, taken: set<nat>, n: nat)
    requires n < |ops| && ops[n].kind == Kept
    ensures Picked(ops, taken, n + 1) == Picked(ops, taken, n) + [ops[n].token] && LeftRead(ops, p, n + 1) == LeftRead(ops, p, n) + 1
  {
  }

  /** What a kept line changes: one more token on the left, and no segment. */
  lemma {:induction false} KeptChanges(hunk: nat, ops: seq<Op>, a: seq<string>, p: nat, b: seq<string>, q: nat, taken: set<nat>, n: nat)
    requires Reads(ops, a, p, b, q) && n < |ops| && ops[n].kind == Kept
    ensures SegmentsTo(hunk, ops, p, q, n + 1) == SegmentsTo(hunk, ops, p, q, n)
    ensures LastLeft(SegmentsTo(hunk, ops, p, q, n), p) <= LeftRead(ops, p, n) < |a|
    ensures LeftRead(ops, p, n + 1) == LeftRead(ops, p, n) + 1
    ensures Picked(ops, taken, n + 1) == Picked(ops, taken, n) + [a[LeftRead(ops, p, n)]]
  {
    SegmentsPastKept(hunk, ops, p, q, n);
    TokenOnLeft(ops, a, p, b, q, n);
    LastLeftIs(hunk, ops, p, q, n);
    PickedKept(ops, p, taken, n);
  }

  lemma {:induction false} SplicedKept(hunk: nat, ops: seq<Op>, a: seq<string>, p: nat, b: seq<string>, q: nat, selected: Selection, n: nat)
    requires Reads(ops, a, p, b, q) && n < |ops| && ops[n].kind == Kept && HunkSpliced(hunk, ops, a, p, b, q, selected, n)
    ensures HunkSpliced(hunk, ops, a, p, b, q, selected, n + 1)
  {
    var taken := TakenOf(selected, hunk);
    KeptChanges(hunk, ops, a, p, b, q, taken, n);
    ThenKept(Picked(ops, taken, n), a, b, SegmentsTo(hunk, ops, p, q, n), selected, p, LeftRead(ops, p, n));
  }

  lemma {:induction false} OneShown(a: seq<string>, b: seq<string>, seg: Segment, op: Op, taken: bool)
    requires op.kind == Removed ==> seg.left.from < |a| && seg.left.upto == seg.left.from + 1 && a[seg.left.from] == op.token
    requires op.kind == Removed ==> seg.right.upto == seg.right.from
    requires op.kind == Added ==> seg.right.from < |b| && seg.right.upto == seg.right.from + 1 && b[seg.right.from] == op.token
    requires op.kind == Added ==> seg.left.upto == seg.left.from
    requires op.kind != Kept
    ensures Chosen(a, b, seg, taken) == Shows(op, taken)
  {
  }

  lemma {:induction false} ReadOne(ops: seq<Op>, n: nat)
    requires n < |ops| && ops[n].kind != Kept
    ensures |OldOf(ops, n + 1)| == |OldOf(ops, n)| + if ops[n].kind == Removed then 1 else 0
    ensures |NewOf(ops, n + 1)| == |NewOf(ops, n)| + if ops[n].kind == Added then 1 else 0
  {
  }

  lemma {:induction false} FirstShown(hunk: nat, ops: seq<Op>, a: seq<string>, p: nat, b: seq<string>, q: nat, n: nat, index: nat, taken: bool)
    requires Reads(ops, a, p, b, q) && n < |ops| && ops[n].kind != Kept
    ensures Chosen(a, b, SegmentAt(hunk, ops, p, q, Run(n, n + 1), index), taken) == Shows(ops[n], taken)
    ensures LeftRead(ops, p, n + 1) <= |a|
  {
    ReadWithin(ops, a, p, b, q, n);
    var seg := SegmentAt(hunk, ops, p, q, Run(n, n + 1), index);
    SegmentSides(hunk, ops, p, q, Run(n, n + 1), index);
    ReadOne(ops, n);
    if ops[n].kind == Removed { TokenOnLeft(ops, a, p, b, q, n); } else { TokenOnRight(ops, a, p, b, q, n); }
    OneShown(a, b, seg, ops[n], taken);
  }

  lemma {:induction false} SplicedBegun(hunk: nat, ops: seq<Op>, a: seq<string>, p: nat, b: seq<string>, q: nat, selected: Selection, n: nat)
    requires Reads(ops, a, p, b, q) && n < |ops| && ops[n].kind != Kept && !Open(ops, n) && HunkSpliced(hunk, ops, a, p, b, q, selected, n)
    ensures HunkSpliced(hunk, ops, a, p, b, q, selected, n + 1)
  {
    var segs, taken := SegmentsTo(hunk, ops, p, q, n), TakenOf(selected, hunk);
    var seg := SegmentAt(hunk, ops, p, q, Run(n, n + 1), |segs|);
    SegmentsBegun(hunk, ops, p, q, n);
    RunsCounted(ops, n);
    PickedChange(ops, taken, n, |segs|);
    FirstShown(hunk, ops, a, p, b, q, n, |segs|, |segs| in taken);
    ThenBegun(Picked(ops, taken, n), a, b, segs, seg, selected, p, Shows(ops[n], |segs| in taken));
  }

  lemma {:induction false} OneRemoved(ops: seq<Op>, from: nat, n: nat)
    requires from < n < |ops| && ops[n].kind == Removed
    ensures |OldOf(ops, from)| <= |OldOf(ops, n)| && |OldOf(ops, n + 1)| == |OldOf(ops, n)| + 1 && NewOf(ops, n + 1) == NewOf(ops, n)
  {
    OldOfPrefix(ops, from, n);
  }

  lemma {:induction false} MoreRemoved(ops: seq<Op>, a: seq<string>, p: nat, b: seq<string>, q: nat, from: nat, n: nat)
    requires Reads(ops, a, p, b, q) && from < n < |ops| && ops[n].kind == Removed
    ensures Slice(a, LeftRead(ops, p, from), LeftRead(ops, p, n + 1)) == Slice(a, LeftRead(ops, p, from), LeftRead(ops, p, n)) + [ops[n].token]
    ensures NewOf(ops, n + 1) == NewOf(ops, n)
  {
    TokenOnLeft(ops, a, p, b, q, n);
    OneRemoved(ops, from, n);
    SliceTo(a, LeftRead(ops, p, from), LeftRead(ops, p, n), LeftRead(ops, p, n + 1), ops[n].token);
  }

  lemma {:induction false} OneAdded(ops: seq<Op>, from: nat, n: nat)
    requires from < n < |ops| && ops[n].kind == Added
    ensures |NewOf(ops, from)| <= |NewOf(ops, n)| && |NewOf(ops, n + 1)| == |NewOf(ops, n)| + 1 && OldOf(ops, n + 1) == OldOf(ops, n)
  {
    OldOfPrefix(ops, from, n);
  }

  lemma {:induction false} MoreAdded(ops: seq<Op>, a: seq<string>, p: nat, b: seq<string>, q: nat, from: nat, n: nat)
    requires Reads(ops, a, p, b, q) && from < n < |ops| && ops[n].kind == Added
    ensures Slice(b, q + |NewOf(ops, from)|, q + |NewOf(ops, n + 1)|) == Slice(b, q + |NewOf(ops, from)|, q + |NewOf(ops, n)|) + [ops[n].token]
    ensures OldOf(ops, n + 1) == OldOf(ops, n)
  {
    TokenOnRight(ops, a, p, b, q, n);
    OneAdded(ops, from, n);
    SliceTo(b, q + |NewOf(ops, from)|, q + |NewOf(ops, n)|, q + |NewOf(ops, n + 1)|, ops[n].token);
  }

  lemma {:induction false} SegmentSides(hunk: nat, ops: seq<Op>, p: nat, q: nat, run: Run, index: nat)
    requires run.from < run.upto <= |ops|
    ensures SegmentAt(hunk, ops, p, q, run, index).left == Range(LeftRead(ops, p, run.from), LeftRead(ops, p, run.upto))
    ensures SegmentAt(hunk, ops, p, q, run, index).right == Range(q + |NewOf(ops, run.from)|, q + |NewOf(ops, run.upto)|)
    ensures SegmentAt(hunk, ops, p, q, run, index).hunk == hunk && SegmentAt(hunk, ops, p, q, run, index).index == index
  {
  }

  lemma {:induction false} ChosenGrows(a: seq<string>, b: seq<string>, seg: Segment, next: Segment, op: Op, taken: bool)
    requires op.kind == Removed ==>
      next.right == seg.right && Slice(a, next.left.from, next.left.upto) == Slice(a, seg.left.from, seg.left.upto) + [op.token]
    requires op.kind == Added ==>
      next.left == seg.left && Slice(b, next.right.from, next.right.upto) == Slice(b, seg.right.from, seg.right.upto) + [op.token]
    requires op.kind != Kept
    ensures Chosen(a, b, next, taken) == Chosen(a, b, seg, taken) + Shows(op, taken)
  {
    NothingMore(Chosen(a, b, seg, taken));
  }

  lemma {:induction false} RemovedShown(ops: seq<Op>, a: seq<string>, p: nat, b: seq<string>, q: nat, from: nat, n: nat, seg: Segment, next: Segment, taken: bool)
    requires Reads(ops, a, p, b, q) && from < n < |ops| && ops[n].kind == Removed
    requires seg.left == Range(LeftRead(ops, p, from), LeftRead(ops, p, n)) && next.left == Range(LeftRead(ops, p, from), LeftRead(ops, p, n + 1))
    requires next.right == seg.right
    ensures Chosen(a, b, next, taken) == Chosen(a, b, seg, taken) + Shows(ops[n], taken)
  {
    MoreRemoved(ops, a, p, b, q, from, n);
    ChosenGrows(a, b, seg, next, ops[n], taken);
  }

  lemma {:induction false} AddedShown(ops: seq<Op>, a: seq<string>, p: nat, b: seq<string>, q: nat, from: nat, n: nat, seg: Segment, next: Segment, taken: bool)
    requires Reads(ops, a, p, b, q) && from < n < |ops| && ops[n].kind == Added
    requires seg.right == Range(q + |NewOf(ops, from)|, q + |NewOf(ops, n)|) && next.right == Range(q + |NewOf(ops, from)|, q + |NewOf(ops, n + 1)|)
    requires next.left == seg.left
    ensures Chosen(a, b, next, taken) == Chosen(a, b, seg, taken) + Shows(ops[n], taken)
  {
    MoreAdded(ops, a, p, b, q, from, n);
    ChosenGrows(a, b, seg, next, ops[n], taken);
  }

  /** One more changed line in a segment adds its token to what the segment shows, where that is its side. */
  lemma {:induction false} MoreShown(ops: seq<Op>, a: seq<string>, p: nat, b: seq<string>, q: nat, from: nat, n: nat, seg: Segment, next: Segment, taken: bool)
    requires Reads(ops, a, p, b, q) && from < n < |ops| && ops[n].kind != Kept
    requires seg.left == Range(LeftRead(ops, p, from), LeftRead(ops, p, n)) && seg.right == Range(q + |NewOf(ops, from)|, q + |NewOf(ops, n)|)
    requires next.left == Range(LeftRead(ops, p, from), LeftRead(ops, p, n + 1)) && next.right == Range(q + |NewOf(ops, from)|, q + |NewOf(ops, n + 1)|)
    ensures Chosen(a, b, next, taken) == Chosen(a, b, seg, taken) + Shows(ops[n], taken)
  {
    if ops[n].kind == Removed {
      RemovedShown(ops, a, p, b, q, from, n, seg, next, taken);
    } else {
      AddedShown(ops, a, p, b, q, from, n, seg, next, taken);
    }
  }

  /** The segments before and after one more changed line in the open one. */
  lemma {:induction false} LongerSegments(hunk: nat, ops: seq<Op>, p: nat, q: nat, n: nat) returns (from: nat, before: seq<Segment>, seg: Segment, next: Segment)
    requires n < |ops| && ops[n].kind != Kept && Open(ops, n)
    ensures from < n && RunCount(ops, n + 1) == |before| + 1
    ensures SegmentsTo(hunk, ops, p, q, n) == before + [seg] && SegmentsTo(hunk, ops, p, q, n + 1) == before + [next]
    ensures seg == SegmentAt(hunk, ops, p, q, Run(from, n), |before|) && next == SegmentAt(hunk, ops, p, q, Run(from, n + 1), |before|)
  {
    SegmentsExtended(hunk, ops, p, q, n);
    RunsCounted(ops, n);
    from, before := LastRun(ops, n).from, SegmentsAt(hunk, ops, p, q, ClosedRuns(ops, n));
    seg, next := SegmentAt(hunk, ops, p, q, Run(from, n), |before|), SegmentAt(hunk, ops, p, q, Run(from, n + 1), |before|);
  }

  lemma {:induction false} SplicedLonger(hunk: nat, ops: seq<Op>, a: seq<string>, p: nat, b: seq<string>, q: nat, selected: Selection, n: nat)
    requires Reads(ops, a, p, b, q) && n < |ops| && ops[n].kind != Kept && Open(ops, n) && HunkSpliced(hunk, ops, a, p, b, q, selected, n)
    ensures HunkSpliced(hunk, ops, a, p, b, q, selected, n + 1)
  {
    var taken := TakenOf(selected, hunk);
    var from, before, seg, next := LongerSegments(hunk, ops, p, q, n);
    SegmentSides(hunk, ops, p, q, Run(from, n), |before|);
    SegmentSides(hunk, ops, p, q, Run(from, n + 1), |before|);
    PickedChange(ops, taken, n, |before|);
    MoreShown(ops, a, p, b, q, from, n, seg, next, |before| in taken);
    ReadWithin(ops, a, p, b, q, n);
    ThenLonger(Picked(ops, taken, n), a, b, before, seg, next, selected, p, Shows(ops[n], |before| in taken));
  }

  lemma {:induction false} ReadWithin(ops: seq<Op>, a: seq<string>, p: nat, b: seq<string>, q: nat, n: nat)
    requires Reads(ops, a, p, b, q) && n < |ops|
    ensures LeftRead(ops, p, n) <= LeftRead(ops, p, n + 1) <= |a|
  {
    OldOfPrefix(ops, n + 1, |ops|);
  }

  lemma {:induction false} SplicedStep(hunk: nat, ops: seq<Op>, a: seq<string>, p: nat, b: seq<string>, q: nat, selected: Selection, n: nat)
    requires Reads(ops, a, p, b, q) && n < |ops| && HunkSpliced(hunk, ops, a, p, b, q, selected, n)
    ensures HunkSpliced(hunk, ops, a, p, b, q, selected, n + 1)
  {
    if ops[n].kind == Kept {
      SplicedKept(hunk, ops, a, p, b, q, selected, n);
    } else if Open(ops, n) {
      SplicedLonger(hunk, ops, a, p, b, q, selected, n);
    } else {
      SplicedBegun(hunk, ops, a, p, b, q, selected, n);
    }
  }

  lemma {:induction false} NothingSpliced(hunk: nat, ops: seq<Op>, a: seq<string>, p: nat, b: seq<string>, q: nat, selected: Selection)
    ensures HunkSpliced(hunk, ops, a, p, b, q, selected, 0)
  {
    assert Slice(a, p, p) == [];
  }

  /** What a hunk leaves is its range with the selected segments' left lines replaced by their right lines. */
  lemma {:induction false} HunkSplices(hunk: nat, ops: seq<Op>, a: seq<string>, p: nat, b: seq<string>, q: nat, selected: Selection, n: nat)
    requires Reads(ops, a, p, b, q) && n <= |ops|
    ensures HunkSpliced(hunk, ops, a, p, b, q, selected, n)
    decreases n, 0
  {
    if n > 0 {
      OneMoreOp(hunk, ops, a, p, b, q, selected, n - 1);
    } else {
      NothingSpliced(hunk, ops, a, p, b, q, selected);
    }
  }

  lemma {:induction false} OneMoreOp(hunk: nat, ops: seq<Op>, a: seq<string>, p: nat, b: seq<string>, q: nat, selected: Selection, n: nat)
    requires Reads(ops, a, p, b, q) && n < |ops|
    ensures HunkSpliced(hunk, ops, a, p, b, q, selected, n + 1)
    decreases n, 1
  {
    HunkSplices(hunk, ops, a, p, b, q, selected, n);
    SplicedStep(hunk, ops, a, p, b, q, selected, n);
  }

  /** The segments of the first `k` hunks. */
  ghost function AllSegments(hunks: seq<SyncHunk>, opss: seq<seq<Op>>, k: nat): seq<Segment>
    requires k <= |hunks| == |opss|
  {
    if k == 0 then [] else AllSegments(hunks, opss, k - 1) + SegmentsOf(hunks[k - 1].index, hunks[k - 1].raw, opss[k - 1])
  }

  lemma {:induction false} RegroupFive<T>(a: seq<T>, b: seq<T>, c: seq<T>, d: seq<T>, e: seq<T>)
    ensures (a + b + c) + d + e == a + b + (c + d + e)
  {
  }

  lemma {:induction false} MiddleOut<T>(a: seq<T>, b: seq<T>, c: seq<T>, d: seq<T>)
    ensures a + (b + c) + d == a + b + (c + d)
  {
  }

  lemma {:induction false} SpliceOne(a: seq<string>, b: seq<string>, seg: Segment, selected: Selection, at: nat)
    ensures SpliceFrom(a, b, [seg], selected, at) == Slice(a, at, seg.left.from) + Chosen(a, b, seg, IsTaken(selected, seg.hunk, seg.index))
  {
    assert [seg][..0] == [];
  }

  lemma {:induction false} JoinOne(a: seq<string>, b: seq<string>, x: seq<Segment>, seg: Segment, selected: Selection, start: nat, at: nat)
    requires LastLeft(x, start) <= at <= seg.left.from <= |a|
    ensures SpliceFrom(a, b, x + [seg], selected, start)
         == SpliceFrom(a, b, x, selected, start) + Slice(a, LastLeft(x, start), at) + SpliceFrom(a, b, [seg], selected, at)
  {
    var p, q, r, shown := SpliceFrom(a, b, x, selected, start), Slice(a, LastLeft(x, start), at), Slice(a, at, seg.left.from), Chosen(a, b, seg, IsTaken(selected, seg.hunk, seg.index));
    SpliceMore(a, b, x, seg, selected, start);
    SpliceOne(a, b, seg, selected, at);
    TwoSlices(a, LastLeft(x, start), at, seg.left.from);
    MiddleOut(p, q, r, shown);
  }

  lemma {:induction false} SpliceJoins(a: seq<string>, b: seq<string>, x: seq<Segment>, y: seq<Segment>, selected: Selection, start: nat, at: nat)
    requires LastLeft(x, start) <= at <= |a| && y != [] && at <= y[0].left.from <= |a|
    ensures SpliceFrom(a, b, x + y, selected, start)
         == SpliceFrom(a, b, x, selected, start) + Slice(a, LastLeft(x, start), at) + SpliceFrom(a, b, y, selected, at)
    ensures LastLeft(x + y, start) == LastLeft(y, at)
    decreases |y|
  {
    var front, last := y[..|y| - 1], y[|y| - 1];
    if front == [] {
      assert y == [last];
      JoinOne(a, b, x, last, selected, start, at);
    } else {
      assert x + y == (x + front) + [last] && y == front + [last];
      SpliceMore(a, b, x + front, last, selected, start);
      SpliceMore(a, b, front, last, selected, at);
      SpliceJoins(a, b, x, front, selected, start, at);
      RegroupFive(SpliceFrom(a, b, x, selected, start), Slice(a, LastLeft(x, start), at), SpliceFrom(a, b, front, selected, at),
        Slice(a, LastLeft(front, at), last.left.from), Chosen(a, b, last, IsTaken(selected, last.hunk, last.index)));
    }
  }

  lemma {:induction false} TwoSlices<T>(s: seq<T>, i: nat, j: nat, k: nat)
    requires i <= j <= k <= |s|
    ensures Slice(s, i, j) + Slice(s, j, k) == Slice(s, i, k)
  {
  }

  /** The first segment of a hunk starts inside it, and the last ends inside it. */
  lemma {:induction false} SegmentsInside(hunk: nat, ops: seq<Op>, p: nat, q: nat)
    ensures var segs := SegmentsTo(hunk, ops, p, q, |ops|); segs != [] ==> p <= segs[0].left.from <= LeftRead(ops, p, |ops|)
  {
    RunsAreIn(ops, |ops|);
    var runs := Runs(ops, |ops|);
    if runs != [] { OldOfPrefix(ops, runs[0].from, |ops|); }
  }

  lemma {:induction false} HunkReads(hunks: seq<SyncHunk>, opss: seq<seq<Op>>, a: seq<string>, b: seq<string>, k: nat)
    requires PatchOk(hunks, opss, a, b) && k < |hunks|
    ensures Reads(opss[k], a, LeftAt(hunks[k].raw), b, RightAt(hunks[k].raw))
    ensures LeftRead(opss[k], LeftAt(hunks[k].raw), |opss[k]|) == LeftEnd(hunks, k + 1)
  {
    assert HunkOk(hunks[k].raw, opss[k], a, b);
  }

  /** More plain tokens. */
  lemma {:induction false} ThenPlain(out: seq<string>, a: seq<string>, b: seq<string>, x: seq<Segment>, selected: Selection, start: nat, read: nat, at: nat)
    requires Spliced(out, a, b, x, selected, start, read) && LastLeft(x, start) <= read <= at <= |a|
    ensures Spliced(out + Slice(a, read, at), a, b, x, selected, start, at)
  {
    TwoSlices(a, LastLeft(x, start), read, at);
    Regroup(SpliceFrom(a, b, x, selected, start), Slice(a, LastLeft(x, start), read), Slice(a, read, at));
  }

  /** One more spliced stretch. */
  lemma {:induction false} ThenStretch(out: seq<string>, more: seq<string>, a: seq<string>, b: seq<string>, x: seq<Segment>, y: seq<Segment>, selected: Selection, start: nat, at: nat, end: nat)
    requires Spliced(out, a, b, x, selected, start, at) && Spliced(more, a, b, y, selected, at, end)
    requires LastLeft(x, start) <= at <= end <= |a| && at <= LastLeft(y, at) <= end && (y != [] ==> at <= y[0].left.from <= |a|)
    ensures Spliced(out + more, a, b, x + y, selected, start, end)
  {
    if y == [] {
      assert x + y == x && more == Slice(a, at, end);
      ThenPlain(out, a, b, x, selected, start, at, end);
    } else {
      SpliceJoins(a, b, x, y, selected, start, at);
      Regroup(out, SpliceFrom(a, b, y, selected, at), Slice(a, LastLeft(y, at), end));
    }
  }

  ghost predicate SplicedTo(a: seq<string>, b: seq<string>, hunks: seq<SyncHunk>, opss: seq<seq<Op>>, selected: Selection, k: nat)
    requires k <= |hunks| == |opss|
  {
    && Spliced(Applied(a, hunks, opss, selected, k), a, b, AllSegments(hunks, opss, k), selected, 0, LeftEnd(hunks, k))
    && LastLeft(AllSegments(hunks, opss, k), 0) <= LeftEnd(hunks, k)
  }

  lemma {:induction false} SplicedNext(a: seq<string>, b: seq<string>, hunks: seq<SyncHunk>, opss: seq<seq<Op>>, selected: Selection, k: nat)
    requires PatchOk(hunks, opss, a, b) && k < |hunks|
    ensures SplicedTo(a, b, hunks, opss, selected, k + 1)
    decreases k, 1
  {
    AppliedSpliced(a, b, hunks, opss, selected, k);
    var raw, ops := hunks[k].raw, opss[k];
    HunkAt(hunks, opss, a, b, k);
    HunkReads(hunks, opss, a, b, k);
    var p, q, n := LeftAt(raw), RightAt(raw), |ops|;
    var x, y := AllSegments(hunks, opss, k), SegmentsTo(k, ops, p, q, n);
    HunkSplices(k, ops, a, p, b, q, selected, n);
    LastLeftIs(k, ops, p, q, n);
    SegmentsInside(k, ops, p, q);
    ThenPlain(Applied(a, hunks, opss, selected, k), a, b, x, selected, 0, LeftEnd(hunks, k), p);
    ThenStretch(Applied(a, hunks, opss, selected, k) + Slice(a, LeftEnd(hunks, k), p), Picked(ops, TakenOf(selected, k), n), a, b, x, y, selected, 0, p, LeftEnd(hunks, k + 1));
    LastLeftJoined(x, y, p);
  }

  lemma {:induction false} LastLeftJoined(x: seq<Segment>, y: seq<Segment>, at: nat)
    ensures LastLeft(x + y, 0) == if y == [] then LastLeft(x, 0) else LastLeft(y, at)
  {
    if y == [] { assert x + y == x; }
  }

  lemma {:induction false} AppliedSpliced(a: seq<string>, b: seq<string>, hunks: seq<SyncHunk>, opss: seq<seq<Op>>, selected: Selection, k: nat)
    requires PatchOk(hunks, opss, a, b) && k <= |hunks|
    ensures SplicedTo(a, b, hunks, opss, selected, k)
    decreases k, 0
  {
    if k > 0 {
      SplicedNext(a, b, hunks, opss, selected, k - 1);
    } else {
      SplicedNone(a, b, hunks, opss, selected);
    }
  }

  lemma {:induction false} SplicedNone(a: seq<string>, b: seq<string>, hunks: seq<SyncHunk>, opss: seq<seq<Op>>, selected: Selection)
    requires |hunks| == |opss|
    ensures SplicedTo(a, b, hunks, opss, selected, 0)
  {
    assert Slice(a, 0, 0) == [];
  }

  /** The pass over hunks and lines does what its purpose says: it splices in the taken runs and touches nothing else. */
  lemma {:induction false} ApplyIsSplice(a: seq<string>, b: seq<string>, hunks: seq<SyncHunk>, opss: seq<seq<Op>>, selected: Selection)
    requires PatchOk(hunks, opss, a, b)
    ensures var segs := AllSegments(hunks, opss, |hunks|);
      AllApplied(a, hunks, opss, selected) == SpliceFrom(a, b, segs, selected, 0) + Slice(a, LastLeft(segs, 0), |a|)
  {
    AppliedSpliced(a, b, hunks, opss, selected, |hunks|);
    PatchEnds(hunks, opss, a, b);
    var segs, end := AllSegments(hunks, opss, |hunks|), LeftEnd(hunks, |hunks|);
    TwoSlices(a, LastLeft(segs, 0), end, |a|);
    Regroup(SpliceFrom(a, b, segs, selected, 0), Slice(a, LastLeft(segs, 0), end), Slice(a, end, |a|));
  }
}
