/** Hunks of a patch, taken or left segment by segment: packages/plugin/src/sync/hunks.ts. */
module PatchHunks {
  import opened Common
  import opened PatchOps
  import opened Texts
  import Scripts

  datatype RawHunk = RawHunk(oldStart: nat, oldLines: nat, newStart: nat, newLines: nat, lines: seq<string>)

  datatype HunkKind = OnlyAdds | OnlyRemoves | Modifies

  datatype SyncHunk = SyncHunk(index: nat, raw: RawHunk, added: nat, removed: nat, kind: HunkKind)

  /** A maximal run of `-` and `+` lines at offsets [from, upto) of its hunk, and the ranges it stands for in both texts. */
  datatype Segment = Segment(hunk: nat, index: nat, from: nat, upto: nat, left: Range, right: Range, removed: nat, added: nat)

  /** For each hunk by number, the runs to show as the right text has them; a hunk not listed shows the left's. */
  type Selection = map<nat, set<nat>>

  function TakenOf(selected: Selection, hunk: nat): set<nat>
  {
    if hunk in selected then selected[hunk] else {}
  }

  /** Where the hunk starts on the left, and on the right. */
  function LeftAt(h: RawHunk): nat { Max(1, h.oldStart) - 1 }

  function RightAt(h: RawHunk): nat { Max(1, h.newStart) - 1 }

  function SegmentAt(hunk: nat, ops: seq<Op>, a: nat, b: nat, run: Run, index: nat): Segment
    requires run.from < run.upto <= |ops|
  {
    var l0, l1, r0, r1 := |OldOf(ops, run.from)|, |OldOf(ops, run.upto)|, |NewOf(ops, run.from)|, |NewOf(ops, run.upto)|;
    Segment(hunk, index, Offset(ops, run.from), Offset(ops, run.upto - 1) + 1, Range(a + l0, a + l1), Range(b + r0, b + r1),
      if l0 <= l1 then l1 - l0 else 0, if r0 <= r1 then r1 - r0 else 0)
  }

  ghost predicate RunsIn(ops: seq<Op>, runs: seq<Run>)
  {
    forall k :: 0 <= k < |runs| ==> runs[k].from < runs[k].upto <= |ops|
  }

  function SegmentsAt(hunk: nat, ops: seq<Op>, a: nat, b: nat, runs: seq<Run>): (r: seq<Segment>)
    requires RunsIn(ops, runs)
    ensures |r| == |runs|
  {
    seq(|runs|, k requires 0 <= k < |runs| => SegmentAt(hunk, ops, a, b, runs[k], k))
  }

  lemma {:induction false} RunsAreIn(ops: seq<Op>, n: nat)
    requires n <= |ops|
    ensures RunsIn(ops, Runs(ops, n))
  {
    RunsAreRuns(ops, n);
    forall k | 0 <= k < |Runs(ops, n)| ensures Runs(ops, n)[k].from < Runs(ops, n)[k].upto <= |ops| {
      assert RunOk(ops, n, Runs(ops, n)[k]);
    }
  }

  /** The segments among the first `n` ops: their maximal runs of changed lines. */
  ghost function SegmentsTo(hunk: nat, ops: seq<Op>, a: nat, b: nat, n: nat): seq<Segment>
    requires n <= |ops|
  {
    RunsAreIn(ops, n);
    SegmentsAt(hunk, ops, a, b, Runs(ops, n))
  }

  /** A hunk's segments. */
  ghost function SegmentsOf(hunk: nat, raw: RawHunk, ops: seq<Op>): seq<Segment>
  {
    SegmentsTo(hunk, ops, LeftAt(raw), RightAt(raw), |ops|)
  }

  lemma {:induction false} SegmentsPastKept(hunk: nat, ops: seq<Op>, a: nat, b: nat, n: nat)
    requires n < |ops| && ops[n].kind == Kept
    ensures SegmentsTo(hunk, ops, a, b, n + 1) == SegmentsTo(hunk, ops, a, b, n)
  {
  }

  lemma {:induction false} SegmentsBegun(hunk: nat, ops: seq<Op>, a: nat, b: nat, n: nat)
    requires n < |ops| && ops[n].kind != Kept && !Open(ops, n)
    ensures SegmentsTo(hunk, ops, a, b, n + 1)
         == SegmentsTo(hunk, ops, a, b, n) + [SegmentAt(hunk, ops, a, b, Run(n, n + 1), |SegmentsTo(hunk, ops, a, b, n)|)]
  {
  }

  /** The run that is open after `n` ops. */
  ghost function LastRun(ops: seq<Op>, n: nat): (r: Run)
    requires n <= |ops| && Open(ops, n)
    ensures r.from < r.upto == n
  {
    RunsAreIn(ops, n);
    Runs(ops, n)[|Runs(ops, n)| - 1]
  }

  /** The runs but the open one. */
  ghost function ClosedRuns(ops: seq<Op>, n: nat): (r: seq<Run>)
    requires n <= |ops| && Open(ops, n)
    ensures RunsIn(ops, r) && Runs(ops, n) == r + [LastRun(ops, n)]
  {
    RunsAreIn(ops, n);
    Runs(ops, n)[..|Runs(ops, n)| - 1]
  }

  lemma {:induction false} RunGoesOn(ops: seq<Op>, n: nat)
    requires n < |ops| && ops[n].kind != Kept && Open(ops, n)
    ensures Runs(ops, n + 1) == ClosedRuns(ops, n) + [Run(LastRun(ops, n).from, n + 1)]
  {
  }

  lemma {:induction false} SegmentsAppend(hunk: nat, ops: seq<Op>, a: nat, b: nat, runs: seq<Run>, run: Run)
    requires RunsIn(ops, runs) && run.from < run.upto <= |ops| && RunsIn(ops, runs + [run])
    ensures SegmentsAt(hunk, ops, a, b, runs + [run]) == SegmentsAt(hunk, ops, a, b, runs) + [SegmentAt(hunk, ops, a, b, run, |runs|)]
  {
  }

  /** One more changed line in the open run: only its segment, the last, is another. */
  lemma {:induction false} SegmentsExtended(hunk: nat, ops: seq<Op>, a: nat, b: nat, n: nat)
    requires n < |ops| && ops[n].kind != Kept && Open(ops, n)
    ensures var closed, from := SegmentsAt(hunk, ops, a, b, ClosedRuns(ops, n)), LastRun(ops, n).from;
      && SegmentsTo(hunk, ops, a, b, n) == closed + [SegmentAt(hunk, ops, a, b, Run(from, n), |closed|)]
      && SegmentsTo(hunk, ops, a, b, n + 1) == closed + [SegmentAt(hunk, ops, a, b, Run(from, n + 1), |closed|)]
  {
    var closed, run := ClosedRuns(ops, n), LastRun(ops, n);
    RunsAreIn(ops, n);
    RunsAreIn(ops, n + 1);
    RunGoesOn(ops, n);
    SegmentsAppend(hunk, ops, a, b, closed, run);
    SegmentsAppend(hunk, ops, a, b, closed, Run(run.from, n + 1));
  }

  /** The segments a loop has closed, and the one it has open. */
  function WithOpen(closed: seq<Segment>, open: Option<Segment>): seq<Segment>
  {
    if open.Some? then closed + [open.value] else closed
  }

  /** A hunk's line at `offset` is the line of op `n`, or the marker after op n - 1. */
  ghost predicate AtOp(ops: seq<Op>, offset: nat, n: nat)
  {
    && n <= |ops|
    && (offset == Offset(ops, n) || (n > 0 && offset + 1 == Offset(ops, n) && |Written(ops[n - 1])| == 2))
  }

  /** The op that an offset of the hunk's lines comes from. */
  lemma {:induction false} LineIs(ops: seq<Op>, offset: nat, n: nat)
    requires AtOp(ops, offset, n) && offset < |Encoded(ops)|
    ensures Encoded(ops)[offset] != ""
    ensures Encoded(ops)[offset][0] == '\\' ==> AtOp(ops, offset + 1, n)
    ensures Encoded(ops)[offset][0] != '\\' ==> n < |ops| && offset == Offset(ops, n) && AtOp(ops, offset + 1, n + 1)
    ensures Encoded(ops)[offset][0] != '\\' ==> Encoded(ops)[offset] == FirstLine(ops[n]) && Encoded(ops)[offset][0] == PrefixOf(ops[n].kind)
  {
    if offset == Offset(ops, n) { WrittenAt(ops, n); } else { MarkerAt(ops, n - 1); FirstLineAt(ops, n - 1); }
  }

  lemma {:induction false} AllRead(ops: seq<Op>, offset: nat, n: nat)
    requires AtOp(ops, offset, n) && offset == |Encoded(ops)|
    ensures n == |ops|
  {
    if n < |ops| { FirstLineAt(ops, n); }
    if n > 0 { FirstLineAt(ops, n - 1); }
  }

  /** A segment with one more changed line. */
  function Longer(s: Segment, upto: nat, kind: Kind, left: nat, right: nat): Segment
  {
    Segment(s.hunk, s.index, s.from, upto, Range(s.left.from, left), Range(s.right.from, right),
      s.removed + (if kind == PatchOps.Removed then 1 else 0), s.added + (if kind == PatchOps.Added then 1 else 0))
  }

  lemma {:induction false} RunLonger(hunk: nat, ops: seq<Op>, a: nat, b: nat, from: nat, n: nat, index: nat)
    requires from < n < |ops| && ops[n].kind != Kept
    ensures SegmentAt(hunk, ops, a, b, Run(from, n + 1), index)
         == Longer(SegmentAt(hunk, ops, a, b, Run(from, n), index), Offset(ops, n) + 1, ops[n].kind, a + |OldOf(ops, n + 1)|, b + |NewOf(ops, n + 1)|)
  {
    OldOfPrefix(ops, from, n);
  }

  lemma {:induction false} RunNew(hunk: nat, ops: seq<Op>, a: nat, b: nat, n: nat, index: nat)
    requires n < |ops| && ops[n].kind != Kept
    ensures var l, r := a + |OldOf(ops, n)|, b + |NewOf(ops, n)|;
      SegmentAt(hunk, ops, a, b, Run(n, n + 1), index)
      == Longer(Segment(hunk, index, Offset(ops, n), Offset(ops, n), Range(l, l), Range(r, r), 0, 0), Offset(ops, n) + 1, ops[n].kind, a + |OldOf(ops, n + 1)|, b + |NewOf(ops, n + 1)|)
  {
  }

  lemma {:induction false} SameEnds<T>(s: seq<T>, x: T, t: seq<T>, y: T)
    requires s + [x] == t + [y]
    ensures s == t && x == y
  {
    assert (s + [x])[..|s|] == s && (t + [y])[..|t|] == t && (s + [x])[|s|] == x && (t + [y])[|t|] == y;
  }

  /** One changed line read: the segments of one more op. */
  lemma {:induction false} SegmentStep(hunk: nat, ops: seq<Op>, a: nat, b: nat, n: nat, closed: seq<Segment>, open: Option<Segment>, s: Segment)
    requires n < |ops| && ops[n].kind != Kept && WithOpen(closed, open) == SegmentsTo(hunk, ops, a, b, n)
    requires open.Some? <==> Open(ops, n)
    requires var l, r := a + |OldOf(ops, n)|, b + |NewOf(ops, n)|;
      s == if open.Some? then open.value else Segment(hunk, |closed|, Offset(ops, n), Offset(ops, n), Range(l, l), Range(r, r), 0, 0)
    ensures WithOpen(closed, Some(Longer(s, Offset(ops, n) + 1, ops[n].kind, a + |OldOf(ops, n + 1)|, b + |NewOf(ops, n + 1)|)))
         == SegmentsTo(hunk, ops, a, b, n + 1)
  {
    if open.Some? {
      SegmentGrows(hunk, ops, a, b, n, closed, s);
    } else {
      SegmentsBegun(hunk, ops, a, b, n);
      RunNew(hunk, ops, a, b, n, |closed|);
    }
  }

  lemma {:induction false} SegmentGrows(hunk: nat, ops: seq<Op>, a: nat, b: nat, n: nat, closed: seq<Segment>, s: Segment)
    requires n < |ops| && ops[n].kind != Kept && Open(ops, n) && closed + [s] == SegmentsTo(hunk, ops, a, b, n)
    ensures closed + [Longer(s, Offset(ops, n) + 1, ops[n].kind, a + |OldOf(ops, n + 1)|, b + |NewOf(ops, n + 1)|)]
         == SegmentsTo(hunk, ops, a, b, n + 1)
  {
    SegmentsExtended(hunk, ops, a, b, n);
    var runs, from := ClosedRuns(ops, n), LastRun(ops, n).from;
    SameEnds(closed, s, SegmentsAt(hunk, ops, a, b, runs), SegmentAt(hunk, ops, a, b, Run(from, n), |runs|));
    RunLonger(hunk, ops, a, b, from, n, |closed|);
  }

  /** After the first `n` ops: the segments so far, and the line to come on either side. */
  ghost predicate ReadTo(hunk: nat, ops: seq<Op>, a: nat, b: nat, n: nat, closed: seq<Segment>, open: Option<Segment>, left: nat, right: nat)
  {
    && n <= |ops| && left == a + |OldOf(ops, n)| && right == b + |NewOf(ops, n)|
    && (open.Some? <==> Open(ops, n)) && WithOpen(closed, open) == SegmentsTo(hunk, ops, a, b, n)
  }

  lemma {:induction false} ReadKept(hunk: nat, ops: seq<Op>, a: nat, b: nat, n: nat, closed: seq<Segment>, open: Option<Segment>, left: nat, right: nat)
    requires ReadTo(hunk, ops, a, b, n, closed, open, left, right) && n < |ops| && ops[n].kind == Kept
    ensures ReadTo(hunk, ops, a, b, n + 1, WithOpen(closed, open), None, left + 1, right + 1)
  {
    SegmentsPastKept(hunk, ops, a, b, n);
  }

  function Begun(open: Option<Segment>, hunk: nat, index: nat, offset: nat, left: nat, right: nat): Segment
  {
    if open.Some? then open.value else Segment(hunk, index, offset, offset, Range(left, left), Range(right, right), 0, 0)
  }

  lemma {:induction false} ReadChanged(hunk: nat, ops: seq<Op>, a: nat, b: nat, n: nat, closed: seq<Segment>, open: Option<Segment>, left: nat, right: nat, nextLeft: nat, nextRight: nat)
    requires ReadTo(hunk, ops, a, b, n, closed, open, left, right) && n < |ops| && ops[n].kind != Kept
    requires nextLeft == (if ops[n].kind == PatchOps.Removed then left + 1 else left)
    requires nextRight == (if ops[n].kind == PatchOps.Added then right + 1 else right)
    ensures ReadTo(hunk, ops, a, b, n + 1, closed,
      Some(Longer(Begun(open, hunk, |closed|, Offset(ops, n), left, right), Offset(ops, n) + 1, ops[n].kind, nextLeft, nextRight)), nextLeft, nextRight)
  {
    assert nextLeft == a + |OldOf(ops, n + 1)| && nextRight == b + |NewOf(ops, n + 1)|;
    SegmentStep(hunk, ops, a, b, n, closed, open, Begun(open, hunk, |closed|, Offset(ops, n), left, right));
  }

  /** What one changed line does to the open segment, or to a new one. */
  method Extended(open: Option<Segment>, hunk: nat, closed: seq<Segment>, offset: nat, removes: bool, left: nat, right: nat, ghost ops: seq<Op>, ghost a: nat, ghost b: nat, ghost n: nat)
    returns (segment: Segment, nextLeft: nat, nextRight: nat)
    requires ReadTo(hunk, ops, a, b, n, closed, open, left, right) && n < |ops| && offset == Offset(ops, n)
    requires ops[n].kind == if removes then PatchOps.Removed else PatchOps.Added
    ensures ReadTo(hunk, ops, a, b, n + 1, closed, Some(segment), nextLeft, nextRight)
  {
    segment := if open.Some? then open.value else Segment(hunk, |closed|, offset, offset, Range(left, left), Range(right, right), 0, 0);
    nextLeft, nextRight := left, right;
    if removes {
      segment := segment.(removed := segment.removed + 1);
      nextLeft := nextLeft + 1;
    } else {
      segment := segment.(added := segment.added + 1);
      nextRight := nextRight + 1;
    }
    segment := segment.(upto := offset + 1, left := Range(segment.left.from, nextLeft), right := Range(segment.right.from, nextRight));
    ReadChanged(hunk, ops, a, b, n, closed, open, left, right, nextLeft, nextRight);
  }

  /** One pass over the lines; markers are passed over wherever they stand. */
  method HunkSegments(hunk: SyncHunk, ghost ops: seq<Op>) returns (segments: seq<Segment>)
    requires hunk.raw.lines == Encoded(ops)
    ensures segments == SegmentsOf(hunk.index, hunk.raw, ops)
  {
    segments := [];
    var left: nat, right: nat := Max(1, hunk.raw.oldStart) - 1, Max(1, hunk.raw.newStart) - 1;
    ghost var a: nat, b: nat, n: nat := left, right, 0;
    var open: Option<Segment> := None;
    for offset := 0 to |hunk.raw.lines|
      invariant AtOp(ops, offset, n) && ReadTo(hunk.index, ops, a, b, n, segments, open, left, right)
    {
      LineIs(ops, offset, n);
      var prefix := hunk.raw.lines[offset][0];
      if prefix == ' ' {
        ReadKept(hunk.index, ops, a, b, n, segments, open, left, right);
        if open.Some? { segments := segments + [open.value]; }
        open := None;
        left, right := left + 1, right + 1;
        n := n + 1;
      } else if prefix == '-' || prefix == '+' {
        var segment;
        segment, left, right := Extended(open, hunk.index, segments, offset, prefix == '-', left, right, ops, a, b, n);
        open := Some(segment);
        n := n + 1;
      }
    }
    AllRead(ops, |hunk.raw.lines|, n);
    if open.Some? { segments := segments + [open.value]; }
  }

  /** The segment op `n` belongs to, among all of the hunk's. */
  function SegmentNo(ops: seq<Op>, n: nat): int
    requires n < |ops|
  {
    RunCount(ops, n + 1) - 1
  }

  /** Which changed lines stay: those added where the segment is taken, else those removed. */
  function Stays(taken: set<nat>, segment: int): Kind
  {
    if segment >= 0 && segment in taken then PatchOps.Added else PatchOps.Removed
  }

  predicate PicksOp(ops: seq<Op>, taken: set<nat>, n: nat)
    requires n < |ops|
  {
    ops[n].kind == Kept || ops[n].kind == Stays(taken, SegmentNo(ops, n))
  }

  /** The tokens the first `n` ops leave. */
  function Picked(ops: seq<Op>, taken: set<nat>, n: nat): seq<string>
    requires n <= |ops|
  {
    if n == 0 then []
    else Picked(ops, taken, n - 1) + (if PicksOp(ops, taken, n - 1) then [ops[n - 1].token] else [])
  }

  /** Where hunk `k - 1` ends on the left, and on the right. */
  function LeftEnd(hunks: seq<SyncHunk>, k: nat): nat
    requires k <= |hunks|
  {
    if k == 0 then 0 else LeftAt(hunks[k - 1].raw) + hunks[k - 1].raw.oldLines
  }

  function RightEnd(hunks: seq<SyncHunk>, k: nat): nat
    requires k <= |hunks|
  {
    if k == 0 then 0 else RightAt(hunks[k - 1].raw) + hunks[k - 1].raw.newLines
  }

  /** A hunk of a patch from `a` to `b`: its lines say how the one range of tokens becomes the other. */
  ghost predicate HunkOk(h: RawHunk, ops: seq<Op>, a: seq<string>, b: seq<string>)
  {
    && h.lines == Encoded(ops) && LeftAt(h) + h.oldLines <= |a| && RightAt(h) + h.newLines <= |b|
    && OldOf(ops, |ops|) == a[LeftAt(h)..LeftAt(h) + h.oldLines]
    && NewOf(ops, |ops|) == b[RightAt(h)..RightAt(h) + h.newLines]
  }

  /** A patch: hunks in order, equal tokens between them. */
  ghost predicate PatchOk(hunks: seq<SyncHunk>, opss: seq<seq<Op>>, a: seq<string>, b: seq<string>)
  {
    && |opss| == |hunks|
    && (forall k {:trigger HunkOk(hunks[k].raw, opss[k], a, b)} :: 0 <= k < |hunks| ==> hunks[k].index == k && HunkOk(hunks[k].raw, opss[k], a, b) && ApartOk(hunks, a, b, k))
    && Scripts.Same(a, LeftEnd(hunks, |hunks|), |a|, b, RightEnd(hunks, |hunks|), |b|)
  }

  ghost predicate ApartOk(hunks: seq<SyncHunk>, a: seq<string>, b: seq<string>, k: nat)
    requires k < |hunks|
  {
    Scripts.Same(a, LeftEnd(hunks, k), LeftAt(hunks[k].raw), b, RightEnd(hunks, k), RightAt(hunks[k].raw))
  }

  /** The left's tokens with the first `k` hunks' selected segments taken. */
  function Applied(a: seq<string>, hunks: seq<SyncHunk>, opss: seq<seq<Op>>, selected: Selection, k: nat): seq<string>
    requires k <= |hunks| == |opss|
  {
    if k == 0 then []
    else (
      Applied(a, hunks, opss, selected, k - 1) + Slice(a, LeftEnd(hunks, k - 1), LeftAt(hunks[k - 1].raw))
      + Picked(opss[k - 1], TakenOf(selected, hunks[k - 1].index), |opss[k - 1]|)
    )
  }

  /** The number of the run a line is in, and whether it stays. */
  lemma {:induction false} PickStep(ops: seq<Op>, taken: set<nat>, n: nat)
    requires n < |ops|
    ensures RunCount(ops, n + 1) == RunCount(ops, n) + if ops[n].kind != Kept && !Open(ops, n) then 1 else 0
    ensures Open(ops, n + 1) == (ops[n].kind != Kept)
    ensures PicksOp(ops, taken, n) <==> ops[n].kind == Kept || PrefixOf(ops[n].kind) == (if RunCount(ops, n + 1) > 0 && RunCount(ops, n + 1) - 1 in taken then '+' else '-')
  {
  }

  /** A content line's token: without its prefix, with a newline unless a marker follows. */
  lemma {:induction false} TokenAt(ops: seq<Op>, offset: nat, n: nat)
    requires n < |ops| && offset == Offset(ops, n)
    ensures offset < |Encoded(ops)| && Encoded(ops)[offset] != ""
    ensures Encoded(ops)[offset][1..] + (if IsMarker(Encoded(ops), offset + 1) then "" else "\n") == ops[n].token
  {
    WrittenAt(ops, n);
    WrittenReads(ops[n]);
  }

  /** What a content line does to the count of runs and to what is picked. */
  lemma {:induction false} ContentLine(ops: seq<Op>, taken: set<nat>, offset: nat, n: nat)
    requires n < |ops| && offset == Offset(ops, n)
    ensures offset < |Encoded(ops)| && Encoded(ops)[offset] != ""
    ensures var token := Encoded(ops)[offset][1..] + (if IsMarker(Encoded(ops), offset + 1) then "" else "\n");
      Picked(ops, taken, n + 1) == Picked(ops, taken, n) + (if PicksOp(ops, taken, n) then [token] else [])
    ensures RunCount(ops, n + 1) == RunCount(ops, n) + if ops[n].kind != Kept && !Open(ops, n) then 1 else 0
    ensures Open(ops, n + 1) == (ops[n].kind != Kept)
    ensures PicksOp(ops, taken, n) <==> ops[n].kind == Kept || PrefixOf(ops[n].kind) == (if RunCount(ops, n + 1) > 0 && RunCount(ops, n + 1) - 1 in taken then '+' else '-')
  {
    TokenAt(ops, offset, n);
    PickStep(ops, taken, n);
  }

  function AllApplied(a: seq<string>, hunks: seq<SyncHunk>, opss: seq<seq<Op>>, selected: Selection): seq<string>
    requires |hunks| == |opss|
  {
    Applied(a, hunks, opss, selected, |hunks|) + Slice(a, LeftEnd(hunks, |hunks|), |a|)
  }

  /** A context line leaves the segment, a changed one enters the next unless one is open. */
  method Entered(prefix: char, segment: int, inSegment: bool) returns (next: int, inside: bool)
    ensures inside == (prefix != ' ') && next == segment + if prefix != ' ' && !inSegment then 1 else 0
  {
    next, inside := segment, inSegment;
    if prefix == ' ' {
      inside := false;
    } else if !inside {
      inside := true;
      next := next + 1;
    }
  }

  /** Kept lines stay; of each run the removed lines stay or the added ones do. */
  method PickLines(lines: seq<string>, taken: set<nat>, ghost ops: seq<Op>) returns (out: seq<string>)
    requires lines == Encoded(ops)
    ensures out == Picked(ops, taken, |ops|)
  {
    out := [];
    var segment, inSegment := -1, false;
    ghost var n: nat := 0;
    for offset := 0 to |lines|
      invariant AtOp(ops, offset, n) && out == Picked(ops, taken, n)
      invariant segment == RunCount(ops, n) - 1 && inSegment == Open(ops, n)
    {
      var line := lines[offset];
      LineIs(ops, offset, n);
      var prefix := line[0];
      if prefix == ' ' || prefix == '-' || prefix == '+' {
        ContentLine(ops, taken, offset, n);
        segment, inSegment := Entered(prefix, segment, inSegment);
        var keep := if segment >= 0 && segment in taken then '+' else '-';
        if prefix == ' ' || prefix == keep {
          out := out + [line[1..] + if IsMarker(lines, offset + 1) then "" else "\n"];
        }
        n := n + 1;
      }
    }
    AllRead(ops, |lines|, n);
  }

  /** The tokens from `cursor` up to `upto`, as far as there are any. */
  method CopyLines(out: seq<string>, baseLines: seq<string>, cursor: nat, upto: nat) returns (more: seq<string>)
    requires cursor <= upto <= |baseLines|
    ensures more == out + baseLines[cursor..upto]
  {
    more := out;
    var at := cursor;
    while at < upto && at < |baseLines|
      invariant cursor <= at <= upto && more == out + baseLines[cursor..at]
    {
      assert baseLines[cursor..at + 1] == baseLines[cursor..at] + [baseLines[at]];
      more := more + [baseLines[at]];
      at := at + 1;
    }
  }

  lemma {:induction false} HunkAt(hunks: seq<SyncHunk>, opss: seq<seq<Op>>, a: seq<string>, b: seq<string>, k: nat)
    requires PatchOk(hunks, opss, a, b) && k < |hunks|
    ensures hunks[k].index == k && hunks[k].raw.lines == Encoded(opss[k])
    ensures LeftEnd(hunks, k) <= LeftAt(hunks[k].raw) <= LeftEnd(hunks, k + 1) <= |a|
    ensures RightEnd(hunks, k) <= RightAt(hunks[k].raw) <= RightEnd(hunks, k + 1) <= |b|
  {
    assert HunkOk(hunks[k].raw, opss[k], a, b) && ApartOk(hunks, a, b, k);
  }

  lemma {:induction false} HunkTokens(hunks: seq<SyncHunk>, opss: seq<seq<Op>>, a: seq<string>, b: seq<string>, k: nat)
    requires PatchOk(hunks, opss, a, b) && k < |hunks|
    ensures OldOf(opss[k], |opss[k]|) == Slice(a, LeftAt(hunks[k].raw), LeftEnd(hunks, k + 1))
    ensures NewOf(opss[k], |opss[k]|) == Slice(b, RightAt(hunks[k].raw), RightEnd(hunks, k + 1))
    ensures Slice(a, LeftEnd(hunks, k), LeftAt(hunks[k].raw)) == Slice(b, RightEnd(hunks, k), RightAt(hunks[k].raw))
  {
    assert HunkOk(hunks[k].raw, opss[k], a, b) && ApartOk(hunks, a, b, k);
  }

  lemma {:induction false} PatchEnds(hunks: seq<SyncHunk>, opss: seq<seq<Op>>, a: seq<string>, b: seq<string>)
    requires PatchOk(hunks, opss, a, b)
    ensures LeftEnd(hunks, |hunks|) <= |a| && RightEnd(hunks, |hunks|) <= |b|
    ensures Slice(a, LeftEnd(hunks, |hunks|), |a|) == Slice(b, RightEnd(hunks, |hunks|), |b|)
  {
    assert Scripts.Same(a, LeftEnd(hunks, |hunks|), |a|, b, RightEnd(hunks, |hunks|), |b|);
  }

  /** One more hunk: the lines before it, and what it leaves of its own. */
  method AppendHunk(out: seq<string>, baseLines: seq<string>, cursor: nat, hunk: RawHunk, taken: set<nat>, ghost ops: seq<Op>) returns (more: seq<string>, next: nat)
    requires hunk.lines == Encoded(ops) && cursor <= LeftAt(hunk) <= |baseLines|
    ensures more == out + Slice(baseLines, cursor, LeftAt(hunk)) + Picked(ops, taken, |ops|) && next == LeftAt(hunk) + hunk.oldLines
  {
    var startIndex := Max(0, hunk.oldStart - 1);
    var copied := CopyLines(out, baseLines, cursor, startIndex);
    var picked := PickLines(hunk.lines, taken, ops);
    more, next := copied + picked, startIndex + hunk.oldLines;
  }

  /** One pass over the hunks, copying the left text's lines up to each. */
  method ApplyHunks(left: string, hunks: seq<SyncHunk>, selected: Selection, ghost opss: seq<seq<Op>>, ghost b: seq<string>) returns (text: string)
    requires PatchOk(hunks, opss, LineTokens(ToLf(left)), b)
    ensures text == Concat(AllApplied(LineTokens(ToLf(left)), hunks, opss, selected))
  {
    var baseLines := LineTokens(ToLf(left));
    var out: seq<string> := [];
    var cursor: nat := 0;
    PatchEnds(hunks, opss, baseLines, b);
    for k := 0 to |hunks|
      invariant cursor == LeftEnd(hunks, k) && out == Applied(baseLines, hunks, opss, selected, k)
    {
      HunkAt(hunks, opss, baseLines, b, k);
      out, cursor := AppendHunk(out, baseLines, cursor, hunks[k].raw, TakenOf(selected, hunks[k].index), opss[k]);
    }
    out := CopyLines(out, baseLines, cursor, |baseLines|);
    text := Concat(out);
  }

  lemma {:induction false} RunsGrow(ops: seq<Op>, n: nat, m: nat)
    requires n <= m <= |ops|
    ensures RunCount(ops, n) <= RunCount(ops, m)
    decreases m
  {
    if n < m { RunsGrow(ops, n, m - 1); }
  }

  /** None of a hunk's segments is taken, or every one is. */
  ghost predicate NoneOf(ops: seq<Op>, taken: set<nat>)
  {
    forall i :: 0 <= i < RunCount(ops, |ops|) ==> i !in taken
  }

  ghost predicate AllOf(ops: seq<Op>, taken: set<nat>)
  {
    forall i :: 0 <= i < RunCount(ops, |ops|) ==> i in taken
  }

  /** With no segment taken a hunk leaves its left side, with every one its right. */
  lemma {:induction false} PickedEnds(ops: seq<Op>, taken: set<nat>, n: nat)
    requires n <= |ops|
    ensures NoneOf(ops, taken) ==> Picked(ops, taken, n) == OldOf(ops, n)
    ensures AllOf(ops, taken) ==> Picked(ops, taken, n) == NewOf(ops, n)
  {
    if n > 0 {
      PickedEnds(ops, taken, n - 1);
      RunsGrow(ops, n, |ops|);
    }
  }

  ghost predicate NoneTaken(opss: seq<seq<Op>>, selected: Selection)
  {
    forall k {:trigger NoneOf(opss[k], TakenOf(selected, k))} :: 0 <= k < |opss| ==> NoneOf(opss[k], TakenOf(selected, k))
  }

  ghost predicate AllTaken(opss: seq<seq<Op>>, selected: Selection)
  {
    forall k {:trigger AllOf(opss[k], TakenOf(selected, k))} :: 0 <= k < |opss| ==> AllOf(opss[k], TakenOf(selected, k))
  }

  lemma {:induction false} HunkLeft(hunks: seq<SyncHunk>, opss: seq<seq<Op>>, a: seq<string>, b: seq<string>, selected: Selection, k: nat)
    requires PatchOk(hunks, opss, a, b) && k < |hunks| && NoneTaken(opss, selected)
    ensures Picked(opss[k], TakenOf(selected, k), |opss[k]|) == Slice(a, LeftAt(hunks[k].raw), LeftEnd(hunks, k + 1))
  {
    assert NoneOf(opss[k], TakenOf(selected, k));
    PickedEnds(opss[k], TakenOf(selected, k), |opss[k]|);
    HunkTokens(hunks, opss, a, b, k);
  }

  lemma {:induction false} HunkRight(hunks: seq<SyncHunk>, opss: seq<seq<Op>>, a: seq<string>, b: seq<string>, selected: Selection, k: nat)
    requires PatchOk(hunks, opss, a, b) && k < |hunks| && AllTaken(opss, selected)
    ensures Picked(opss[k], TakenOf(selected, k), |opss[k]|) == Slice(b, RightAt(hunks[k].raw), RightEnd(hunks, k + 1))
    ensures Slice(a, LeftEnd(hunks, k), LeftAt(hunks[k].raw)) == Slice(b, RightEnd(hunks, k), RightAt(hunks[k].raw))
  {
    assert AllOf(opss[k], TakenOf(selected, k));
    PickedEnds(opss[k], TakenOf(selected, k), |opss[k]|);
    HunkTokens(hunks, opss, a, b, k);
  }

  lemma {:induction false} SlicesMeet<T>(s: seq<T>, i: nat, j: nat, k: nat)
    requires i <= j <= k <= |s|
    ensures Slice(s, 0, i) + Slice(s, i, j) + Slice(s, j, k) == Slice(s, 0, k)
  {
  }

  lemma {:induction false} AppliedNext(a: seq<string>, hunks: seq<SyncHunk>, opss: seq<seq<Op>>, selected: Selection, k: nat, x: seq<string>, y: seq<string>, z: seq<string>)
    requires k < |hunks| == |opss| && hunks[k].index == k
    requires Applied(a, hunks, opss, selected, k) == x && Slice(a, LeftEnd(hunks, k), LeftAt(hunks[k].raw)) == y
    requires Picked(opss[k], TakenOf(selected, k), |opss[k]|) == z
    ensures Applied(a, hunks, opss, selected, k + 1) == x + y + z
  {
  }

  lemma {:induction false} NothingNext(a: seq<string>, b: seq<string>, hunks: seq<SyncHunk>, opss: seq<seq<Op>>, selected: Selection, k: nat)
    requires PatchOk(hunks, opss, a, b) && NoneTaken(opss, selected) && k < |hunks|
    ensures Applied(a, hunks, opss, selected, k + 1) == Slice(a, 0, LeftEnd(hunks, k + 1))
    decreases k, 1
  {
    NothingApplied(a, b, hunks, opss, selected, k);
    HunkAt(hunks, opss, a, b, k);
    HunkLeft(hunks, opss, a, b, selected, k);
    var p, m, e := LeftEnd(hunks, k), LeftAt(hunks[k].raw), LeftEnd(hunks, k + 1);
    SlicesMeet(a, p, m, e);
    AppliedNext(a, hunks, opss, selected, k, Slice(a, 0, p), Slice(a, p, m), Slice(a, m, e));
  }

  lemma {:induction false} NothingApplied(a: seq<string>, b: seq<string>, hunks: seq<SyncHunk>, opss: seq<seq<Op>>, selected: Selection, k: nat)
    requires PatchOk(hunks, opss, a, b) && NoneTaken(opss, selected) && k <= |hunks|
    ensures Applied(a, hunks, opss, selected, k) == Slice(a, 0, LeftEnd(hunks, k))
    decreases k, 0
  {
    if k > 0 { NothingNext(a, b, hunks, opss, selected, k - 1); }
  }

  lemma {:induction false} EverythingNext(a: seq<string>, b: seq<string>, hunks: seq<SyncHunk>, opss: seq<seq<Op>>, selected: Selection, k: nat)
    requires PatchOk(hunks, opss, a, b) && AllTaken(opss, selected) && k < |hunks|
    ensures Applied(a, hunks, opss, selected, k + 1) == Slice(b, 0, RightEnd(hunks, k + 1))
    decreases k, 1
  {
    EverythingApplied(a, b, hunks, opss, selected, k);
    HunkAt(hunks, opss, a, b, k);
    HunkRight(hunks, opss, a, b, selected, k);
    var p, m, e := RightEnd(hunks, k), RightAt(hunks[k].raw), RightEnd(hunks, k + 1);
    SlicesMeet(b, p, m, e);
    AppliedNext(a, hunks, opss, selected, k, Slice(b, 0, p), Slice(b, p, m), Slice(b, m, e));
  }

  lemma {:induction false} EverythingApplied(a: seq<string>, b: seq<string>, hunks: seq<SyncHunk>, opss: seq<seq<Op>>, selected: Selection, k: nat)
    requires PatchOk(hunks, opss, a, b) && AllTaken(opss, selected) && k <= |hunks|
    ensures Applied(a, hunks, opss, selected, k) == Slice(b, 0, RightEnd(hunks, k))
    decreases k, 0
  {
    if k > 0 { EverythingNext(a, b, hunks, opss, selected, k - 1); }
  }

  lemma {:induction false} WholeSlice<T>(s: seq<T>, i: nat)
    requires i <= |s|
    ensures Slice(s, 0, i) + Slice(s, i, |s|) == s
  {
  }

  /** Nothing selected gives the left text. */
  lemma {:induction false} NothingSelected(left: string, right: string, hunks: seq<SyncHunk>, opss: seq<seq<Op>>, selected: Selection)
    requires PatchOk(hunks, opss, LineTokens(ToLf(left)), LineTokens(ToLf(right))) && NoneTaken(opss, selected)
    ensures Concat(AllApplied(LineTokens(ToLf(left)), hunks, opss, selected)) == ToLf(left)
  {
    var a, b := LineTokens(ToLf(left)), LineTokens(ToLf(right));
    ConcatTokens(ToLf(left));
    NothingApplied(a, b, hunks, opss, selected, |hunks|);
    PatchEnds(hunks, opss, a, b);
    WholeSlice(a, LeftEnd(hunks, |hunks|));
  }

  /** Everything selected gives the right text, its final newline or the lack of it included. */
  lemma {:induction false} EverythingSelected(left: string, right: string, hunks: seq<SyncHunk>, opss: seq<seq<Op>>, selected: Selection)
    requires PatchOk(hunks, opss, LineTokens(ToLf(left)), LineTokens(ToLf(right))) && AllTaken(opss, selected)
    ensures Concat(AllApplied(LineTokens(ToLf(left)), hunks, opss, selected)) == ToLf(right)
  {
    var a, b := LineTokens(ToLf(left)), LineTokens(ToLf(right));
    ConcatTokens(ToLf(right));
    EverythingApplied(a, b, hunks, opss, selected, |hunks|);
    PatchEnds(hunks, opss, a, b);
    WholeSlice(b, RightEnd(hunks, |hunks|));
  }
}
