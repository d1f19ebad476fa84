/**
 * Hunks of two texts, and selections of their segments: `computeHunks`, `replacedBlock`, `wholeHunks`,
 * `complementSelection` and `isFullSelection` of packages/plugin/src/sync/hunks.ts.
 */
module PatchCompute {
  import opened Common
  import Anchors
  import opened PatchOps
  import opened PatchHunks
  import opened Texts

  const CONTEXT_LINES: nat := 3

  /** `structuredPatch` of jsdiff: a patch, or out of its edit budget. */
  type Patcher = (string, string) -> Option<seq<RawHunk>>

  ghost predicate IsPatcher(patcher: Patcher)
  {
    forall left, right :: patcher(left, right).Some? ==>
      exists opss :: RawPatchOk(patcher(left, right).value, opss, LineTokens(left), LineTokens(right))
  }

  function Numbered(raw: seq<RawHunk>): (r: seq<SyncHunk>)
    ensures |r| == |raw|
  {
    seq(|raw|, k requires 0 <= k < |raw| => SyncHunk(k, raw[k], 0, 0, Modifies))
  }

  ghost predicate RawPatchOk(raw: seq<RawHunk>, opss: seq<seq<Op>>, a: seq<string>, b: seq<string>)
  {
    PatchOk(Numbered(raw), opss, a, b)
  }

  function OpsOf(kind: Kind, tokens: seq<string>): (r: seq<Op>)
    ensures |r| == |tokens|
  {
    seq(|tokens|, i requires 0 <= i < |tokens| => Op(kind, tokens[i]))
  }

  /** Tokens as a hunk writes them. */
  function HunkLines(kind: Kind, tokens: seq<string>): seq<string>
  {
    if tokens == [] then [] else HunkLines(kind, tokens[..|tokens| - 1]) + Written(Op(kind, tokens[|tokens| - 1]))
  }

  lemma {:induction false} EncodedConcat(x: seq<Op>, y: seq<Op>, n: nat)
    requires n <= |y|
    ensures EncodedTo(x + y, |x| + n) == Encoded(x) + EncodedTo(y, n)
    ensures OldOf(x + y, |x| + n) == OldOf(x, |x|) + OldOf(y, n) && NewOf(x + y, |x| + n) == NewOf(x, |x|) + NewOf(y, n)
  {
    if n == 0 {
      SamePrefix(x, y, |x|);
    } else {
      EncodedConcat(x, y, n - 1);
      EncodedConcatStep(x, y, n);
    }
  }

  lemma {:induction false} EncodedConcatStep(x: seq<Op>, y: seq<Op>, n: nat)
    requires 0 < n <= |y|
    requires EncodedTo(x + y, |x| + n - 1) == Encoded(x) + EncodedTo(y, n - 1)
    requires OldOf(x + y, |x| + n - 1) == OldOf(x, |x|) + OldOf(y, n - 1) && NewOf(x + y, |x| + n - 1) == NewOf(x, |x|) + NewOf(y, n - 1)
    ensures EncodedTo(x + y, |x| + n) == Encoded(x) + EncodedTo(y, n)
    ensures OldOf(x + y, |x| + n) == OldOf(x, |x|) + OldOf(y, n) && NewOf(x + y, |x| + n) == NewOf(x, |x|) + NewOf(y, n)
  {
    var op := y[n - 1];
    assert (x + y)[|x| + n - 1] == op;
    Regroup(Encoded(x), EncodedTo(y, n - 1), Written(op));
    Regroup(OldOf(x, |x|), OldOf(y, n - 1), if op.kind == Added then [] else [op.token]);
    Regroup(NewOf(x, |x|), NewOf(y, n - 1), if op.kind == Removed then [] else [op.token]);
  }

  lemma {:induction false} SamePrefix(x: seq<Op>, y: seq<Op>, n: nat)
    requires n <= |x|
    ensures EncodedTo(x + y, n) == EncodedTo(x, n) && OldOf(x + y, n) == OldOf(x, n) && NewOf(x + y, n) == NewOf(x, n)
  {
    if n > 0 {
      SamePrefix(x, y, n - 1);
      assert (x + y)[n - 1] == x[n - 1];
    }
  }

  lemma {:induction false} OpsEncoded(kind: Kind, tokens: seq<string>, n: nat)
    requires n <= |tokens|
    ensures EncodedTo(OpsOf(kind, tokens), n) == HunkLines(kind, tokens[..n])
  {
    if n > 0 {
      OpsEncoded(kind, tokens, n - 1);
      assert tokens[..n][..n - 1] == tokens[..n - 1] && tokens[..n][n - 1] == tokens[n - 1];
    }
  }

  lemma {:induction false} OpsSides(kind: Kind, tokens: seq<string>, n: nat)
    requires n <= |tokens|
    ensures OldOf(OpsOf(kind, tokens), n) == if kind == Added then [] else tokens[..n]
    ensures NewOf(OpsOf(kind, tokens), n) == if kind == Removed then [] else tokens[..n]
  {
    if n > 0 {
      OpsSides(kind, tokens, n - 1);
      assert tokens[..n] == tokens[..n - 1] + [tokens[n - 1]];
    }
  }

  /** A run of tokens of one kind, as ops. */
  lemma {:induction false} OpsAre(kind: Kind, tokens: seq<string>)
    ensures Encoded(OpsOf(kind, tokens)) == HunkLines(kind, tokens)
    ensures OldOf(OpsOf(kind, tokens), |tokens|) == if kind == Added then [] else tokens
    ensures NewOf(OpsOf(kind, tokens), |tokens|) == if kind == Removed then [] else tokens
  {
    OpsEncoded(kind, tokens, |tokens|);
    OpsSides(kind, tokens, |tokens|);
    assert tokens[..|tokens|] == tokens;
  }

  /** The ops of a replaced block: context, the left's middle, the right's, context. */
  function BlockOps(before: seq<string>, removed: seq<string>, added: seq<string>, after: seq<string>): seq<Op>
  {
    OpsOf(Kept, before) + OpsOf(Removed, removed) + OpsOf(Added, added) + OpsOf(Kept, after)
  }

  lemma {:induction false} JoinReads(x: seq<Op>, y: seq<Op>)
    ensures Encoded(x + y) == Encoded(x) + Encoded(y)
    ensures OldOf(x + y, |x + y|) == OldOf(x, |x|) + OldOf(y, |y|) && NewOf(x + y, |x + y|) == NewOf(x, |x|) + NewOf(y, |y|)
  {
    EncodedConcat(x, y, |y|);
  }

  lemma {:induction false} AddedUnless<T>(s: seq<T>, t: seq<T>, absent: bool)
    ensures s + (if absent then [] else t) == if absent then s else s + t
  {
  }

  /** Ops, then a run of one kind. */
  lemma {:induction false} ThenRun(x: seq<Op>, kind: Kind, tokens: seq<string>)
    ensures var ops := x + OpsOf(kind, tokens);
      && Encoded(ops) == Encoded(x) + HunkLines(kind, tokens)
      && OldOf(ops, |ops|) == (if kind == Added then OldOf(x, |x|) else OldOf(x, |x|) + tokens)
      && NewOf(ops, |ops|) == (if kind == Removed then NewOf(x, |x|) else NewOf(x, |x|) + tokens)
  {
    JoinReads(x, OpsOf(kind, tokens));
    OpsAre(kind, tokens);
    AddedUnless(OldOf(x, |x|), tokens, kind == Added);
    AddedUnless(NewOf(x, |x|), tokens, kind == Removed);
  }

  lemma {:induction false} BlockReads(before: seq<string>, removed: seq<string>, added: seq<string>, after: seq<string>)
    ensures var ops := BlockOps(before, removed, added, after);
      && Encoded(ops) == HunkLines(Kept, before) + HunkLines(Removed, removed) + HunkLines(Added, added) + HunkLines(Kept, after)
      && OldOf(ops, |ops|) == before + removed + after && NewOf(ops, |ops|) == before + added + after
  {
    var w := OpsOf(Kept, before);
    var x := w + OpsOf(Removed, removed);
    var y := x + OpsOf(Added, added);
    OpsAre(Kept, before);
    ThenRun(w, Removed, removed);
    ThenRun(x, Added, added);
    ThenRun(y, Kept, after);
  }

  /** Both middles between `head` and `tail`, with up to `context` lines around them. */
  lemma {:induction false} MiddleReplaced(a: seq<string>, b: seq<string>, head: nat, tail: nat, start: nat, end: nat)
    requires Anchors.SharedEnds(a, b, head, tail) && start <= head && |a| - tail <= end <= |a|
    ensures a[start..head] + a[head..|a| - tail] + a[|a| - tail..end] == a[start..end]
    ensures a[start..head] + b[head..|b| - tail] + a[|a| - tail..end] == b[start..end + |b| - |a|]
    ensures a[..start] == b[..start] && a[end..] == b[end + |b| - |a|..]
  {
    var n, m := |a| - tail, |b| - tail;
    assert a[..head] == b[..head] && a[n..] == b[m..];
    assert a[start..head] == a[..head][start..] && b[start..head] == b[..head][start..];
    assert a[n..end] == a[n..][..end - n] && b[m..end + |b| - |a|] == b[m..][..end - n];
    assert a[end..] == a[n..][end - n..] && b[end + |b| - |a|..] == b[m..][end - n..];
    assert a[..start] == a[..head][..start] && b[..start] == b[..head][..start];
    assert b[start..head] + b[head..m] + b[m..end + |b| - |a|] == b[start..end + |b| - |a|];
  }

  function BlockHunk(a: seq<string>, b: seq<string>, head: nat, tail: nat, start: nat, end: nat): RawHunk
    requires Anchors.SharedEnds(a, b, head, tail) && start <= head && |a| - tail <= end <= |a|
  {
    RawHunk(start + 1, end - start, start + 1, end - start + |b| - |a|,
      HunkLines(Kept, a[start..head]) + HunkLines(Removed, a[head..|a| - tail])
      + HunkLines(Added, b[head..|b| - tail]) + HunkLines(Kept, a[|a| - tail..end]))
  }

  function BlockOpsIn(a: seq<string>, b: seq<string>, head: nat, tail: nat, start: nat, end: nat): seq<Op>
    requires Anchors.SharedEnds(a, b, head, tail) && start <= head && |a| - tail <= end <= |a|
  {
    BlockOps(a[start..head], a[head..|a| - tail], b[head..|b| - tail], a[|a| - tail..end])
  }

  lemma {:induction false} BlockHunkOk(a: seq<string>, b: seq<string>, head: nat, tail: nat, start: nat, end: nat)
    requires Anchors.SharedEnds(a, b, head, tail) && start <= head && |a| - tail <= end <= |a|
    ensures RawPatchOk([BlockHunk(a, b, head, tail, start, end)], [BlockOpsIn(a, b, head, tail, start, end)], a, b)
  {
    BlockReads(a[start..head], a[head..|a| - tail], b[head..|b| - tail], a[|a| - tail..end]);
    MiddleReplaced(a, b, head, tail, start, end);
    OneHunkOk(BlockHunk(a, b, head, tail, start, end), BlockOpsIn(a, b, head, tail, start, end), a, b, start, end);
  }

  /** One hunk for the whole difference: what the differ is spared, a patch must still say rightly. */
  method ReplacedBlock(left: string, right: string) returns (raw: RawHunk, ghost ops: seq<Op>)
    ensures RawPatchOk([raw], [ops], LineTokens(left), LineTokens(right))
  {
    var a, b := LineTokens(left), LineTokens(right);
    var head, tail := Anchors.CommonEnds(a, b);
    var start := Max(0, head - CONTEXT_LINES);
    var end := |a| - tail + Min(tail, CONTEXT_LINES);
    raw := BlockHunk(a, b, head, tail, start, end);
    ops := BlockOpsIn(a, b, head, tail, start, end);
    BlockHunkOk(a, b, head, tail, start, end);
  }

  lemma {:induction false} OneHunkOk(raw: RawHunk, ops: seq<Op>, a: seq<string>, b: seq<string>, start: nat, end: nat)
    requires start <= end <= |a| && start <= end + |b| - |a|
    requires raw.oldStart == raw.newStart == start + 1 && raw.oldLines == end - start && raw.newLines == end - start + |b| - |a|
    requires raw.lines == Encoded(ops) && OldOf(ops, |ops|) == a[start..end] && NewOf(ops, |ops|) == b[start..end + |b| - |a|]
    requires a[..start] == b[..start] && a[end..] == b[end + |b| - |a|..]
    ensures RawPatchOk([raw], [ops], a, b)
  {
    var hunks := Numbered([raw]);
    assert hunks[0].raw == raw && [ops][0] == ops;
    assert HunkOk(raw, ops, a, b);
    assert a[0..start] == a[..start] && b[0..start] == b[..start];
    assert ApartOk(hunks, a, b, 0);
    assert a[end..|a|] == a[end..] && b[end + |b| - |a|..|b|] == b[end + |b| - |a|..];
  }

  /** How many of the first `n` lines are of a kind. */
  function CountOf(ops: seq<Op>, kind: Kind, n: nat): nat
    requires n <= |ops|
  {
    if n == 0 then 0 else CountOf(ops, kind, n - 1) + if ops[n - 1].kind == kind then 1 else 0
  }

  function Classify(added: nat, removed: nat): HunkKind
  {
    if added > 0 && removed == 0 then OnlyAdds else if added == 0 && removed > 0 then OnlyRemoves else Modifies
  }

  ghost predicate Has(ops: seq<Op>, kind: Kind, n: nat)
    requires n <= |ops|
  {
    exists i :: 0 <= i < n && ops[i].kind == kind
  }

  lemma {:induction false} CountTells(ops: seq<Op>, kind: Kind, n: nat)
    requires n <= |ops|
    ensures CountOf(ops, kind, n) > 0 <==> Has(ops, kind, n)
  {
    if n > 0 { CountTells(ops, kind, n - 1); }
  }

  /** A hunk only adds, or only removes, where all its changed lines do, and there are some. */
  lemma {:induction false} KindTells(ops: seq<Op>)
    ensures var n := |ops|;
      var kind := Classify(CountOf(ops, Added, n), CountOf(ops, Removed, n));
      && (kind == OnlyAdds <==> Has(ops, Added, n) && !Has(ops, Removed, n))
      && (kind == OnlyRemoves <==> Has(ops, Removed, n) && !Has(ops, Added, n))
  {
    CountTells(ops, Added, |ops|);
    CountTells(ops, Removed, |ops|);
  }

  /** Both sides hold the kept lines, and one or the other the changed ones. */
  lemma {:induction false} SidesCounted(ops: seq<Op>, n: nat)
    requires n <= |ops|
    ensures |OldOf(ops, n)| == CountOf(ops, Kept, n) + CountOf(ops, Removed, n)
    ensures |NewOf(ops, n)| == CountOf(ops, Kept, n) + CountOf(ops, Added, n)
  {
    if n > 0 { SidesCounted(ops, n - 1); }
  }

  ghost predicate Tallied(ops: seq<Op>, n: nat, added: nat, removed: nat)
  {
    n <= |ops| && added == CountOf(ops, Added, n) && removed == CountOf(ops, Removed, n)
  }

  /** One line more, by its first character. */
  lemma {:induction false} TallyOne(ops: seq<Op>, offset: nat, n: nat, added: nat, removed: nat)
    requires AtOp(ops, offset, n) && Tallied(ops, n, added, removed) && offset < |Encoded(ops)|
    ensures Encoded(ops)[offset] != ""
    ensures var first := Encoded(ops)[offset][0];
      var m := if first != '\\' then n + 1 else n;
      && AtOp(ops, offset + 1, m)
      && Tallied(ops, m, if first == '+' then added + 1 else added, if first == '-' then removed + 1 else removed)
  {
    LineIs(ops, offset, n);
  }

  /** A hunk with its changed lines counted; a marker counts as neither. */
  method AnnotateHunk(index: nat, raw: RawHunk, ghost ops: seq<Op>) returns (hunk: SyncHunk)
    requires raw.lines == Encoded(ops)
    ensures hunk.index == index && hunk.raw == raw
    ensures hunk.added == CountOf(ops, Added, |ops|) && hunk.removed == CountOf(ops, Removed, |ops|)
    ensures hunk.kind == Classify(hunk.added, hunk.removed)
  {
    var added: nat, removed: nat := 0, 0;
    ghost var n: nat := 0;
    for offset := 0 to |raw.lines|
      invariant AtOp(ops, offset, n) && Tallied(ops, n, added, removed)
    {
      TallyOne(ops, offset, n, added, removed);
      var first := raw.lines[offset][0];
      if first == '+' { added := added + 1; } else if first == '-' { removed := removed + 1; }
      if first != '\\' { n := n + 1; }
    }
    AllRead(ops, |raw.lines|, n);
    hunk := SyncHunk(index, raw, added, removed, Classify(added, removed));
  }

  /** Only the places and lines of hunks make a patch. */
  lemma {:induction false} PatchOkAnnotated(raw: seq<RawHunk>, hunks: seq<SyncHunk>, opss: seq<seq<Op>>, a: seq<string>, b: seq<string>)
    requires RawPatchOk(raw, opss, a, b) && |hunks| == |raw|
    requires forall k :: 0 <= k < |hunks| ==> hunks[k].index == k && hunks[k].raw == raw[k]
    ensures PatchOk(hunks, opss, a, b)
  {
    var numbered := Numbered(raw);
    forall k | 0 <= k <= |hunks| ensures LeftEnd(hunks, k) == LeftEnd(numbered, k) && RightEnd(hunks, k) == RightEnd(numbered, k) {
    }
    forall k | 0 <= k < |hunks| ensures HunkOk(hunks[k].raw, opss[k], a, b) && ApartOk(hunks, a, b, k) {
      assert HunkOk(numbered[k].raw, opss[k], a, b) && ApartOk(numbered, a, b, k);
    }
    assert Scripts.Same(a, LeftEnd(hunks, |hunks|), |a|, b, RightEnd(hunks, |hunks|), |b|);
  }

  /** The hunks of two texts: the patch's, or one replaced block past its edit budget. */
  method ComputeHunks(patcher: Patcher, left: string, right: string) returns (hunks: seq<SyncHunk>, ghost opss: seq<seq<Op>>)
    requires IsPatcher(patcher)
    ensures PatchOk(hunks, opss, LineTokens(ToLf(left)), LineTokens(ToLf(right)))
    ensures forall k :: 0 <= k < |hunks| ==> hunks[k].added == CountOf(opss[k], Added, |opss[k]|) && hunks[k].removed == CountOf(opss[k], Removed, |opss[k]|)
  {
    var patch := patcher(ToLf(left), ToLf(right));
    var raw: seq<RawHunk>;
    if patch.Some? {
      raw := patch.value;
      opss :| RawPatchOk(raw, opss, LineTokens(ToLf(left)), LineTokens(ToLf(right)));
    } else {
      var block;
      ghost var ops;
      block, ops := ReplacedBlock(ToLf(left), ToLf(right));
      raw, opss := [block], [ops];
    }
    hunks := Annotated(raw, opss, LineTokens(ToLf(left)), LineTokens(ToLf(right)));
  }

  method Annotated(raw: seq<RawHunk>, ghost opss: seq<seq<Op>>, ghost a: seq<string>, ghost b: seq<string>) returns (hunks: seq<SyncHunk>)
    requires RawPatchOk(raw, opss, a, b)
    ensures PatchOk(hunks, opss, a, b)
    ensures forall k :: 0 <= k < |hunks| ==> hunks[k].added == CountOf(opss[k], Added, |opss[k]|) && hunks[k].removed == CountOf(opss[k], Removed, |opss[k]|)
  {
    hunks := [];
    for k := 0 to |raw|
      invariant |hunks| == k && forall j :: 0 <= j < k ==> hunks[j].index == j && hunks[j].raw == raw[j]
      invariant forall j :: 0 <= j < k ==> hunks[j].added == CountOf(opss[j], Added, |opss[j]|) && hunks[j].removed == CountOf(opss[j], Removed, |opss[j]|)
    {
      HunkAt(Numbered(raw), opss, a, b, k);
      var hunk := AnnotateHunk(k, raw[k], opss[k]);
      hunks := hunks + [hunk];
    }
    PatchOkAnnotated(raw, hunks, opss, a, b);
  }

  function Upto(n: nat): (r: set<nat>)
    ensures forall i: nat :: i in r <==> i < n
  {
    if n == 0 then {} else Upto(n - 1) + {n - 1}
  }

  /** The numbers of a hunk's segments. */
  method SegmentNumbers(hunk: SyncHunk, ghost ops: seq<Op>) returns (numbers: set<nat>)
    requires hunk.raw.lines == Encoded(ops)
    ensures numbers == Upto(RunCount(ops, |ops|))
  {
    var segments := HunkSegments(hunk, ops);
    RunsCounted(ops, |ops|);
    numbers := set s | s in segments :: s.index;
    forall i: nat | i in Upto(|segments|) ensures i in numbers {
      assert segments[i] in segments && segments[i].index == i;
    }
  }

  ghost predicate Readable(hunks: seq<SyncHunk>, opss: seq<seq<Op>>)
  {
    |opss| == |hunks| && forall k :: 0 <= k < |hunks| ==> hunks[k].index == k && hunks[k].raw.lines == Encoded(opss[k])
  }

  /** The hunks as they are listed, under whatever numbers. */
  ghost predicate Listed(hunks: seq<SyncHunk>, opss: seq<seq<Op>>)
  {
    |opss| == |hunks| && forall k :: 0 <= k < |hunks| ==> hunks[k].raw.lines == Encoded(opss[k])
  }

  /** No hunk after it has its number. */
  predicate LastOf(hunks: seq<SyncHunk>, k: nat, n: nat)
    requires k < n <= |hunks|
  {
    forall j :: k < j < n ==> hunks[j].index != hunks[k].index
  }

  /** One of the first `n` hunks has this number. */
  predicate HasNumber(hunks: seq<SyncHunk>, n: nat, i: nat)
    requires n <= |hunks|
  {
    exists k :: 0 <= k < n && hunks[k].index == i
  }

  /** Under the number of each of the first `n` hunks, all the runs of the last with it, and no other number. */
  ghost predicate Filled(hunks: seq<SyncHunk>, opss: seq<seq<Op>>, n: nat, selection: Selection)
    requires n <= |hunks| == |opss|
  {
    && (forall k {:trigger LastOf(hunks, k, n)} :: 0 <= k < n && LastOf(hunks, k, n) ==>
          TakenOf(selection, hunks[k].index) == Upto(RunCount(opss[k], |opss[k]|)))
    && (forall i :: i in selection <==> HasNumber(hunks, n, i))
  }

  lemma {:induction false} FillsOne(hunks: seq<SyncHunk>, opss: seq<seq<Op>>, n: nat, before: Selection, numbers: set<nat>)
    requires n < |hunks| == |opss| && Filled(hunks, opss, n, before) && numbers == Upto(RunCount(opss[n], |opss[n]|))
    ensures Filled(hunks, opss, n + 1, before[hunks[n].index := numbers])
  {
    var selection := before[hunks[n].index := numbers];
    forall k | 0 <= k < n + 1 && LastOf(hunks, k, n + 1) ensures TakenOf(selection, hunks[k].index) == Upto(RunCount(opss[k], |opss[k]|)) {
      if k < n {
        assert hunks[n].index != hunks[k].index;
        assert LastOf(hunks, k, n);
      }
    }
    forall i ensures i in selection <==> HasNumber(hunks, n + 1, i) {
      assert i in selection <==> i == hunks[n].index || i in before;
      assert HasNumber(hunks, n + 1, i) <==> HasNumber(hunks, n, i) || hunks[n].index == i;
    }
  }

  lemma {:induction false} WholeIsAll(hunks: seq<SyncHunk>, opss: seq<seq<Op>>, selection: Selection)
    requires Readable(hunks, opss) && Filled(hunks, opss, |hunks|, selection)
    ensures AllTaken(opss, selection)
  {
    forall k | 0 <= k < |opss| ensures AllOf(opss[k], TakenOf(selection, k)) {
      assert LastOf(hunks, k, |hunks|) && hunks[k].index == k;
    }
  }

  /** The full selection of any hunks. */
  method WholeHunks(hunks: seq<SyncHunk>, ghost opss: seq<seq<Op>>) returns (selection: Selection)
    requires Listed(hunks, opss)
    ensures Filled(hunks, opss, |hunks|, selection)
    ensures Readable(hunks, opss) ==> AllTaken(opss, selection)
  {
    selection := map[];
    for n := 0 to |hunks|
      invariant Filled(hunks, opss, n, selection)
    {
      var numbers := SegmentNumbers(hunks[n], opss[n]);
      FillsOne(hunks, opss, n, selection, numbers);
      selection := selection[hunks[n].index := numbers];
    }
    if Readable(hunks, opss) { WholeIsAll(hunks, opss, selection); }
  }

  /** The opposite selection: a run is in it exactly if `selection` lacks it, and no hunk is listed in vain. */
  method ComplementSelection(hunks: seq<SyncHunk>, selection: Selection, ghost opss: seq<seq<Op>>) returns (complement: Selection)
    requires Readable(hunks, opss)
    ensures forall k :: 0 <= k < |hunks| ==> TakenOf(complement, k) == Upto(RunCount(opss[k], |opss[k]|)) - TakenOf(selection, k)
    ensures forall k :: k in complement ==> k < |hunks| && complement[k] != {}
  {
    complement := map[];
    for k := 0 to |hunks|
      invariant forall j :: j in complement ==> j < k && complement[j] != {}
      invariant forall j :: 0 <= j < k ==> TakenOf(complement, j) == Upto(RunCount(opss[j], |opss[j]|)) - TakenOf(selection, j)
    {
      var numbers := SegmentNumbers(hunks[k], opss[k]);
      var rest := numbers - TakenOf(selection, k);
      ghost var before := complement;
      if rest != {} { complement := complement[k := rest]; }
      assert forall j :: 0 <= j < k ==> TakenOf(complement, j) == TakenOf(before, j);
    }
  }

  /** Whether every segment is selected. */
  method IsFullSelection(hunks: seq<SyncHunk>, selection: Selection, ghost opss: seq<seq<Op>>) returns (full: bool)
    requires Readable(hunks, opss)
    ensures full <==> AllTaken(opss, selection)
  {
    full := true;
    for k := 0 to |hunks|
      invariant full <==> forall j :: 0 <= j < k ==> AllOf(opss[j], TakenOf(selection, j))
    {
      var numbers := SegmentNumbers(hunks[k], opss[k]);
      assert AllOf(opss[k], TakenOf(selection, k)) <==> numbers <= TakenOf(selection, k);
      full := full && numbers <= TakenOf(selection, hunks[k].index);
    }
  }
}
