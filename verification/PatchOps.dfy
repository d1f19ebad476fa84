/** What a patch hunk says, line by line, and where its runs of changed lines are. */
module PatchOps {
  datatype Kind = Kept | Removed | Added

  /** One line of a hunk, its token with its terminator. */
  datatype Op = Op(kind: Kind, token: string)

  const NO_NEWLINE_MARKER := "\\ No newline at end of file"

  function PrefixOf(kind: Kind): char
  {
    match kind
    case Kept => ' '
    case Removed => '-'
    case Added => '+'
  }

  predicate EndsLine(token: string) { token != "" && token[|token| - 1] == '\n' }

  /** A line as a hunk writes it: without its newline, or with a marker after it where it has none. */
  function Written(op: Op): (r: seq<string>)
    ensures 1 <= |r| <= 2
  {
    if EndsLine(op.token) then [FirstLine(op)] else [FirstLine(op), NO_NEWLINE_MARKER]
  }

  function FirstLine(op: Op): string
  {
    [PrefixOf(op.kind)] + if EndsLine(op.token) then op.token[..|op.token| - 1] else op.token
  }

  /** A line without its prefix, and with a newline unless a marker follows, is its token again. */
  lemma {:induction false} WrittenReads(op: Op)
    ensures FirstLine(op)[0] == PrefixOf(op.kind)
    ensures FirstLine(op)[1..] + (if |Written(op)| == 2 then "" else "\n") == op.token
  {
  }

  /** The lines of the first `n` ops. */
  function EncodedTo(ops: seq<Op>, n: nat): seq<string>
    requires n <= |ops|
  {
    if n == 0 then [] else EncodedTo(ops, n - 1) + Written(ops[n - 1])
  }

  function Encoded(ops: seq<Op>): seq<string> { EncodedTo(ops, |ops|) }

  /** Where the line of op `n` starts. */
  function Offset(ops: seq<Op>, n: nat): nat
    requires n <= |ops|
  {
    |EncodedTo(ops, n)|
  }

  lemma {:induction false} EncodedPrefix(ops: seq<Op>, n: nat, m: nat)
    requires n <= m <= |ops|
    ensures EncodedTo(ops, n) <= EncodedTo(ops, m)
    decreases m
  {
    if n < m {
      EncodedPrefix(ops, n, m - 1);
      PrefixGrows(EncodedTo(ops, n), EncodedTo(ops, m - 1), Written(ops[m - 1]));
    }
  }

  lemma {:induction false} PrefixGrows<T>(a: seq<T>, b: seq<T>, c: seq<T>)
    requires a <= b
    ensures a <= b + c
  {
  }

  lemma {:induction false} FirstLineAt(ops: seq<Op>, n: nat)
    requires n < |ops|
    ensures Offset(ops, n + 1) == Offset(ops, n) + |Written(ops[n])| <= |Encoded(ops)|
    ensures forall i :: 0 <= i < |Written(ops[n])| ==> Encoded(ops)[Offset(ops, n) + i] == Written(ops[n])[i]
  {
    EncodedPrefix(ops, n + 1, |ops|);
    PrefixHolds(Encoded(ops), EncodedTo(ops, n), Written(ops[n]));
  }

  lemma {:induction false} PrefixHolds<T>(all: seq<T>, head: seq<T>, w: seq<T>)
    requires head + w <= all
    ensures |head| + |w| <= |all| && forall i :: 0 <= i < |w| ==> all[|head| + i] == w[i]
  {
    forall i | 0 <= i < |w| ensures |head| + i < |all| && all[|head| + i] == w[i] {
      assert all[..|head + w|][|head| + i] == (head + w)[|head| + i];
    }
  }

  predicate IsMarker(lines: seq<string>, at: nat) { at < |lines| && lines[at] != "" && lines[at][0] == '\\' }

  lemma {:induction false} MarkerAt(ops: seq<Op>, n: nat)
    requires n < |ops| && |Written(ops[n])| == 2
    ensures IsMarker(Encoded(ops), Offset(ops, n) + 1)
  {
    FirstLineAt(ops, n);
    assert Written(ops[n])[1] == NO_NEWLINE_MARKER;
  }

  lemma {:induction false} LineAt(ops: seq<Op>, n: nat)
    requires n < |ops|
    ensures Offset(ops, n) < |Encoded(ops)| && Encoded(ops)[Offset(ops, n)] == FirstLine(ops[n])
  {
    FirstLineAt(ops, n);
    assert Written(ops[n])[0] == FirstLine(ops[n]);
  }

  lemma {:induction false} NoMarkerAt(ops: seq<Op>, n: nat)
    requires n < |ops| && |Written(ops[n])| == 1
    ensures !IsMarker(Encoded(ops), Offset(ops, n) + 1)
  {
    FirstLineAt(ops, n);
    if n + 1 < |ops| { LineAt(ops, n + 1); }
  }

  /** The line of op `n`; the line after it is a marker exactly when its token has no newline. */
  lemma {:induction false} WrittenAt(ops: seq<Op>, n: nat)
    requires n < |ops|
    ensures Offset(ops, n) < |Encoded(ops)| && Encoded(ops)[Offset(ops, n)] == FirstLine(ops[n])
    ensures IsMarker(Encoded(ops), Offset(ops, n) + 1) <==> |Written(ops[n])| == 2
    ensures Offset(ops, n + 1) == Offset(ops, n) + |Written(ops[n])| <= |Encoded(ops)|
  {
    LineAt(ops, n);
    FirstLineAt(ops, n);
    if |Written(ops[n])| == 2 { MarkerAt(ops, n); } else { NoMarkerAt(ops, n); }
  }

  /** The tokens the first `n` ops have on the left, and on the right. */
  function OldOf(ops: seq<Op>, n: nat): seq<string>
    requires n <= |ops|
  {
    if n == 0 then [] else OldOf(ops, n - 1) + if ops[n - 1].kind == Added then [] else [ops[n - 1].token]
  }

  function NewOf(ops: seq<Op>, n: nat): seq<string>
    requires n <= |ops|
  {
    if n == 0 then [] else NewOf(ops, n - 1) + if ops[n - 1].kind == Removed then [] else [ops[n - 1].token]
  }

  lemma {:induction false} OldOfPrefix(ops: seq<Op>, n: nat, m: nat)
    requires n <= m <= |ops|
    ensures OldOf(ops, n) <= OldOf(ops, m) && NewOf(ops, n) <= NewOf(ops, m)
    decreases m
  {
    if n < m { OldOfPrefix(ops, n, m - 1); }
  }

  /** A run of changed lines, by op. */
  datatype Run = Run(from: nat, upto: nat)

  predicate Open(ops: seq<Op>, n: nat)
    requires n <= |ops|
  {
    n > 0 && ops[n - 1].kind != Kept
  }

  /** The runs among the first `n` ops, the last one still open when op n - 1 is a change. */
  function Runs(ops: seq<Op>, n: nat): (r: seq<Run>)
    requires n <= |ops|
    ensures Open(ops, n) ==> r != [] && r[|r| - 1].upto == n
  {
    if n == 0 then []
    else
      var before := Runs(ops, n - 1);
      if ops[n - 1].kind == Kept then before
      else if Open(ops, n - 1) then before[|before| - 1 := Run(before[|before| - 1].from, n)]
      else before + [Run(n - 1, n)]
  }

  /** How many runs the first `n` ops begin. */
  function RunCount(ops: seq<Op>, n: nat): (r: nat)
    requires n <= |ops|
    ensures Open(ops, n) ==> r > 0
  {
    if n == 0 then 0 else RunCount(ops, n - 1) + if ops[n - 1].kind != Kept && !Open(ops, n - 1) then 1 else 0
  }

  lemma {:induction false} RunsCounted(ops: seq<Op>, n: nat)
    requires n <= |ops|
    ensures |Runs(ops, n)| == RunCount(ops, n)
  {
    if n > 0 { RunsCounted(ops, n - 1); }
  }

  /** The runs are maximal, in order, apart, and take every changed line. */
  ghost predicate RunsOk(ops: seq<Op>, n: nat, runs: seq<Run>)
    requires n <= |ops|
  {
    && (forall k :: 0 <= k < |runs| ==> RunOk(ops, n, runs[k]))
    && (forall i, k :: 0 <= i < k < |runs| ==> runs[i].upto < runs[k].from)
    && (forall i :: 0 <= i < n && ops[i].kind != Kept ==> InRun(runs, i))
  }

  ghost predicate RunOk(ops: seq<Op>, n: nat, run: Run)
    requires n <= |ops|
  {
    && run.from < run.upto <= n && (forall i :: run.from <= i < run.upto ==> ops[i].kind != Kept)
    && (run.from > 0 ==> ops[run.from - 1].kind == Kept) && (run.upto < n ==> ops[run.upto].kind == Kept)
  }

  ghost predicate InRun(runs: seq<Run>, i: nat)
  {
    exists k :: 0 <= k < |runs| && runs[k].from <= i < runs[k].upto
  }

  lemma {:induction false} RunsAreRuns(ops: seq<Op>, n: nat)
    requires n <= |ops|
    ensures RunsOk(ops, n, Runs(ops, n))
    decreases n, 0
  {
    if n > 0 { RunsNext(ops, n - 1); }
  }

  lemma {:induction false} RunsNext(ops: seq<Op>, n: nat)
    requires n < |ops|
    ensures RunsOk(ops, n + 1, Runs(ops, n + 1))
    decreases n, 1
  {
    RunsAreRuns(ops, n);
    MoreRunsOk(ops, n + 1, Runs(ops, n), Runs(ops, n + 1));
  }

  lemma {:induction false} MoreRunsOk(ops: seq<Op>, n: nat, before: seq<Run>, runs: seq<Run>)
    requires 0 < n <= |ops| && RunsOk(ops, n - 1, before)
    requires Open(ops, n - 1) ==> before != [] && before[|before| - 1].upto == n - 1
    requires runs == if ops[n - 1].kind == Kept then before
                     else if Open(ops, n - 1) then before[|before| - 1 := Run(before[|before| - 1].from, n)]
                     else before + [Run(n - 1, n)]
    ensures RunsOk(ops, n, runs)
  {
    if ops[n - 1].kind == Kept { RunsPastKept(ops, n, before); }
    else if Open(ops, n - 1) { RunsExtended(ops, n, before); }
    else { RunsBegun(ops, n, before); }
  }

  lemma {:induction false} RunsPastKept(ops: seq<Op>, n: nat, runs: seq<Run>)
    requires 0 < n <= |ops| && ops[n - 1].kind == Kept && RunsOk(ops, n - 1, runs)
    ensures RunsOk(ops, n, runs)
  {
    forall k | 0 <= k < |runs| ensures RunOk(ops, n, runs[k]) {
      assert RunOk(ops, n - 1, runs[k]);
    }
  }

  /** Only the last run can reach the end of the ops seen. */
  lemma {:induction false} EndsBefore(ops: seq<Op>, n: nat, runs: seq<Run>, k: nat)
    requires n <= |ops| && RunsOk(ops, n, runs) && (k + 1 < |runs| || (k < |runs| && !Open(ops, n)))
    ensures runs[k].upto < n
  {
    assert RunOk(ops, n, runs[k]);
    assert k + 1 < |runs| ==> RunOk(ops, n, runs[k + 1]);
  }

  lemma {:induction false} RunsExtended(ops: seq<Op>, n: nat, runs: seq<Run>)
    requires 0 < n <= |ops| && ops[n - 1].kind != Kept && Open(ops, n - 1) && RunsOk(ops, n - 1, runs)
    requires runs != [] && runs[|runs| - 1].upto == n - 1
    ensures RunsOk(ops, n, runs[|runs| - 1 := Run(runs[|runs| - 1].from, n)])
  {
    var next := runs[|runs| - 1 := Run(runs[|runs| - 1].from, n)];
    forall k | 0 <= k < |next| ensures RunOk(ops, n, next[k]) {
      assert RunOk(ops, n - 1, runs[k]);
      if k < |runs| - 1 { EndsBefore(ops, n - 1, runs, k); }
    }
    StillIn(ops, n, runs, next);
  }

  lemma {:induction false} RunsBegun(ops: seq<Op>, n: nat, runs: seq<Run>)
    requires 0 < n <= |ops| && ops[n - 1].kind != Kept && !Open(ops, n - 1) && RunsOk(ops, n - 1, runs)
    ensures RunsOk(ops, n, runs + [Run(n - 1, n)])
  {
    var next := runs + [Run(n - 1, n)];
    forall k | 0 <= k < |runs| ensures RunOk(ops, n, next[k]) && next[k].upto < n - 1 {
      assert RunOk(ops, n - 1, runs[k]);
      EndsBefore(ops, n - 1, runs, k);
    }
    StillIn(ops, n, runs, next);
  }

  /** Every change was in a run, and the new one is in the last. */
  lemma {:induction false} StillIn(ops: seq<Op>, n: nat, runs: seq<Run>, next: seq<Run>)
    requires 0 < n <= |ops| && |runs| <= |next| && next != [] && next[|next| - 1].from <= n - 1 < next[|next| - 1].upto
    requires forall i :: 0 <= i < n - 1 && ops[i].kind != Kept ==> InRun(runs, i)
    requires forall k :: 0 <= k < |runs| ==> next[k].from == runs[k].from && next[k].upto >= runs[k].upto
    ensures forall i :: 0 <= i < n && ops[i].kind != Kept ==> InRun(next, i)
  {
    forall i | 0 <= i < n && ops[i].kind != Kept ensures InRun(next, i) {
      if i < n - 1 {
        assert InRun(runs, i);
        var k :| 0 <= k < |runs| && runs[k].from <= i < runs[k].upto;
        assert next[k].from <= i < next[k].upto;
      }
    }
  }
}
