/**
 * Edit scripts as the differ reports them, and the hunks read off them: `hunksFromChanges` of
 * packages/plugin/src/sync/anchored-hunks.ts. The differ itself (jsdiff) is any function whose scripts are valid.
 */
module Scripts {
  import opened Common

  /** A run of items kept, added, or removed. */
  datatype Change = Kept(count: nat) | Added(count: nat) | Removed(count: nat)

  /** Where in the old list, and in the new, the first `k` changes end. */
  function OldAt(changes: seq<Change>, k: nat): nat
    requires k <= |changes|
  {
    if k == 0 then 0 else OldAt(changes, k - 1) + if changes[k - 1].Added? then 0 else changes[k - 1].count
  }

  function NewAt(changes: seq<Change>, k: nat): nat
    requires k <= |changes|
  {
    if k == 0 then 0 else NewAt(changes, k - 1) + if changes[k - 1].Removed? then 0 else changes[k - 1].count
  }

  /** `changes` turns `a` into `b`: what it keeps is the same in both. */
  ghost predicate Script<T>(changes: seq<Change>, a: seq<T>, b: seq<T>)
  {
    && OldAt(changes, |changes|) == |a| && NewAt(changes, |changes|) == |b|
    && (forall k :: 0 <= k < |changes| ==> changes[k].count > 0)
    && (forall k {:trigger KeptSame(changes, a, b, k)} :: 0 <= k < |changes| && changes[k].Kept? ==> KeptSame(changes, a, b, k))
  }

  ghost predicate KeptSame<T>(changes: seq<Change>, a: seq<T>, b: seq<T>, k: nat)
    requires k < |changes|
  {
    Same(a, OldAt(changes, k), OldAt(changes, k + 1), b, NewAt(changes, k), NewAt(changes, k + 1))
  }

  lemma {:induction false} PlacesRise(changes: seq<Change>, k: nat)
    requires k <= |changes|
    ensures OldAt(changes, k) <= OldAt(changes, |changes|) && NewAt(changes, k) <= NewAt(changes, |changes|)
    decreases |changes| - k
  {
    if k < |changes| { PlacesRise(changes, k + 1); }
  }

  type LineDiffer = (seq<string>, seq<string>) -> Option<seq<Change>>

  /** A valid script, or out of its edit budget. */
  ghost predicate IsDiffer(differ: LineDiffer)
  {
    forall a, b :: differ(a, b).Some? ==> Script(differ(a, b).value, a, b)
  }

  /** base[baseFrom..baseTo] stands where lines[lineFrom..lineTo] does in the other list. */
  datatype Hunk = Hunk(baseFrom: nat, baseTo: nat, lineFrom: nat, lineTo: nat)

  /** base[b..p] and lines[l..q] hold the same lines. */
  ghost predicate Same<T>(base: seq<T>, b: nat, p: nat, lines: seq<T>, l: nat, q: nat)
  {
    b <= p <= |base| && l <= q <= |lines| && base[b..p] == lines[l..q]
  }

  /**
   * `hs` are, in order, all the mismatches between base[b..p] and lines[l..q]: between them the lines agree, and
   * at least one agreeing line keeps two of them apart.
   */
  ghost predicate Mismatches<T>(base: seq<T>, lines: seq<T>, hs: seq<Hunk>, b: nat, l: nat, p: nat, q: nat)
    decreases |hs|
  {
    if hs == [] then Same(base, b, p, lines, l, q)
    else
      var h := hs[0];
      && h.baseFrom <= h.baseTo <= p && h.lineFrom <= h.lineTo <= q
      && (h.baseFrom < h.baseTo || h.lineFrom < h.lineTo)
      && Same(base, b, h.baseFrom, lines, l, h.lineFrom)
      && (|hs| > 1 ==> h.baseTo < hs[1].baseFrom)
      && Mismatches(base, lines, hs[1..], h.baseTo, h.lineTo, p, q)
  }

  /** base[b..] with every hunk's base lines replaced by its lines. */
  function Replaced<T>(base: seq<T>, lines: seq<T>, hs: seq<Hunk>, b: nat): seq<T>
    decreases |hs|
  {
    if hs == [] then (if b <= |base| then base[b..] else [])
    else
      var h := hs[0];
      (if b <= h.baseFrom <= |base| then base[b..h.baseFrom] else [])
      + (if h.lineFrom <= h.lineTo <= |lines| then lines[h.lineFrom..h.lineTo] else [])
      + Replaced(base, lines, hs[1..], h.baseTo)
  }

  /** Replacing the mismatches turns the base into the lines. */
  lemma {:induction false} MismatchesRebuild<T>(base: seq<T>, lines: seq<T>, hs: seq<Hunk>, b: nat, l: nat)
    requires Mismatches(base, lines, hs, b, l, |base|, |lines|)
    ensures b <= |base| && l <= |lines| && Replaced(base, lines, hs, b) == lines[l..]
    decreases |hs|
  {
    MismatchesOrder(base, lines, hs, b, l, |base|, |lines|);
    if hs != [] {
      var h := hs[0];
      MismatchesRebuild(base, lines, hs[1..], h.baseTo, h.lineTo);
      assert lines[l..] == lines[l..h.lineFrom] + lines[h.lineFrom..h.lineTo] + lines[h.lineTo..];
    }
  }

  lemma {:induction false} MismatchesOrder<T>(base: seq<T>, lines: seq<T>, hs: seq<Hunk>, b: nat, l: nat, p: nat, q: nat)
    requires Mismatches(base, lines, hs, b, l, p, q)
    ensures b <= p <= |base| && l <= q <= |lines|
    ensures hs != [] ==> hs[|hs| - 1].baseTo <= p && hs[|hs| - 1].lineTo <= q
    decreases |hs|
  {
    if hs != [] {
      MismatchesOrder(base, lines, hs[1..], hs[0].baseTo, hs[0].lineTo, p, q);
    }
  }

  lemma {:induction false} MismatchesEnd<T>(base: seq<T>, lines: seq<T>, hs: seq<Hunk>, b: nat, l: nat, p: nat, q: nat, j: nat)
    requires Mismatches(base, lines, hs, b, l, p, q) && j < |hs|
    ensures hs[j].baseFrom <= hs[j].baseTo <= p && hs[j].lineFrom <= hs[j].lineTo <= q
    decreases |hs|
  {
    if j > 0 {
      MismatchesEnd(base, lines, hs[1..], hs[0].baseTo, hs[0].lineTo, p, q, j - 1);
    }
  }

  /** The run the script keeps at `k` lies after the hunk or before it, on both sides. */
  ghost predicate Apart(changes: seq<Change>, k: nat, h: Hunk, b: nat, l: nat)
    requires k < |changes|
  {
    || (h.baseTo <= b + OldAt(changes, k) && h.lineTo <= l + NewAt(changes, k))
    || (b + OldAt(changes, k + 1) <= h.baseFrom && l + NewAt(changes, k + 1) <= h.lineFrom)
  }

  /** No line that the first `i` changes keep is in a hunk. */
  ghost predicate KeptOut(changes: seq<Change>, i: nat, hs: seq<Hunk>, b: nat, l: nat)
    requires i <= |changes|
  {
    forall k, j {:trigger changes[k], hs[j]} :: 0 <= k < i && changes[k].Kept? && 0 <= j < |hs| ==> Apart(changes, k, hs[j], b, l)
  }

  /** How many base lines the hunks take, and how many lines they put there. */
  function Taken(hs: seq<Hunk>): int
  {
    if hs == [] then 0 else Taken(hs[..|hs| - 1]) + hs[|hs| - 1].baseTo - hs[|hs| - 1].baseFrom
  }

  function Put(hs: seq<Hunk>): int
  {
    if hs == [] then 0 else Put(hs[..|hs| - 1]) + hs[|hs| - 1].lineTo - hs[|hs| - 1].lineFrom
  }

  /** How many items the first `k` changes remove, and how many they add. */
  function RemovedBy(changes: seq<Change>, k: nat): nat
    requires k <= |changes|
  {
    if k == 0 then 0 else RemovedBy(changes, k - 1) + if changes[k - 1].Removed? then changes[k - 1].count else 0
  }

  function AddedBy(changes: seq<Change>, k: nat): nat
    requires k <= |changes|
  {
    if k == 0 then 0 else AddedBy(changes, k - 1) + if changes[k - 1].Added? then changes[k - 1].count else 0
  }

  /** Agreeing lines after the last mismatch. */
  lemma {:induction false} ThenSame<T>(base: seq<T>, lines: seq<T>, hs: seq<Hunk>, b: nat, l: nat, p: nat, q: nat, p2: nat, q2: nat)
    requires Mismatches(base, lines, hs, b, l, p, q) && Same(base, p, p2, lines, q, q2)
    ensures Mismatches(base, lines, hs, b, l, p2, q2)
    decreases |hs|
  {
    MismatchesOrder(base, lines, hs, b, l, p, q);
    if hs == [] {
      assert base[b..p2] == base[b..p] + base[p..p2] && lines[l..q2] == lines[l..q] + lines[q..q2];
    } else {
      ThenSame(base, lines, hs[1..], hs[0].baseTo, hs[0].lineTo, p, q, p2, q2);
    }
  }

  /** A mismatch right after agreeing lines, or at the start. */
  lemma {:induction false} ThenHunk<T>(base: seq<T>, lines: seq<T>, hs: seq<Hunk>, b: nat, l: nat, p: nat, q: nat, p2: nat, q2: nat)
    requires Mismatches(base, lines, hs, b, l, p, q)
    requires p <= p2 <= |base| && q <= q2 <= |lines| && (p < p2 || q < q2)
    requires hs == [] || hs[|hs| - 1].baseTo < p
    ensures Mismatches(base, lines, hs + [Hunk(p, p2, q, q2)], b, l, p2, q2)
    decreases |hs|
  {
    var g := Hunk(p, p2, q, q2);
    var all := hs + [g];
    MismatchesOrder(base, lines, hs, b, l, p, q);
    if hs == [] {
      assert all[1..] == [];
    } else {
      ThenHunk(base, lines, hs[1..], hs[0].baseTo, hs[0].lineTo, p, q, p2, q2);
      assert all[1..] == hs[1..] + [g];
    }
  }

  /** A mismatch that goes straight on from the last one widens it. */
  lemma {:induction false} ThenWider<T>(base: seq<T>, lines: seq<T>, hs: seq<Hunk>, b: nat, l: nat, p: nat, q: nat, p2: nat, q2: nat)
    requires Mismatches(base, lines, hs, b, l, p, q) && hs != []
    requires hs[|hs| - 1].baseTo == p && hs[|hs| - 1].lineTo == q
    requires p <= p2 <= |base| && q <= q2 <= |lines|
    ensures Mismatches(base, lines, hs[|hs| - 1 := hs[|hs| - 1].(baseTo := p2, lineTo := q2)], b, l, p2, q2)
    decreases |hs|
  {
    var all := hs[|hs| - 1 := hs[|hs| - 1].(baseTo := p2, lineTo := q2)];
    if |hs| == 1 {
      assert all[1..] == [] && hs[1..] == [];
    } else {
      ThenWider(base, lines, hs[1..], hs[0].baseTo, hs[0].lineTo, p, q, p2, q2);
      assert all[1..] == hs[1..][|hs| - 2 := hs[|hs| - 1].(baseTo := p2, lineTo := q2)];
    }
  }

  /** Two stretches one after the other, kept apart by a line unless one has no mismatch. */
  lemma {:induction false} ThenMore<T>(base: seq<T>, lines: seq<T>, hs: seq<Hunk>, gs: seq<Hunk>, b: nat, l: nat, p: nat, q: nat, p2: nat, q2: nat)
    requires Mismatches(base, lines, hs, b, l, p, q) && Mismatches(base, lines, gs, p, q, p2, q2)
    requires hs == [] || gs == [] || hs[|hs| - 1].baseTo < gs[0].baseFrom
    ensures Mismatches(base, lines, hs + gs, b, l, p2, q2)
    decreases |hs|
  {
    MismatchesOrder(base, lines, hs, b, l, p, q);
    MismatchesOrder(base, lines, gs, p, q, p2, q2);
    if gs == [] {
      assert hs + gs == hs;
      ThenSame(base, lines, hs, b, l, p, q, p2, q2);
    } else if hs == [] {
      assert hs + gs == gs;
      var h := gs[0];
      assert base[b..h.baseFrom] == base[b..p] + base[p..h.baseFrom];
      assert lines[l..h.lineFrom] == lines[l..q] + lines[q..h.lineFrom];
    } else {
      ThenMore(base, lines, hs[1..], gs, hs[0].baseTo, hs[0].lineTo, p, q, p2, q2);
      assert (hs + gs)[1..] == hs[1..] + gs;
    }
  }

  lemma {:induction false} SliceOfSlice<T>(s: seq<T>, i: nat, j: nat, k: nat, m: nat)
    requires i <= j <= |s| && k <= m <= j - i
    ensures s[i..j][k..m] == s[i + k..i + m]
  {
    var x, y := s[i..j][k..m], s[i + k..i + m];
    assert forall n :: 0 <= n < m - k ==> x[n] == y[n];
  }

  lemma {:induction false} OneMoreChange(changes: seq<Change>, i: nat)
    requires i < |changes|
    ensures OldAt(changes, i + 1) == OldAt(changes, i) + (if changes[i].Added? then 0 else changes[i].count)
    ensures NewAt(changes, i + 1) == NewAt(changes, i) + (if changes[i].Removed? then 0 else changes[i].count)
    ensures RemovedBy(changes, i + 1) == RemovedBy(changes, i) + (if changes[i].Removed? then changes[i].count else 0)
    ensures AddedBy(changes, i + 1) == AddedBy(changes, i) + (if changes[i].Added? then changes[i].count else 0)
  {
  }

  /** The hunks of the first `i` changes, and how far they read both texts. */
  ghost predicate ReadChanges<T>(changes: seq<Change>, i: nat, base: seq<T>, lines: seq<T>, hunks: seq<Hunk>, b: nat, l: nat, baseAt: nat, lineAt: nat)
  {
    && i <= |changes| && baseAt == b + OldAt(changes, i) && lineAt == l + NewAt(changes, i)
    && ReadUpTo(base, lines, hunks, b, l, baseAt, lineAt)
    && Taken(hunks) == RemovedBy(changes, i) && Put(hunks) == AddedBy(changes, i)
  }

  /** One more change read. */
  method ReadChange<T>(changes: seq<Change>, i: nat, before: seq<Hunk>, baseAt: nat, lineAt: nat, ghost base: seq<T>, ghost lines: seq<T>, ghost b: nat, ghost l: nat, ghost p: nat, ghost q: nat)
    returns (hunks: seq<Hunk>, baseTo: nat, lineTo: nat)
    requires b <= p <= |base| && l <= q <= |lines| && Script(changes, base[b..p], lines[l..q])
    requires i < |changes| && ReadChanges(changes, i, base, lines, before, b, l, baseAt, lineAt)
    ensures ReadChanges(changes, i + 1, base, lines, hunks, b, l, baseTo, lineTo)
    ensures if changes[i].Kept? then hunks == before else Widened(before, hunks, baseAt, baseTo, lineAt, lineTo)
  {
    var change := changes[i];
    PlacesRise(changes, i + 1);
    OneMoreChange(changes, i);
    baseTo := if change.Added? then baseAt else baseAt + change.count;
    lineTo := if change.Removed? then lineAt else lineAt + change.count;
    if change.Added? || change.Removed? {
      hunks := Changed(before, baseAt, baseTo, lineAt, lineTo, base, lines, b, l);
    } else {
      hunks := before;
      KeptStep(changes, base, lines, hunks, b, l, p, q, i, baseAt, lineAt);
    }
  }

  /**
   * The hunks of a script for base[baseFrom..p] and lines[lineFrom..q]. Two changes with no
   * kept line between them share a hunk.
   */
  method HunksFromChanges<T>(changes: seq<Change>, baseFrom: nat, lineFrom: nat, ghost base: seq<T>, ghost lines: seq<T>, ghost p: nat, ghost q: nat)
    returns (hunks: seq<Hunk>)
    requires baseFrom <= p <= |base| && lineFrom <= q <= |lines|
    requires Script(changes, base[baseFrom..p], lines[lineFrom..q])
    ensures Mismatches(base, lines, hunks, baseFrom, lineFrom, p, q)
    ensures Taken(hunks) == RemovedBy(changes, |changes|) && Put(hunks) == AddedBy(changes, |changes|)
    ensures KeptOut(changes, |changes|, hunks, baseFrom, lineFrom)
  {
    hunks := [];
    var baseAt: nat, lineAt: nat := baseFrom, lineFrom;
    for i := 0 to |changes|
      invariant ReadChanges(changes, i, base, lines, hunks, baseFrom, lineFrom, baseAt, lineAt)
      invariant KeptOut(changes, i, hunks, baseFrom, lineFrom)
    {
      var more, baseTo, lineTo := ReadChange(changes, i, hunks, baseAt, lineAt, base, lines, baseFrom, lineFrom, p, q);
      if changes[i].Kept? {
        KeptApart(changes, i, base, lines, hunks, baseFrom, lineFrom, baseAt, lineAt);
      } else {
        ChangedOut(changes, i, hunks, more, baseFrom, lineFrom, baseAt, baseTo, lineAt, lineTo);
      }
      hunks, baseAt, lineAt := more, baseTo, lineTo;
    }
  }

  /** All the mismatches so far; the last ends here on both sides, or a kept line lies after it. */
  ghost predicate ReadUpTo<T>(base: seq<T>, lines: seq<T>, hunks: seq<Hunk>, b: nat, l: nat, i: nat, j: nat)
  {
    && Mismatches(base, lines, hunks, b, l, i, j)
    && (hunks == [] || hunks[|hunks| - 1].baseTo < i || (hunks[|hunks| - 1].baseTo == i && hunks[|hunks| - 1].lineTo == j))
  }

  lemma {:induction false} KeptSlices<T>(changes: seq<Change>, a: seq<T>, b: seq<T>, k: nat)
    requires Script(changes, a, b) && k < |changes| && changes[k].Kept?
    ensures Same(a, OldAt(changes, k), OldAt(changes, k) + changes[k].count, b, NewAt(changes, k), NewAt(changes, k) + changes[k].count)
  {
    assert KeptSame(changes, a, b, k);
  }

  lemma {:induction false} KeptStep<T>(changes: seq<Change>, base: seq<T>, lines: seq<T>, hs: seq<Hunk>, b: nat, l: nat, p: nat, q: nat, k: nat, i: nat, j: nat)
    requires b <= p <= |base| && l <= q <= |lines| && Script(changes, base[b..p], lines[l..q])
    requires k < |changes| && changes[k].Kept? && i == b + OldAt(changes, k) && j == l + NewAt(changes, k)
    requires Mismatches(base, lines, hs, b, l, i, j)
    ensures ReadUpTo(base, lines, hs, b, l, i + changes[k].count, j + changes[k].count)
  {
    var n := changes[k].count;
    assert n > 0 && Same(base[b..p], i - b, i - b + n, lines[l..q], j - l, j - l + n) by {
      KeptSlices(changes, base[b..p], lines[l..q], k);
    }
    KeptRun(base, lines, hs, b, l, p, q, i, j, n);
  }

  lemma {:induction false} KeptRun<T>(base: seq<T>, lines: seq<T>, hs: seq<Hunk>, b: nat, l: nat, p: nat, q: nat, i: nat, j: nat, n: nat)
    requires b <= i && i + n <= p <= |base| && l <= j && j + n <= q <= |lines|
    requires base[b..p][i - b..i + n - b] == lines[l..q][j - l..j + n - l]
    requires Mismatches(base, lines, hs, b, l, i, j)
    ensures Mismatches(base, lines, hs, b, l, i + n, j + n)
    ensures hs != [] ==> hs[|hs| - 1].baseTo <= i
  {
    SliceOfSlice(base, b, p, i - b, i + n - b);
    SliceOfSlice(lines, l, q, j - l, j + n - l);
    ThenSame(base, lines, hs, b, l, i, j, i + n, j + n);
    MismatchesOrder(base, lines, hs, b, l, i, j);
  }

  /** One hunk more, or the last one wider. */
  ghost predicate Widened(before: seq<Hunk>, hunks: seq<Hunk>, baseAt: nat, baseTo: nat, lineAt: nat, lineTo: nat)
  {
    || hunks == before + [Hunk(baseAt, baseTo, lineAt, lineTo)]
    || (before != [] && before[|before| - 1].baseTo == baseAt && before[|before| - 1].lineTo == lineAt
        && hunks == before[|before| - 1 := before[|before| - 1].(baseTo := baseTo, lineTo := lineTo)])
  }

  lemma {:induction false} PlacesBetween(changes: seq<Change>, k: nat, i: nat)
    requires k <= i <= |changes|
    ensures OldAt(changes, k) <= OldAt(changes, i) && NewAt(changes, k) <= NewAt(changes, i)
    decreases i
  {
    if k < i { PlacesBetween(changes, k, i - 1); }
  }

  /** A run kept before the change lies before what the change adds to the hunks. */
  lemma {:induction false} ChangedOut(changes: seq<Change>, i: nat, before: seq<Hunk>, hunks: seq<Hunk>, b: nat, l: nat, baseAt: nat, baseTo: nat, lineAt: nat, lineTo: nat)
    requires i < |changes| && !changes[i].Kept? && KeptOut(changes, i, before, b, l)
    requires forall k :: 0 <= k < |changes| ==> changes[k].count > 0
    requires baseAt == b + OldAt(changes, i) && lineAt == l + NewAt(changes, i) && Widened(before, hunks, baseAt, baseTo, lineAt, lineTo)
    ensures KeptOut(changes, i + 1, hunks, b, l)
  {
    forall k, j | 0 <= k < i + 1 && changes[k].Kept? && 0 <= j < |hunks| ensures Apart(changes, k, hunks[j], b, l) {
      PlacesBetween(changes, k + 1, i);
      OneMoreChange(changes, k);
      if j < |before| { assert Apart(changes, k, before[j], b, l); }
    }
  }

  lemma {:induction false} KeptApart<T>(changes: seq<Change>, i: nat, base: seq<T>, lines: seq<T>, hunks: seq<Hunk>, b: nat, l: nat, baseAt: nat, lineAt: nat)
    requires i < |changes| && KeptOut(changes, i, hunks, b, l) && Mismatches(base, lines, hunks, b, l, baseAt, lineAt)
    requires baseAt == b + OldAt(changes, i) && lineAt == l + NewAt(changes, i)
    ensures KeptOut(changes, i + 1, hunks, b, l)
  {
    forall k, j | 0 <= k < i + 1 && changes[k].Kept? && 0 <= j < |hunks| ensures Apart(changes, k, hunks[j], b, l) {
      if k == i { MismatchesEnd(base, lines, hunks, b, l, baseAt, lineAt, j); } else { assert Apart(changes, k, hunks[j], b, l); }
    }
  }

  /** A change widens the last hunk when it goes straight on from it, else it is a hunk of its own. */
  method Changed<T>(before: seq<Hunk>, baseAt: nat, baseTo: nat, lineAt: nat, lineTo: nat, ghost base: seq<T>, ghost lines: seq<T>, ghost b: nat, ghost l: nat)
    returns (hunks: seq<Hunk>)
    requires ReadUpTo(base, lines, before, b, l, baseAt, lineAt)
    requires baseAt <= baseTo <= |base| && lineAt <= lineTo <= |lines| && (baseAt < baseTo || lineAt < lineTo)
    ensures ReadUpTo(base, lines, hunks, b, l, baseTo, lineTo)
    ensures Taken(hunks) == Taken(before) + baseTo - baseAt && Put(hunks) == Put(before) + lineTo - lineAt
    ensures Widened(before, hunks, baseAt, baseTo, lineAt, lineTo)
  {
    var n := |before|;
    if n > 0 && before[n - 1].baseTo == baseAt && before[n - 1].lineTo == lineAt {
      ThenWider(base, lines, before, b, l, baseAt, lineAt, baseTo, lineTo);
      hunks := before[n - 1 := before[n - 1].(baseTo := baseTo, lineTo := lineTo)];
      assert hunks[..n - 1] == before[..n - 1];
    } else {
      ThenHunk(base, lines, before, b, l, baseAt, lineAt, baseTo, lineTo);
      hunks := before + [Hunk(baseAt, baseTo, lineAt, lineTo)];
      assert hunks[..n] == before;
    }
  }
}
