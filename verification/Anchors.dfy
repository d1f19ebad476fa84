/**
 * Anchored patience diff: packages/plugin/src/sync/anchored-hunks.ts, and `commonEnds` of
 * packages/plugin/src/sync/hunks.ts. Here a diff need not be shortest, only right.
 */
module Anchors {
  import opened Scripts

  /** A line of the base and a line of the other text, by position. */
  datatype Pair = Pair(base: nat, line: nat)

  /** A chain of pairs, read from its last. */
  datatype Link = Nil | Link(pair: Pair, previous: Link)

  /** Both positions advance all along. */
  ghost predicate Rising(c: seq<Pair>)
  {
    forall i, j :: 0 <= i < j < |c| ==> c[i].base < c[j].base && c[i].line < c[j].line
  }

  /** A rising chain of some of the pairs. */
  ghost predicate IsChain(pairs: seq<Pair>, c: seq<Pair>)
  {
    Rising(c) && forall x :: x in c ==> x in pairs
  }

  ghost predicate AscendingBase(pairs: seq<Pair>)
  {
    forall i, j :: 0 <= i < j < |pairs| ==> pairs[i].base < pairs[j].base
  }

  function ListOf(link: Link): seq<Pair>
  {
    match link
    case Nil => []
    case Link(pair, previous) => ListOf(previous) + [pair]
  }

  /** Tail `j` ends a chain of j + 1 of the pairs, and the tails' lines rise. */
  ghost predicate TailsOk(pairs: seq<Pair>, tails: seq<Link>)
  {
    && (forall j :: 0 <= j < |tails| ==> tails[j].Link? && IsChain(pairs, ListOf(tails[j])) && |ListOf(tails[j])| == j + 1)
    && (forall i, j :: 0 <= i < j < |tails| ==> tails[i].pair.line < tails[j].pair.line)
  }

  /** No chain of the pairs is longer than there are tails, or ends on a lower line than the tail of its length. */
  ghost predicate TailsBest(pairs: seq<Pair>, tails: seq<Link>)
    requires forall j :: 0 <= j < |tails| ==> tails[j].Link?
  {
    forall c :: IsChain(pairs, c) && c != [] ==> BestFor(tails, c)
  }

  ghost predicate BestFor(tails: seq<Link>, c: seq<Pair>)
    requires c != [] && forall j :: 0 <= j < |tails| ==> tails[j].Link?
  {
    |c| <= |tails| && tails[|c| - 1].pair.line <= c[|c| - 1].line
  }

  /** A chain with a new last pair, or one without it. */
  lemma {:induction false} ChainSplits(pairs: seq<Pair>, x: Pair, c: seq<Pair>)
    requires AscendingBase(pairs + [x]) && IsChain(pairs + [x], c) && c != []
    ensures IsChain(pairs, c[..|c| - 1]) && (c[|c| - 1] == x || IsChain(pairs, c))
  {
    var n := |c| - 1;
    forall k | 0 <= k < |c| && (k < n || c[n] != x) ensures c[k] in pairs {
      assert c[k] in c && c[n] in c;
      if k < n { BelowLast(pairs, x, c[n]); }
    }
  }

  lemma {:induction false} BelowLast(pairs: seq<Pair>, x: Pair, y: Pair)
    requires AscendingBase(pairs + [x]) && y in pairs + [x]
    ensures y.base <= x.base
  {
    var all := pairs + [x];
    var i :| 0 <= i < |all| && all[i] == y;
    assert i < |pairs| ==> all[i].base < all[|pairs|].base;
    assert all[|pairs|] == x;
  }

  /** `low` splits the tails: those before it end on lower lines, the others do not. */
  ghost predicate IsPlace(tails: seq<Link>, line: nat, low: nat)
    requires forall j :: 0 <= j < |tails| ==> tails[j].Link?
  {
    && low <= |tails|
    && (forall j :: 0 <= j < low ==> tails[j].pair.line < line)
    && (forall j :: low <= j < |tails| ==> tails[j].pair.line >= line)
  }

  function Placed(tails: seq<Link>, low: nat, link: Link): seq<Link>
    requires low <= |tails|
  {
    if low < |tails| then tails[low := link] else tails + [link]
  }

  lemma {:induction false} ExtendedChain(pairs: seq<Pair>, x: Pair, previous: Link)
    requires AscendingBase(pairs + [x])
    requires IsChain(pairs, ListOf(previous)) && (previous.Nil? || previous.pair.line < x.line)
    ensures IsChain(pairs + [x], ListOf(Link(x, previous)))
  {
    var c := ListOf(previous);
    var d := ListOf(Link(x, previous));
    forall i | 0 <= i < |c| ensures c[i].base < x.base && c[i].line < x.line {
      assert c[i] in pairs && c[|c| - 1] == previous.pair;
      var k :| 0 <= k < |pairs| && pairs[k] == c[i];
      assert (pairs + [x])[k] == c[i] && (pairs + [x])[|pairs|] == x;
    }
    assert d == c + [x];
  }

  lemma {:induction false} PlacedOk(pairs: seq<Pair>, x: Pair, tails: seq<Link>, low: nat)
    requires AscendingBase(pairs + [x]) && TailsOk(pairs, tails) && IsPlace(tails, x.line, low)
    ensures TailsOk(pairs + [x], Placed(tails, low, Link(x, if low > 0 then tails[low - 1] else Nil)))
  {
    var previous := if low > 0 then tails[low - 1] else Nil;
    ExtendedChain(pairs, x, previous);
    var r := Placed(tails, low, Link(x, previous));
    forall j | 0 <= j < |r| ensures r[j].Link? && IsChain(pairs + [x], ListOf(r[j])) && |ListOf(r[j])| == j + 1 {
      if j != low {
        assert r[j] == tails[j] && IsChain(pairs, ListOf(tails[j]));
        assert forall p :: p in pairs ==> p in pairs + [x];
      }
    }
    assert r[low].pair == x;
    forall i, j | 0 <= i < j < |r| ensures r[i].pair.line < r[j].pair.line {
      if i == low { assert tails[low].pair.line < tails[j].pair.line; }
    }
  }

  lemma {:induction false} PlacedBest(pairs: seq<Pair>, x: Pair, tails: seq<Link>, low: nat)
    requires AscendingBase(pairs + [x]) && TailsOk(pairs, tails) && TailsBest(pairs, tails) && IsPlace(tails, x.line, low)
    ensures TailsBest(pairs + [x], Placed(tails, low, Link(x, if low > 0 then tails[low - 1] else Nil)))
  {
    var r := Placed(tails, low, Link(x, if low > 0 then tails[low - 1] else Nil));
    forall c | IsChain(pairs + [x], c) && c != [] ensures BestFor(r, c) {
      ChainSplits(pairs, x, c);
      var d := c[..|c| - 1];
      if IsChain(pairs, c) {
        assert BestFor(tails, c);
      } else if d != [] {
        assert BestFor(tails, d);
        assert d[|d| - 1].line < x.line;
      }
    }
  }

  /** Binary search for the place of a line among the tails. */
  method PlaceOf(tails: seq<Link>, line: nat) returns (low: nat)
    requires forall j :: 0 <= j < |tails| ==> tails[j].Link?
    requires forall i, j :: 0 <= i < j < |tails| ==> tails[i].pair.line < tails[j].pair.line
    ensures IsPlace(tails, line, low)
  {
    low := 0;
    var high := |tails|;
    while low < high
      invariant low <= high <= |tails|
      invariant forall j :: 0 <= j < low ==> tails[j].pair.line < line
      invariant forall j :: high <= j < |tails| ==> tails[j].pair.line >= line
    {
      var mid := (low + high) / 2;
      if tails[mid].pair.line < line { low := mid + 1; } else { high := mid; }
    }
  }

  function Reversed(s: seq<Pair>): seq<Pair>
  {
    if s == [] then [] else Reversed(s[1..]) + [s[0]]
  }

  lemma {:induction false} ReversedGrows(s: seq<Pair>, x: Pair)
    ensures Reversed(s + [x]) == [x] + Reversed(s)
  {
    if s != [] {
      ReversedGrows(s[1..], x);
      assert (s + [x])[1..] == s[1..] + [x];
    } else {
      assert (s + [x])[1..] == [];
    }
  }

  /** The links' pairs, from the first. */
  method Followed(last: Link) returns (chain: seq<Pair>)
    ensures chain == ListOf(last)
  {
    var link := last;
    chain := [];
    while link.Link?
      invariant ListOf(link) + Reversed(chain) == ListOf(last)
      decreases link
    {
      ReversedGrows(chain, link.pair);
      chain := chain + [link.pair];
      link := link.previous;
    }
    assert ListOf(link) == [];
    chain := Reversed(chain);
  }

  /** Patience sort: of all chains rising in both coordinates, one that no other outgrows. */
  method LongestIncreasing(pairs: seq<Pair>) returns (chain: seq<Pair>)
    requires AscendingBase(pairs)
    ensures IsChain(pairs, chain)
    ensures forall other :: IsChain(pairs, other) ==> |other| <= |chain|
  {
    var tails: seq<Link> := [];
    assert forall c :: IsChain(pairs[..0], c) && c != [] ==> c[0] in pairs[..0];
    for i := 0 to |pairs|
      invariant TailsOk(pairs[..i], tails) && TailsBest(pairs[..i], tails)
    {
      var low := PlaceOf(tails, pairs[i].line);
      assert pairs[..i + 1] == pairs[..i] + [pairs[i]];
      PlacedOk(pairs[..i], pairs[i], tails, low);
      PlacedBest(pairs[..i], pairs[i], tails, low);
      tails := Placed(tails, low, Link(pairs[i], if low > 0 then tails[low - 1] else Nil));
    }
    assert pairs[..|pairs|] == pairs;
    chain := Followed(if |tails| > 0 then tails[|tails| - 1] else Nil);
    forall other | IsChain(pairs, other) ensures |other| <= |tails| {
      if other != [] { assert BestFor(tails, other); }
    }
  }

  /** values[i] occurs nowhere else in the range. */
  ghost predicate OnlyAt<T>(values: seq<T>, from: nat, upto: nat, i: nat)
  {
    from <= i < upto <= |values| && forall j :: from <= j < upto && values[j] == values[i] ==> j == i
  }

  ghost predicate Twice<T>(values: seq<T>, from: nat, upto: nat, v: T)
  {
    exists i, j :: from <= i < j < upto <= |values| && values[i] == v && values[j] == v
  }

  /** Where a line was seen once, or -1. */
  ghost predicate SeenOk(values: seq<string>, from: nat, upto: nat, v: string, at: int)
  {
    if at < 0 then Twice(values, from, upto, v) else OnlyAt(values, from, upto, at) && values[at] == v
  }

  lemma {:induction false} SeenStep(values: seq<string>, from: nat, i: nat, v: string, at: int)
    requires from <= i < |values| && SeenOk(values, from, i, v, at)
    ensures SeenOk(values, from, i + 1, v, if v == values[i] then -1 else at)
  {
    if v == values[i] && at >= 0 {
      assert values[at] == v && values[i] == v;
    } else if v == values[i] {
      var j, k :| from <= j < k < i && values[j] == v && values[k] == v;
    }
  }

  /** Maps each line that has one occurrence in values[from..upto] to its place; a line seen twice is dropped. */
  method UniquePositions(values: seq<string>, from: nat, upto: nat) returns (positions: map<string, nat>)
    requires from <= upto <= |values|
    ensures forall v :: v in positions ==> OnlyAt(values, from, upto, positions[v]) && values[positions[v]] == v
    ensures forall i: nat :: OnlyAt(values, from, upto, i) ==> values[i] in positions && positions[values[i]] == i
  {
    var seen: map<string, int> := map[];
    for i := from to upto
      invariant forall j :: from <= j < i ==> values[j] in seen
      invariant forall v :: v in seen ==> SeenOk(values, from, i, v, seen[v])
    {
      var value := values[i];
      forall v | v in seen ensures SeenOk(values, from, i + 1, v, if v == value then -1 else seen[v]) {
        SeenStep(values, from, i, v, seen[v]);
      }
      assert value !in seen ==> OnlyAt(values, from, i + 1, i);
      seen := seen[value := if value in seen then -1 else i];
    }
    positions := map v | v in seen && seen[v] >= 0 :: seen[v];
    forall i: nat | OnlyAt(values, from, upto, i) ensures values[i] in positions && positions[values[i]] == i {
      assert SeenOk(values, from, upto, values[i], seen[values[i]]);
    }
  }

  /** A line that occurs once in the base's range and once in the other's. */
  ghost predicate IsAnchor(base: seq<string>, lines: seq<string>, from: nat, baseEnd: nat, linesEnd: nat, x: Pair)
  {
    OnlyAt(base, from, baseEnd, x.base) && OnlyAt(lines, from, linesEnd, x.line) && base[x.base] == lines[x.line]
  }

  ghost predicate IsAnchors(base: seq<string>, lines: seq<string>, from: nat, baseEnd: nat, linesEnd: nat, c: seq<Pair>)
  {
    Rising(c) && forall x :: x in c ==> IsAnchor(base, lines, from, baseEnd, linesEnd, x)
  }

  /**
   * The longest chain of anchors. The source goes through the base's unique lines in the order they were first
   * seen, which is that of their positions.
   */
  method AnchorChain(base: seq<string>, lines: seq<string>, from: nat, baseEnd: nat, linesEnd: nat) returns (chain: seq<Pair>)
    requires from <= baseEnd <= |base| && from <= linesEnd <= |lines|
    ensures IsAnchors(base, lines, from, baseEnd, linesEnd, chain)
    ensures forall c {:trigger IsAnchors(base, lines, from, baseEnd, linesEnd, c)} :: IsAnchors(base, lines, from, baseEnd, linesEnd, c) ==> |c| <= |chain|
  {
    var linePositions := UniquePositions(lines, from, linesEnd);
    var basePositions := UniquePositions(base, from, baseEnd);
    var pairs: seq<Pair> := [];
    for at := from to baseEnd
      invariant forall x :: x in pairs <==> x.base < at && IsAnchor(base, lines, from, baseEnd, linesEnd, x)
      invariant AscendingBase(pairs)
    {
      var line := base[at];
      ghost var before := pairs;
      if line in basePositions && basePositions[line] == at && line in linePositions {
        pairs := pairs + [Pair(at, linePositions[line])];
      }
      forall x ensures x in pairs <==> x.base < at + 1 && IsAnchor(base, lines, from, baseEnd, linesEnd, x) {
        if x.base == at && IsAnchor(base, lines, from, baseEnd, linesEnd, x) {
          assert lines[x.line] == line;
        }
        assert x in pairs <==> x in before || x in pairs[|before|..];
      }
    }
    chain := LongestIncreasing(pairs);
    forall c | IsAnchors(base, lines, from, baseEnd, linesEnd, c) ensures |c| <= |chain| {
      assert IsChain(pairs, c);
    }
  }

  /** a[..head] opens both lists, and a's last `tail` items close both, neither reaching into the other. */
  ghost predicate SharedEnds<T>(a: seq<T>, b: seq<T>, head: nat, tail: nat)
  {
    head + tail <= |a| && head + tail <= |b| && a[..head] == b[..head] && a[|a| - tail..] == b[|b| - tail..]
  }

  /** The shared prefix is taken first and is as long as can be; the shared suffix may not reach into it. */
  method CommonEnds<T(==)>(a: seq<T>, b: seq<T>) returns (head: nat, tail: nat)
    ensures SharedEnds(a, b, head, tail)
    ensures !SharedEnds(a, b, head + 1, 0) && !SharedEnds(a, b, head, tail + 1)
  {
    head := 0;
    while head < |a| && head < |b| && a[head] == b[head]
      invariant SharedEnds(a, b, head, 0)
    {
      head := head + 1;
    }
    assert head < |a| && head < |b| ==> a[..head + 1][head] != b[..head + 1][head];
    tail := 0;
    while tail < |a| - head && tail < |b| - head && a[|a| - 1 - tail] == b[|b| - 1 - tail]
      invariant SharedEnds(a, b, head, tail)
    {
      tail := tail + 1;
      assert a[|a| - tail..] == [a[|a| - tail]] + a[|a| - (tail - 1)..] && b[|b| - tail..] == [b[|b| - tail]] + b[|b| - (tail - 1)..];
    }
    if head + tail + 1 <= |a| && head + tail + 1 <= |b| {
      assert a[|a| - (tail + 1)..][0] != b[|b| - (tail + 1)..][0];
    }
  }

  /** The mismatches of base[b..p] and lines[l..q], of which at least one range is not empty when they differ. */
  method Gap(differ: LineDiffer, base: seq<string>, lines: seq<string>, b: nat, l: nat, p: nat, q: nat) returns (hunks: seq<Hunk>)
    requires IsDiffer(differ) && b <= p <= |base| && l <= q <= |lines|
    ensures Mismatches(base, lines, hunks, b, l, p, q)
  {
    if b == p && l == q { return []; }
    if p - b == q - l && base[b..p] == lines[l..q] { return []; }
    var changes := differ(base[b..p], lines[l..q]);
    if changes.Some? {
      hunks := HunksFromChanges(changes.value, b, l, base, lines, p, q);
    } else {
      hunks := [Hunk(b, p, l, q)];
      assert hunks[1..] == [];
    }
  }

  /** One anchored line between two stretches keeps their mismatches apart. */
  lemma {:induction false} ThenAnchor(base: seq<string>, lines: seq<string>, hs: seq<Hunk>, gs: seq<Hunk>, from: nat, b: nat, l: nat, p: nat, q: nat)
    requires Mismatches(base, lines, hs, from, from, b, l)
    requires hs == [] || hs[|hs| - 1].baseTo < b
    requires Mismatches(base, lines, gs, b, l, p, q) && p < |base| && q < |lines| && base[p] == lines[q]
    ensures Mismatches(base, lines, hs + gs, from, from, p + 1, q + 1)
    ensures hs + gs == [] || (hs + gs)[|hs + gs| - 1].baseTo < p + 1
  {
    MismatchesOrder(base, lines, gs, b, l, p, q);
    MismatchesStart(base, lines, gs, b, l, p, q);
    ThenMore(base, lines, hs, gs, from, from, b, l, p, q);
    ThenSame(base, lines, hs + gs, from, from, p, q, p + 1, q + 1);
    assert gs == [] ==> hs + gs == hs;
  }

  lemma {:induction false} MismatchesStart<T>(base: seq<T>, lines: seq<T>, hs: seq<Hunk>, b: nat, l: nat, p: nat, q: nat)
    requires Mismatches(base, lines, hs, b, l, p, q)
    ensures hs == [] || b <= hs[0].baseFrom
  {
  }

  /** Pairs of equal lines inside the two ranges. */
  ghost predicate AgreeAt(base: seq<string>, lines: seq<string>, from: nat, baseEnd: nat, linesEnd: nat, c: seq<Pair>)
  {
    && baseEnd <= |base| && linesEnd <= |lines|
    && forall k :: 0 <= k < |c| ==> from <= c[k].base < baseEnd && from <= c[k].line < linesEnd && base[c[k].base] == lines[c[k].line]
  }

  lemma {:induction false} AnchorsAgree(base: seq<string>, lines: seq<string>, from: nat, baseEnd: nat, linesEnd: nat, c: seq<Pair>)
    requires baseEnd <= |base| && linesEnd <= |lines| && IsAnchors(base, lines, from, baseEnd, linesEnd, c)
    ensures AgreeAt(base, lines, from, baseEnd, linesEnd, c)
  {
    assert forall k :: 0 <= k < |c| ==> IsAnchor(base, lines, from, baseEnd, linesEnd, c[k]);
  }

  /** The hunk takes neither line of the pair. */
  ghost predicate Apart(h: Hunk, x: Pair)
  {
    (x.base < h.baseFrom || h.baseTo <= x.base) && (x.line < h.lineFrom || h.lineTo <= x.line)
  }

  ghost predicate Spared(hs: seq<Hunk>, c: seq<Pair>)
  {
    forall i, k :: 0 <= i < |hs| && 0 <= k < |c| ==> Apart(hs[i], c[k])
  }

  lemma {:induction false} MismatchesInside<T>(base: seq<T>, lines: seq<T>, hs: seq<Hunk>, b: nat, l: nat, p: nat, q: nat, i: nat)
    requires Mismatches(base, lines, hs, b, l, p, q) && i < |hs|
    ensures b <= hs[i].baseFrom <= hs[i].baseTo <= p && l <= hs[i].lineFrom <= hs[i].lineTo <= q
    decreases i
  {
    if i > 0 { MismatchesInside(base, lines, hs[1..], hs[0].baseTo, hs[0].lineTo, p, q, i - 1); }
  }

  lemma {:induction false} ThenSpared(base: seq<string>, lines: seq<string>, hs: seq<Hunk>, gs: seq<Hunk>, b: nat, l: nat, p: nat, q: nat, c: seq<Pair>, n: nat)
    requires Mismatches(base, lines, gs, b, l, p, q) && Spared(hs, c) && n <= |c|
    requires forall k :: 0 <= k < n ==> c[k].base < b && c[k].line < l
    requires forall k :: n <= k < |c| ==> p <= c[k].base && q <= c[k].line
    ensures Spared(hs + gs, c)
  {
    forall i, k | 0 <= i < |gs| && 0 <= k < |c| ensures Apart(gs[i], c[k]) {
      MismatchesInside(base, lines, gs, b, l, p, q, i);
    }
  }

  /** The mismatches up to the line after anchor i - 1, none of which holds an anchor. */
  ghost predicate ReadAnchors(base: seq<string>, lines: seq<string>, hunks: seq<Hunk>, head: nat, baseAt: nat, lineAt: nat, chain: seq<Pair>, i: nat)
  {
    && Mismatches(base, lines, hunks, head, head, baseAt, lineAt) && Spared(hunks, chain)
    && (hunks == [] || hunks[|hunks| - 1].baseTo < baseAt)
    && (forall k :: i <= k < |chain| ==> baseAt <= chain[k].base && lineAt <= chain[k].line)
    && (forall k :: 0 <= k < i && k < |chain| ==> chain[k].base < baseAt && chain[k].line < lineAt)
  }

  lemma {:induction false} AnchorRead(base: seq<string>, lines: seq<string>, hunks: seq<Hunk>, between: seq<Hunk>, head: nat, baseAt: nat, lineAt: nat, chain: seq<Pair>, i: nat)
    requires Rising(chain) && i < |chain| && ReadAnchors(base, lines, hunks, head, baseAt, lineAt, chain, i)
    requires chain[i].base < |base| && chain[i].line < |lines| && base[chain[i].base] == lines[chain[i].line]
    requires Mismatches(base, lines, between, baseAt, lineAt, chain[i].base, chain[i].line)
    ensures ReadAnchors(base, lines, hunks + between, head, chain[i].base + 1, chain[i].line + 1, chain, i + 1)
  {
    var anchor := chain[i];
    ThenAnchor(base, lines, hunks, between, head, baseAt, lineAt, anchor.base, anchor.line);
    ThenSpared(base, lines, hunks, between, baseAt, lineAt, anchor.base, anchor.line, chain, i);
  }

  /** The mismatches between the ends both texts share. */
  method Middle(differ: LineDiffer, base: seq<string>, lines: seq<string>, head: nat, baseEnd: nat, linesEnd: nat, chain: seq<Pair>) returns (hunks: seq<Hunk>)
    requires Rising(chain) && AgreeAt(base, lines, head, baseEnd, linesEnd, chain)
    requires IsDiffer(differ) && head <= baseEnd <= |base| && head <= linesEnd <= |lines|
    ensures Mismatches(base, lines, hunks, head, head, baseEnd, linesEnd) && Spared(hunks, chain)
  {
    hunks := [];
    assert Mismatches(base, lines, hunks, head, head, head, head);
    var baseAt: nat, lineAt: nat := head, head;
    for i := 0 to |chain|
      invariant baseAt <= baseEnd && lineAt <= linesEnd && ReadAnchors(base, lines, hunks, head, baseAt, lineAt, chain, i)
    {
      var anchor := chain[i];
      var between := Gap(differ, base, lines, baseAt, lineAt, anchor.base, anchor.line);
      AnchorRead(base, lines, hunks, between, head, baseAt, lineAt, chain, i);
      hunks := hunks + between;
      baseAt, lineAt := anchor.base + 1, anchor.line + 1;
    }
    var between := Gap(differ, base, lines, baseAt, lineAt, baseEnd, linesEnd);
    MismatchesStart(base, lines, between, baseAt, lineAt, baseEnd, linesEnd);
    ThenMore(base, lines, hunks, between, head, head, baseAt, lineAt, baseEnd, linesEnd);
    ThenSpared(base, lines, hunks, between, baseAt, lineAt, baseEnd, linesEnd, chain, |chain|);
    hunks := hunks + between;
  }

  ghost predicate LongestAnchors(base: seq<string>, lines: seq<string>, from: nat, baseEnd: nat, linesEnd: nat, chain: seq<Pair>)
  {
    && IsAnchors(base, lines, from, baseEnd, linesEnd, chain)
    && forall c {:trigger IsAnchors(base, lines, from, baseEnd, linesEnd, c)} :: IsAnchors(base, lines, from, baseEnd, linesEnd, c) ==> |c| <= |chain|
  }

  /** The longest shared ends are left out of `hunks`, and so is every line of a longest chain of anchors between. */
  ghost predicate Anchored(base: seq<string>, lines: seq<string>, hunks: seq<Hunk>, head: nat, tail: nat, chain: seq<Pair>)
  {
    && SharedEnds(base, lines, head, tail) && !SharedEnds(base, lines, head + 1, 0) && !SharedEnds(base, lines, head, tail + 1)
    && Mismatches(base, lines, hunks, head, head, |base| - tail, |lines| - tail)
    && LongestAnchors(base, lines, head, |base| - tail, |lines| - tail, chain) && Spared(hunks, chain)
  }

  lemma {:induction false} AnchorsNeedRoom(base: seq<string>, lines: seq<string>, from: nat, baseEnd: nat, linesEnd: nat, c: seq<Pair>)
    requires IsAnchors(base, lines, from, baseEnd, linesEnd, c) && c != []
    ensures from < baseEnd && from < linesEnd
  {
    assert IsAnchor(base, lines, from, baseEnd, linesEnd, c[0]);
  }

  lemma {:induction false} NoAnchors(base: seq<string>, lines: seq<string>, from: nat, baseEnd: nat, linesEnd: nat)
    requires from == baseEnd || from == linesEnd
    ensures LongestAnchors(base, lines, from, baseEnd, linesEnd, [])
  {
    forall c | IsAnchors(base, lines, from, baseEnd, linesEnd, c) ensures c == [] {
      if c != [] { AnchorsNeedRoom(base, lines, from, baseEnd, linesEnd, c); }
    }
  }

  /** Agreeing lines before the first mismatch and after the last. */
  lemma {:induction false} WithEnds(base: seq<string>, lines: seq<string>, hs: seq<Hunk>, head: nat, tail: nat)
    requires SharedEnds(base, lines, head, tail) && Mismatches(base, lines, hs, head, head, |base| - tail, |lines| - tail)
    ensures Mismatches(base, lines, hs, 0, 0, |base|, |lines|)
  {
    var p, q := |base| - tail, |lines| - tail;
    assert Mismatches(base, lines, [], 0, 0, head, head);
    ThenMore(base, lines, [], hs, 0, 0, head, head, p, q);
    assert [] + hs == hs;
    assert base[p..|base|] == base[p..] && lines[q..|lines|] == lines[q..];
    ThenSame(base, lines, hs, 0, 0, p, q, |base|, |lines|);
  }

  /** The mismatches of the stretches a shared head and a shared tail leave. */
  method Between(differ: LineDiffer, base: seq<string>, lines: seq<string>, head: nat, baseEnd: nat, linesEnd: nat, chain: seq<Pair>)
    returns (hunks: seq<Hunk>)
    requires IsDiffer(differ) && head <= baseEnd <= |base| && head <= linesEnd <= |lines|
    requires Rising(chain) && AgreeAt(base, lines, head, baseEnd, linesEnd, chain)
    ensures Mismatches(base, lines, hunks, head, head, baseEnd, linesEnd) && Spared(hunks, chain)
  {
    if head == baseEnd && head == linesEnd {
      hunks := [];
    } else if head == baseEnd || head == linesEnd {
      hunks := [Hunk(head, baseEnd, head, linesEnd)];
      assert hunks[1..] == [];
    } else {
      hunks := Middle(differ, base, lines, head, baseEnd, linesEnd, chain);
    }
  }

  /** The longest chain of anchors; the source builds it only when both ranges hold a line. */
  method Anchors(base: seq<string>, lines: seq<string>, head: nat, baseEnd: nat, linesEnd: nat) returns (chain: seq<Pair>)
    requires head <= baseEnd <= |base| && head <= linesEnd <= |lines|
    ensures LongestAnchors(base, lines, head, baseEnd, linesEnd, chain)
    ensures Rising(chain) && AgreeAt(base, lines, head, baseEnd, linesEnd, chain)
  {
    if head == baseEnd || head == linesEnd {
      chain := [];
      NoAnchors(base, lines, head, baseEnd, linesEnd);
    } else {
      chain := AnchorChain(base, lines, head, baseEnd, linesEnd);
      AnchorsAgree(base, lines, head, baseEnd, linesEnd, chain);
    }
  }

  /** No hunk holds a line of the chain; between two of them the hunks are whatever `Gap` gives. */
  method AnchoredHunks(differ: LineDiffer, base: seq<string>, lines: seq<string>)
    returns (hunks: seq<Hunk>, ghost head: nat, ghost tail: nat, ghost chain: seq<Pair>)
    requires IsDiffer(differ)
    ensures Mismatches(base, lines, hunks, 0, 0, |base|, |lines|)
    ensures Anchored(base, lines, hunks, head, tail, chain)
  {
    var start, after := CommonEnds(base, lines);
    head, tail := start, after;
    var anchors := Anchors(base, lines, start, |base| - after, |lines| - after);
    chain := anchors;
    hunks := Between(differ, base, lines, start, |base| - after, |lines| - after, anchors);
    WithEnds(base, lines, hunks, start, after);
  }
}
