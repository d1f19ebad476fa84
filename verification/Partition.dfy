/**
 * The vault and the shared folders in it: packages/plugin/src/spaces/partition.ts, packages/plugin/src/sync/space.ts,
 * and `owns` of packages/plugin/src/vault/scope.ts.
 */
module Partition {
  import opened Paths
  import opened SpaceRecords
  import RecordTrades

  /** The vault has the empty root; every other space has a folder's path. */
  datatype Space = Space(id: string, root: string, readOnly: bool, paused: bool)

  const VAULT_SPACE := Space("vault", "", false, false)

  /** Paths are compared whole segment by whole segment: `ab` is not under `a`. */
  predicate IsUnder(path: string, root: string)
  {
    root == "" || path == root || root + "/" <= path
  }

  predicate HasDotSegment(path: string)
  {
    "." <= path || exists i :: 0 <= i < |path| - 1 && path[i] == '/' && path[i + 1] == '.'
  }

  predicate Overlap(a: string, b: string) { IsUnder(a, b) || IsUnder(b, a) }

  /** Comparing letters compares segments. */
  lemma {:induction false} UnderIsInside(path: string, root: string)
    ensures IsUnder(path, root) <==> Inside(path, root)
  {
    if root != "" { InsideIs(path, root); }
  }

  lemma {:induction false} AllUnder()
    ensures forall path, root :: IsUnder(path, root) <==> Inside(path, root)
  {
    forall path, root ensures IsUnder(path, root) <==> Inside(path, root) { UnderIsInside(path, root); }
  }

  lemma {:induction false} DotSegmentHides(path: string)
    ensures HasDotSegment(path) <==> Hidden(path)
  {
    DotsBelow(path);
    FirstSegment(path);
    var segments := Segments(path);
    if HiddenBelow(segments) { var i :| 0 < i < |segments| && StartsWithDot(segments[i]); }
  }

  /** One of two folders is the other, or inside it. */
  ghost predicate Nested(a: string, b: string) { Inside(a, b) || Inside(b, a) }

  /** The root is the vault's own, is hidden, or overlaps a mounted one. */
  predicate MountError(root: string, spaces: seq<Space>)
  {
    root == "" || HasDotSegment(root) || exists i :: 0 <= i < |spaces| && spaces[i].root != "" && Overlap(root, spaces[i].root)
  }

  function SpaceFor(r: Record, paused: bool): Space
  {
    Space(r.id, r.root, r.access.Participant? && r.access.readOnly, paused)
  }

  /** What is mounted for a record: its folder under its id, read-only just where it is someone else's that may only be read. */
  ghost predicate Mounts(s: Space, r: Record, isPaused: Record -> bool)
  {
    && s.id == r.id && s.root == r.root && s.paused == isPaused(r)
    && match r.access
       case Owner(_) => !s.readOnly
       case Participant(_, _, mayOnlyRead) => s.readOnly == mayOnlyRead
  }

  /** Built record by record: each is tried against the spaces mounted by the ones before it. */
  function PartitionOf(sorted: seq<Record>, isPaused: Record -> bool): seq<Space>
  {
    if sorted == [] then [VAULT_SPACE]
    else
      var before, r := PartitionOf(sorted[..|sorted| - 1], isPaused), sorted[|sorted| - 1];
      if r.closed || MountError(r.root, before) then before else before + [SpaceFor(r, isPaused(r))]
  }

  method Sorted(records: seq<Record>) returns (list: seq<Record>)
    requires RecordTrades.DistinctIds(records)
    ensures SortedById(list) && forall r :: r in list <==> r in records
  {
    list := [];
    for i := 0 to |records|
      invariant SortedById(list) && forall r :: r in list <==> r in records[..i]
    {
      forall x | x in list ensures x.id != records[i].id { assert x in records[..i]; }
      list := Inserted(list, records[i]);
      assert records[..i + 1] == records[..i] + [records[i]];
    }
    assert records[..|records|] == records;
  }

  lemma {:induction false} HasFirst(list: seq<Record>)
    requires list != []
    ensures exists r :: r in list
  {
    assert list[0] in list;
  }

  /** Sorting has one outcome. */
  lemma {:induction false} SortedOnce(a: seq<Record>, b: seq<Record>)
    requires SortedById(a) && SortedById(b) && forall r :: r in a <==> r in b
    ensures a == b
    decreases |a|
  {
    if a == [] {
      if b != [] { HasFirst(b); }
    } else {
      assert a[0] in b && b != [] && b[0] in a;
      var i :| 0 <= i < |b| && b[i] == a[0];
      var j :| 0 <= j < |a| && a[j] == b[0];
      BeforeIsOrder(a[0].id, b[0].id, a[0].id);
      assert a[0] == b[0];
      BeforeIsOrder(a[0].id, a[0].id, a[0].id);
      forall r ensures r in a[1..] <==> r in b[1..] {
        if r in a[1..] { assert r in a && r != a[0]; assert r in b; }
        if r in b[1..] { assert r in b && r != b[0]; assert r in a; }
      }
      SortedOnce(a[1..], b[1..]);
    }
  }

  ghost predicate MountedOf(s: Space, records: seq<Record>, isPaused: Record -> bool)
  {
    exists r :: r in records && !r.closed && Mounts(s, r, isPaused)
  }

  method SpacesOf(records: seq<Record>, isPaused: Record -> bool) returns (spaces: seq<Space>, ghost sorted: seq<Record>)
    requires RecordTrades.DistinctIds(records)
    ensures SortedById(sorted) && (forall r :: r in sorted <==> r in records) && spaces == PartitionOf(sorted, isPaused)
    ensures PartitionOk(spaces) && forall i :: 0 < i < |spaces| ==> MountedOf(spaces[i], records, isPaused)
  {
    var byId := Sorted(records);
    sorted := byId;
    spaces := [VAULT_SPACE];
    for i := 0 to |byId|
      invariant spaces == PartitionOf(byId[..i], isPaused)
    {
      assert byId[..i + 1][..i] == byId[..i];
      if byId[i].closed || MountError(byId[i].root, spaces) { continue; }
      spaces := spaces + [SpaceFor(byId[i], isPaused(byId[i]))];
    }
    assert byId[..|byId|] == byId;
    PartitionIsOk(byId, isPaused);
    forall i | 0 < i < |spaces| ensures MountedOf(spaces[i], records, isPaused) {
      MountedAre(byId, isPaused, i);
      var k :| 0 <= k < |byId| && !byId[k].closed && Mounts(spaces[i], byId[k], isPaused);
      assert byId[k] in records;
    }
  }

  /** The vault first, and no root in another. */
  ghost predicate PartitionOk(spaces: seq<Space>)
  {
    && spaces != [] && spaces[0] == VAULT_SPACE
    && (forall i :: 0 < i < |spaces| ==> spaces[i].root != "" && !Hidden(spaces[i].root))
    && forall i, j :: 0 < i < j < |spaces| ==> !Nested(spaces[i].root, spaces[j].root)
  }

  lemma {:induction false} MountErrorIs(root: string, spaces: seq<Space>)
    ensures MountError(root, spaces) <==>
      root == "" || Hidden(root) || exists i :: 0 <= i < |spaces| && spaces[i].root != "" && Nested(root, spaces[i].root)
  {
    DotSegmentHides(root);
    AllUnder();
    forall i | 0 <= i < |spaces| ensures Overlap(root, spaces[i].root) <==> Nested(root, spaces[i].root) {}
  }

  /** Roots never overlap. */
  lemma {:induction false} PartitionIsOk(sorted: seq<Record>, isPaused: Record -> bool)
    ensures PartitionOk(PartitionOf(sorted, isPaused))
  {
    if sorted != [] {
      var before, r := PartitionOf(sorted[..|sorted| - 1], isPaused), sorted[|sorted| - 1];
      PartitionIsOk(sorted[..|sorted| - 1], isPaused);
      MountErrorIs(r.root, before);
    }
  }

  /** A mounted space of a smaller id is in the way of this root. */
  ghost predicate InTheWay(spaces: seq<Space>, i: nat, r: Record)
  {
    0 < i < |spaces| && Before(spaces[i].id, r.id) && Nested(r.root, spaces[i].root)
  }

  /** An open record is mounted, or its root is no folder to share, or a mounted one of a smaller id is in its way. */
  lemma {:induction false} OpenIsHeld(sorted: seq<Record>, isPaused: Record -> bool, r: Record)
    requires SortedById(sorted) && r in sorted && !r.closed
    ensures var spaces := PartitionOf(sorted, isPaused);
      || (exists s :: s in spaces && Mounts(s, r, isPaused))
      || r.root == "" || Hidden(r.root)
      || exists i :: 0 < i < |spaces| && Before(spaces[i].id, r.id) && Nested(r.root, spaces[i].root)
  {
    var n := |sorted| - 1;
    var before, spaces := PartitionOf(sorted[..n], isPaused), PartitionOf(sorted, isPaused);
    assert Mounts(SpaceFor(r, isPaused(r)), r, isPaused);
    assert sorted == sorted[..n] + [sorted[n]];
    if r in sorted[..n] {
      OpenIsHeld(sorted[..n], isPaused, r);
      if i :| 0 < i < |before| && Before(before[i].id, r.id) && Nested(r.root, before[i].root) { assert InTheWay(spaces, i, r); }
    } else if MountError(r.root, before) && r.root != "" && !Hidden(r.root) {
      var i := HeldByOne(sorted, isPaused);
      assert InTheWay(spaces, i, r);
    }
  }

  lemma {:induction false} HeldByOne(sorted: seq<Record>, isPaused: Record -> bool) returns (i: nat)
    requires sorted != [] && SortedById(sorted)
    requires var n := |sorted| - 1; var root := sorted[n].root; MountError(root, PartitionOf(sorted[..n], isPaused)) && root != "" && !Hidden(root)
    ensures InTheWay(PartitionOf(sorted[..|sorted| - 1], isPaused), i, sorted[|sorted| - 1])
  {
    var n := |sorted| - 1;
    var before, r := PartitionOf(sorted[..n], isPaused), sorted[n];
    MountErrorIs(r.root, before);
    i :| 0 <= i < |before| && before[i].root != "" && Nested(r.root, before[i].root);
    MountedAre(sorted[..n], isPaused, i);
    var k :| 0 <= k < n && !sorted[..n][k].closed && Mounts(before[i], sorted[..n][k], isPaused);
    assert before[i].id == sorted[k].id;
  }

  /** Every mounted space but the vault is of an open record. */
  lemma {:induction false} MountedAre(sorted: seq<Record>, isPaused: Record -> bool, i: nat)
    requires i < |PartitionOf(sorted, isPaused)| && PartitionOf(sorted, isPaused)[i].root != ""
    ensures i > 0 && exists k :: 0 <= k < |sorted| && !sorted[k].closed && Mounts(PartitionOf(sorted, isPaused)[i], sorted[k], isPaused)
  {
    if sorted != [] {
      var n := |sorted| - 1;
      var before, spaces := PartitionOf(sorted[..n], isPaused), PartitionOf(sorted, isPaused);
      PartitionIsOk(sorted[..n], isPaused);
      if i < |before| {
        MountedAre(sorted[..n], isPaused, i);
        var k :| 0 <= k < n && !sorted[..n][k].closed && Mounts(before[i], sorted[..n][k], isPaused);
        assert !sorted[k].closed && Mounts(spaces[i], sorted[k], isPaused);
      } else {
        assert !sorted[n].closed && Mounts(spaces[i], sorted[n], isPaused);
      }
    }
  }

  lemma {:induction false} OneOfAnId(sorted: seq<Record>, i: nat, j: nat)
    requires SortedById(sorted) && i < |sorted| && j < |sorted| && sorted[i].id == sorted[j].id
    ensures i == j
  {
    BeforeIsOrder(sorted[i].id, sorted[j].id, sorted[i].id);
  }

  /** A share once closed is mounted nowhere. */
  lemma {:induction false} ClosedIsUnmounted(sorted: seq<Record>, isPaused: Record -> bool, r: Record, author: string)
    requires SortedById(sorted) && CloseRecord(r, author) in sorted
    ensures var spaces := PartitionOf(sorted, isPaused); forall i :: 0 < i < |spaces| ==> spaces[i].id != r.id
  {
    var spaces := PartitionOf(sorted, isPaused);
    PartitionIsOk(sorted, isPaused);
    var c :| 0 <= c < |sorted| && sorted[c] == CloseRecord(r, author);
    forall i | 0 < i < |spaces| ensures spaces[i].id != r.id {
      MountedAre(sorted, isPaused, i);
      var k :| 0 <= k < |sorted| && !sorted[k].closed && Mounts(spaces[i], sorted[k], isPaused);
      if sorted[k].id == sorted[c].id { OneOfAnId(sorted, k, c); }
    }
  }

  /** A space as it is on every device, wherever it is paused. */
  function Shared(space: Space): Space { space.(paused := false) }

  /** Which spaces are paused here decides nothing about where they are mounted. */
  lemma {:induction false} PausingMountsNothing(sorted: seq<Record>, here: Record -> bool, there: Record -> bool)
    ensures var a, b := PartitionOf(sorted, here), PartitionOf(sorted, there);
      |a| == |b| && forall i :: 0 <= i < |a| ==> Shared(a[i]) == Shared(b[i])
  {
    if sorted != [] {
      var n := |sorted| - 1;
      PausingMountsNothing(sorted[..n], here, there);
      SameErrors(sorted[n].root, PartitionOf(sorted[..n], here), PartitionOf(sorted[..n], there));
    }
  }

  lemma {:induction false} SameErrors(root: string, a: seq<Space>, b: seq<Space>)
    requires |a| == |b| && forall i :: 0 <= i < |a| ==> Shared(a[i]) == Shared(b[i])
    ensures MountError(root, a) <==> MountError(root, b)
  {
    forall i | 0 <= i < |a| ensures a[i].root == b[i].root {
      assert Shared(a[i]) == Shared(b[i]);
    }
  }

  /**
   * Two devices with the same records mount the same spaces at the same roots, however their lists are ordered and
   * whichever of them each has paused.
   */
  lemma {:induction false} SameRecordsSamePartition(a: seq<Record>, b: seq<Record>, pausedA: Record -> bool, pausedB: Record -> bool)
    requires SortedById(a) && SortedById(b) && forall r :: r in a <==> r in b
    ensures var spacesA, spacesB := PartitionOf(a, pausedA), PartitionOf(b, pausedB);
      |spacesA| == |spacesB| && forall i :: 0 <= i < |spacesA| ==> Shared(spacesA[i]) == Shared(spacesB[i])
  {
    SortedOnce(a, b);
    PausingMountsNothing(a, pausedA, pausedB);
  }

  /** The roots strictly below `root`, in the order of `spaces`. */
  function NestedRoots(spaces: seq<Space>, root: string): seq<string>
  {
    if spaces == [] then []
    else (
      var other := spaces[|spaces| - 1].root;
      NestedRoots(spaces[..|spaces| - 1], root) + if other != root && IsUnder(other, root) then [other] else []
    )
  }

  function RootsOf(spaces: seq<Space>): set<string>
  {
    set s | s in spaces :: s.root
  }

  lemma {:induction false} NestedAre(spaces: seq<Space>, root: string, other: string)
    ensures other in NestedRoots(spaces, root) <==> other != root && Inside(other, root) && other in RootsOf(spaces)
  {
    if spaces != [] {
      var n := |spaces| - 1;
      NestedAre(spaces[..n], root, other);
      UnderIsInside(other, root);
      assert spaces == spaces[..n] + [spaces[n]];
      assert RootsOf(spaces) == RootsOf(spaces[..n]) + {spaces[n].root};
    }
  }

  /** Strictly below `root`, and neither at nor below any of `otherRoots`. */
  predicate Owns(root: string, otherRoots: seq<string>, path: string)
  {
    path != root && IsUnder(path, root) && forall other :: other in otherRoots ==> !IsUnder(path, other)
  }

  /** The deepest space over the path: every root the path is in has the owner's in it. The vault's, the empty one, is over every path. */
  method SpaceOf(spaces: seq<Space>, path: string) returns (owner: Space)
    ensures Inside(path, owner.root) && (owner == VAULT_SPACE || owner in spaces)
    ensures forall i :: 0 <= i < |spaces| && Inside(path, spaces[i].root) ==> Inside(owner.root, spaces[i].root)
  {
    owner := VAULT_SPACE;
    AllUnder();
    for i := 0 to |spaces|
      invariant IsUnder(path, owner.root) && (owner == VAULT_SPACE || owner in spaces)
      invariant forall j :: 0 <= j < i && IsUnder(path, spaces[j].root) ==> |spaces[j].root| <= |owner.root|
    {
      if IsUnder(path, spaces[i].root) && |spaces[i].root| > |owner.root| { owner := spaces[i]; }
    }
    forall i | 0 <= i < |spaces| && Inside(path, spaces[i].root) ensures Inside(owner.root, spaces[i].root) {
      AboveOne(path, spaces[i].root, owner.root);
    }
  }

  /** Two roots above one path are nested. */
  lemma {:induction false} AboveOnePath(path: string, a: string, b: string)
    requires Inside(path, a) && Inside(path, b)
    ensures Nested(a, b)
  {
    if |a| <= |b| { AboveOne(path, a, b); } else { AboveOne(path, b, a); }
  }

  /** `Owns`, with the nested roots that `spaces` gives. */
  predicate OwnedBy(spaces: seq<Space>, i: nat, path: string)
    requires i < |spaces|
  {
    Owns(spaces[i].root, NestedRoots(spaces, spaces[i].root), path)
  }

  lemma {:induction false} OwnsIs(root: string, otherRoots: seq<string>, path: string)
    ensures Owns(root, otherRoots, path)
      <==> path != root && Inside(path, root) && forall other :: other in otherRoots ==> !Inside(path, other)
  {
    UnderIsInside(path, root);
    forall other | other in otherRoots ensures IsUnder(path, other) <==> Inside(path, other) { UnderIsInside(path, other); }
  }

  lemma {:induction false} VaultOwns(spaces: seq<Space>, path: string)
    requires PartitionOk(spaces)
    ensures OwnedBy(spaces, 0, path) <==> path != "" && forall j :: 0 < j < |spaces| ==> !Inside(path, spaces[j].root)
  {
    var nested := NestedRoots(spaces, "");
    OwnsIs("", nested, path);
    forall j | 0 < j < |spaces| ensures spaces[j].root in nested {
      assert spaces[j] in spaces;
      NestedAre(spaces, "", spaces[j].root);
    }
    forall other | other in nested ensures exists j :: 0 < j < |spaces| && spaces[j].root == other {
      NestedAre(spaces, "", other);
      var s :| s in spaces && s.root == other;
    }
  }

  lemma {:induction false} ShareOwns(spaces: seq<Space>, i: nat, path: string)
    requires PartitionOk(spaces) && 0 < i < |spaces|
    ensures OwnedBy(spaces, i, path) <==> path != spaces[i].root && Inside(path, spaces[i].root)
  {
    var nested := NestedRoots(spaces, spaces[i].root);
    OwnsIs(spaces[i].root, nested, path);
    if nested != [] {
      assert nested[0] in nested;
      NestedAre(spaces, spaces[i].root, nested[0]);
      var s :| s in spaces && s.root == nested[0];
      NoneNested(spaces, i, s);
    }
  }

  /** The vault owns what no share holds; a share, what is inside its root. */
  lemma {:induction false} OwnedByIs(spaces: seq<Space>, i: nat, path: string)
    requires PartitionOk(spaces) && i < |spaces|
    ensures i == 0 ==> (OwnedBy(spaces, i, path) <==> path != "" && forall j :: 0 < j < |spaces| ==> !Inside(path, spaces[j].root))
    ensures i > 0 ==> (OwnedBy(spaces, i, path) <==> path != spaces[i].root && Inside(path, spaces[i].root))
  {
    if i == 0 { VaultOwns(spaces, path); } else { ShareOwns(spaces, i, path); }
  }

  lemma {:induction false} NoneNested(spaces: seq<Space>, i: nat, s: Space)
    requires PartitionOk(spaces) && 0 < i < |spaces| && s in spaces && s.root != spaces[i].root
    ensures !Inside(s.root, spaces[i].root)
  {
    var j :| 0 <= j < |spaces| && spaces[j] == s;
    if j == 0 {
      InsideIs("", spaces[i].root);
    } else if j < i {
      assert !Nested(spaces[j].root, spaces[i].root);
    } else {
      assert !Nested(spaces[i].root, spaces[j].root);
    }
  }

  lemma {:induction false} RootsApart(spaces: seq<Space>, i: nat, j: nat)
    requires PartitionOk(spaces) && 0 < i < j < |spaces|
    ensures !Nested(spaces[i].root, spaces[j].root) && !Nested(spaces[j].root, spaces[i].root)
  {
  }

  /** At most one share's root holds a path. */
  lemma {:induction false} OneShareHolds(spaces: seq<Space>, i: nat, j: nat, path: string)
    requires PartitionOk(spaces) && 0 < i < |spaces| && 0 < j < |spaces|
    requires Inside(path, spaces[i].root) && Inside(path, spaces[j].root)
    ensures i == j
  {
    AboveOnePath(path, spaces[i].root, spaces[j].root);
    if i < j { RootsApart(spaces, i, j); } else if j < i { RootsApart(spaces, j, i); }
  }

  ghost predicate IsRoot(spaces: seq<Space>, path: string)
  {
    exists i :: 0 <= i < |spaces| && spaces[i].root == path
  }

  /** Some space owns any path that is no root. */
  lemma {:induction false} Owner(spaces: seq<Space>, path: string) returns (i: nat)
    requires PartitionOk(spaces) && !IsRoot(spaces, path)
    ensures i < |spaces| && OwnedBy(spaces, i, path) && Inside(path, spaces[i].root)
    ensures forall j :: 0 <= j < |spaces| && Inside(path, spaces[j].root) ==> j == i || j == 0
  {
    assert spaces[0].root == "" && path != "";
    if k: nat :| 0 < k < |spaces| && Inside(path, spaces[k].root) {
      i := k;
      ShareOwns(spaces, i, path);
      forall j | 0 < j < |spaces| && Inside(path, spaces[j].root) ensures j == i { OneShareHolds(spaces, i, j, path); }
    } else {
      i := 0;
      VaultOwns(spaces, path);
    }
  }

  /** Each path but a root is owned by exactly one space, the one `spaceOf` names. */
  lemma {:induction false} OwnedOnce(spaces: seq<Space>, path: string, owner: Space)
    requires PartitionOk(spaces) && !IsRoot(spaces, path)
    requires owner in spaces && Inside(path, owner.root)
    requires forall i :: 0 <= i < |spaces| && Inside(path, spaces[i].root) ==> Inside(owner.root, spaces[i].root)
    ensures exists i :: 0 <= i < |spaces| && spaces[i] == owner && OwnedBy(spaces, i, path)
    ensures forall j :: 0 <= j < |spaces| && OwnedBy(spaces, j, path) ==> spaces[j] == owner
  {
    var i := Owner(spaces, path);
    var k :| 0 <= k < |spaces| && spaces[k] == owner;
    if k != i { InsideIs("", spaces[i].root); }
    forall j | 0 <= j < |spaces| && OwnedBy(spaces, j, path) ensures j == i {
      OwnedByIs(spaces, j, path);
      OwnedByIs(spaces, i, path);
    }
  }

  /** No scope takes in the root of a space, its own or another's. */
  lemma {:induction false} RootsOwnedByNone(spaces: seq<Space>, path: string, i: nat)
    requires PartitionOk(spaces) && IsRoot(spaces, path) && i < |spaces|
    ensures !OwnedBy(spaces, i, path)
  {
    var k: nat :| 0 <= k < |spaces| && spaces[k].root == path;
    if i == 0 {
      VaultOwns(spaces, path);
      if k > 0 { assert Inside(path, spaces[k].root); }
    } else {
      ShareOwns(spaces, i, path);
      if Inside(path, spaces[i].root) { RootInside(spaces, i, k); }
    }
  }

  /** A space whose root is inside a share's is that share. */
  lemma {:induction false} RootInside(spaces: seq<Space>, i: nat, k: nat)
    requires PartitionOk(spaces) && 0 < i < |spaces| && k < |spaces| && Inside(spaces[k].root, spaces[i].root)
    ensures i == k
  {
    if k == 0 { InsideIs("", spaces[i].root); } else if i < k { RootsApart(spaces, i, k); } else if k < i { RootsApart(spaces, k, i); }
  }
}
