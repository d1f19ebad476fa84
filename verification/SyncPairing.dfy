/** Lists and moves of a compare: `pairMoves` and `withMoves` of packages/plugin/src/sync/moves.ts. */
module SyncPairing {
  import opened Common
  import opened Paths
  import opened SyncDiff
  import opened SyncMoves

  datatype MoveSide = Here | There

  /** What was at `from` is at `dest`, by a rename on `side`. */
  datatype Move = Move(from: Path, dest: Path, side: MoveSide)

  datatype DiffResult = DiffResult(lists: Lists, moves: seq<Move>)

  /** What one side no longer has and the other still does. */
  function Gone(s: Sides, paths: set<Path>, side: MoveSide): Candidates
  {
    if side == There then map p | p in paths && p in s.baseline && p !in s.remote && p in s.local :: s.baseline[p]
    else map p | p in paths && p in s.baseline && p !in s.local && p in s.remote :: s.baseline[p]
  }

  /** What one side alone has. */
  function Arrived(s: Sides, paths: set<Path>, side: MoveSide): Candidates
  {
    if side == There then map p | p in paths && p !in s.baseline && p in s.remote && p !in s.local :: s.remote[p]
    else map p | p in paths && p !in s.baseline && p in s.local && p !in s.remote :: s.local[p]
  }

  predicate IsMove(s: Sides, paths: set<Path>, m: Move)
  {
    Paired(Gone(s, paths, m.side), Arrived(s, paths, m.side), m.from, m.dest)
  }

  /** A side's own files, and the other side's. */
  function On(s: Sides, side: MoveSide): Files { if side == There then s.remote else s.local }

  function Across(side: MoveSide): MoveSide { if side == There then Here else There }

  /** A file both had is on the other side alone now. */
  ghost predicate GoneFrom(s: Sides, paths: set<Path>, side: MoveSide, p: Path)
  {
    p in paths && p in s.baseline && p !in On(s, side) && p in On(s, Across(side))
  }

  /** A file neither had is on this side alone. */
  ghost predicate NewOn(s: Sides, paths: set<Path>, side: MoveSide, p: Path)
  {
    p in paths && p !in s.baseline && p in On(s, side) && p !in On(s, Across(side))
  }

  /** No other file of that content is gone from the side or new on it; or none of the same name. */
  ghost predicate Alone(s: Sides, paths: set<Path>, m: Move, byName: bool)
    requires m.from in s.baseline
  {
    && (forall p :: GoneFrom(s, paths, m.side, p) && s.baseline[p] == s.baseline[m.from] && (byName ==> LastOf(p) == LastOf(m.from)) ==> p == m.from)
    && (forall p :: NewOn(s, paths, m.side, p) && On(s, m.side)[p] == s.baseline[m.from] && (byName ==> LastOf(p) == LastOf(m.from)) ==> p == m.dest)
  }

  /**
   * Exactly what is a move: a file gone from one side, one new there with the content it had, which is not empty, and no
   * other file of that content is either, or none of their name.
   */
  lemma {:induction false} MoveExactly(s: Sides, paths: set<Path>, m: Move)
    ensures IsMove(s, paths, m) <==>
      && GoneFrom(s, paths, m.side, m.from) && NewOn(s, paths, m.side, m.dest)
      && On(s, m.side)[m.dest] == s.baseline[m.from] != EMPTY_HASH
      && (Alone(s, paths, m, false) || (LastOf(m.from) == LastOf(m.dest) && Alone(s, paths, m, true)))
  {
    forall p: Path ensures NameOf(p) == LastOf(p) { NameIsLast(p); }
    var gone, arrived := Gone(s, paths, m.side), Arrived(s, paths, m.side);
    assert forall p :: p in gone <==> GoneFrom(s, paths, m.side, p);
    assert forall p :: p in arrived <==> NewOn(s, paths, m.side, p);
    if m.from in gone && m.dest in arrived && gone[m.from] == arrived[m.dest] {
      var h, name := gone[m.from], NameOf(m.from);
      assert WithHash(gone, h) == {m.from} && WithHash(arrived, h) == {m.dest} <==> Alone(s, paths, m, false) by { AloneIs(s, paths, m); }
      if NameOf(m.dest) == name {
        assert WithName(gone, h, name) == {m.from} && WithName(arrived, h, name) == {m.dest} <==> Alone(s, paths, m, true) by { NamedIs(s, paths, m); }
      }
    }
  }

  lemma {:induction false} AloneIs(s: Sides, paths: set<Path>, m: Move)
    requires GoneFrom(s, paths, m.side, m.from) && NewOn(s, paths, m.side, m.dest) && On(s, m.side)[m.dest] == s.baseline[m.from]
    ensures WithHash(Gone(s, paths, m.side), s.baseline[m.from]) == {m.from} && WithHash(Arrived(s, paths, m.side), s.baseline[m.from]) == {m.dest}
      <==> Alone(s, paths, m, false)
  {
    var h := s.baseline[m.from];
    var g, a := WithHash(Gone(s, paths, m.side), h), WithHash(Arrived(s, paths, m.side), h);
    assert forall p :: p in g <==> GoneFrom(s, paths, m.side, p) && s.baseline[p] == h;
    assert forall p :: p in a <==> NewOn(s, paths, m.side, p) && On(s, m.side)[p] == h;
    OnlyOne(g, m.from);
    OnlyOne(a, m.dest);
  }

  lemma {:induction false} NamedIs(s: Sides, paths: set<Path>, m: Move)
    requires GoneFrom(s, paths, m.side, m.from) && NewOn(s, paths, m.side, m.dest) && On(s, m.side)[m.dest] == s.baseline[m.from]
    requires NameOf(m.from) == NameOf(m.dest)
    ensures var h, name := s.baseline[m.from], NameOf(m.from);
      WithName(Gone(s, paths, m.side), h, name) == {m.from} && WithName(Arrived(s, paths, m.side), h, name) == {m.dest} <==> Alone(s, paths, m, true)
  {
    forall p: Path ensures NameOf(p) == LastOf(p) { NameIsLast(p); }
    var h, name := s.baseline[m.from], NameOf(m.from);
    var g, a := WithName(Gone(s, paths, m.side), h, name), WithName(Arrived(s, paths, m.side), h, name);
    assert forall p :: p in g <==> GoneFrom(s, paths, m.side, p) && s.baseline[p] == h && LastOf(p) == LastOf(m.from);
    assert forall p :: p in a <==> NewOn(s, paths, m.side, p) && On(s, m.side)[p] == h && LastOf(p) == LastOf(m.from);
    OnlyOne(g, m.from);
    OnlyOne(a, m.dest);
  }

  lemma {:induction false} OnlyOne(items: set<Path>, one: Path)
    requires one in items
    ensures items == {one} <==> forall p :: p in items ==> p == one
  {
  }

  /** The one file of its content that is gone from a side, and the one that arrived there, are a move. */
  lemma {:induction false} LoneRenameIsMove(s: Sides, paths: set<Path>, m: Move)
    requires GoneFrom(s, paths, m.side, m.from) && NewOn(s, paths, m.side, m.dest)
    requires On(s, m.side)[m.dest] == s.baseline[m.from] != EMPTY_HASH && Alone(s, paths, m, false)
    ensures IsMove(s, paths, m)
  {
    MoveExactly(s, paths, m);
  }

  /** A move's content is the baseline's, at its new path, and no other move shares an endpoint with it. */
  lemma {:induction false} MovesApart(s: Sides, paths: set<Path>, m: Move, n: Move)
    requires IsMove(s, paths, m) && IsMove(s, paths, n)
    ensures m.from != m.dest && m.from in s.baseline && s.baseline[m.from] != EMPTY_HASH
    ensures At(if m.side == There then s.remote else s.local, m.dest) == Some(s.baseline[m.from])
    ensures m != n ==> m.from != n.from && m.dest != n.dest && m.from != n.dest && m.dest != n.from
  {
    if m.side == n.side { PairedOnce(Gone(s, paths, m.side), Arrived(s, paths, m.side), m.from, m.dest, n.from, n.dest); }
  }

  /** The lists as pairing leaves them: an edit of a moved file follows it, so it is no conflict. */
  ghost predicate Pairing(d: DiffResult, scenes: Scenes, s: Sides, paths: set<Path>)
  {
    && (forall m :: m in d.moves <==> IsMove(s, paths, m))
    && (forall i, j :: 0 <= i < j < |d.moves| ==> d.moves[i] != d.moves[j])
    && ChangesAre(d.lists.localChanges, s, false, Of(scenes, s, paths, LocalChange) - HeldBack(scenes, s, paths))
    && ChangesAre(d.lists.remoteChanges, s, true, Of(scenes, s, paths, RemoteChange) + Carried(scenes, s, paths))
    && ConflictsAre(d.lists.conflicts, s, Of(scenes, s, paths, Conflicting) - Carried(scenes, s, paths))
    && PathsAre(d.lists.converged, Of(scenes, s, paths, Converged))
  }

  ghost predicate CarriedBy(scenes: Scenes, s: Sides, paths: set<Path>, m: Move)
  {
    IsMove(s, paths, m) && ClassAt(scenes, s, m.from) == Conflicting
  }

  /** The conflicting paths whose move carries the other side's edit along. */
  ghost function Carried(scenes: Scenes, s: Sides, paths: set<Path>): set<Path>
  {
    set p | p in paths && exists m: Move :: m.from == p && CarriedBy(scenes, s, paths, m)
  }

  /** The new paths that wait for the other side's text. */
  ghost function HeldBack(scenes: Scenes, s: Sides, paths: set<Path>): set<Path>
  {
    set p | p in paths && exists m: Move :: m.dest == p && m.side == Here && CarriedBy(scenes, s, paths, m)
  }

  predicate EditedHere(c: Conflict) { c.remoteHash == "" && c.localHash != "" && c.baselineHash.Some? }

  predicate EditedThere(c: Conflict) { c.localHash == "" && c.remoteHash != "" && c.baselineHash.Some? }

  function PathsOfKind(changes: seq<FileChange>, kind: ChangeType): set<Path>
  {
    set c | c in changes && c.kind == kind :: c.path
  }

  function Was(baseline: Files, p: Path): string { if p in baseline then baseline[p] else "" }

  /** The candidates of one side, read off the lists. */
  function GoneIn(lists: Lists, baseline: Files, side: MoveSide): Candidates
  {
    var gone := if side == There then PathsOfKind(lists.remoteChanges, RemoteDelete) + (set c | c in lists.conflicts && EditedHere(c) :: c.path)
                else PathsOfKind(lists.localChanges, LocalDelete) + (set c | c in lists.conflicts && EditedThere(c) :: c.path);
    map p | p in gone :: Was(baseline, p)
  }

  lemma {:induction false} KindsAre(changes: seq<FileChange>, s: Sides, remote: bool, paths: set<Path>, kind: ChangeType)
    requires ChangesAre(changes, s, remote, paths)
    ensures forall p :: p in PathsOfKind(changes, kind) <==> p in paths && ChangeAt(s, remote, p).kind == kind
  {
    forall p | p in paths && ChangeAt(s, remote, p).kind == kind ensures p in PathsOfKind(changes, kind) {
      assert ChangeAt(s, remote, p) in changes;
    }
  }

  lemma {:induction false} EditedAre(conflicts: seq<Conflict>, s: Sides, paths: set<Path>)
    requires ConflictsAre(conflicts, s, paths)
    ensures forall p :: p in (set c | c in conflicts && EditedHere(c) :: c.path) <==> p in paths && EditedHere(ConflictAt(s, p))
    ensures forall p :: p in (set c | c in conflicts && EditedThere(c) :: c.path) <==> p in paths && EditedThere(ConflictAt(s, p))
  {
    forall p | p in paths ensures ConflictAt(s, p) in conflicts {}
  }

  /** Which lists a path gone from one side is in. */
  lemma {:induction false} GoneClass(scenes: Scenes, s: Sides, p: Path)
    ensures (p in s.baseline && p !in s.remote && p in s.local) <==>
      (ClassAt(scenes, s, p) == RemoteChange && ChangeAt(s, true, p).kind == RemoteDelete) || (ClassAt(scenes, s, p) == Conflicting && EditedHere(ConflictAt(s, p)))
    ensures (p in s.baseline && p !in s.local && p in s.remote) <==>
      (ClassAt(scenes, s, p) == LocalChange && ChangeAt(s, false, p).kind == LocalDelete) || (ClassAt(scenes, s, p) == Conflicting && EditedThere(ConflictAt(s, p)))
  {
  }

  /** And one new on one side. */
  lemma {:induction false} ArrivedClass(scenes: Scenes, s: Sides, p: Path)
    ensures (p !in s.baseline && p in s.remote && p !in s.local) <==> ClassAt(scenes, s, p) == RemoteChange && ChangeAt(s, true, p).kind == RemoteAdd
    ensures (p !in s.baseline && p in s.local && p !in s.remote) <==> ClassAt(scenes, s, p) == LocalChange && ChangeAt(s, false, p).kind == LocalAdd
  {
  }

  lemma {:induction false} GoneRead(lists: Lists, scenes: Scenes, s: Sides, paths: set<Path>, side: MoveSide)
    requires ListsAre(lists, scenes, s, paths)
    ensures GoneIn(lists, s.baseline, side) == Gone(s, paths, side)
  {
    EditedAre(lists.conflicts, s, Of(scenes, s, paths, Conflicting));
    if side == There { KindsAre(lists.remoteChanges, s, true, Of(scenes, s, paths, RemoteChange), RemoteDelete); }
    else { KindsAre(lists.localChanges, s, false, Of(scenes, s, paths, LocalChange), LocalDelete); }
    forall p ensures p in GoneIn(lists, s.baseline, side) <==> p in Gone(s, paths, side) {
      GoneClass(scenes, s, p);
    }
  }

  function ArrivedIn(lists: Lists, side: MoveSide): Candidates
  {
    if side == There then
      map p | p in PathsOfKind(lists.remoteChanges, RemoteAdd) :: HashOf(lists.remoteChanges, p, There)
    else map p | p in PathsOfKind(lists.localChanges, LocalAdd) :: HashOf(lists.localChanges, p, Here)
  }

  /** The hash the change at `p` names on one side. */
  function HashOf(changes: seq<FileChange>, p: Path, side: MoveSide): string
  {
    if changes == [] then ""
    else if changes[0].path == p then OrNone(if side == There then changes[0].remoteHash else changes[0].localHash)
    else HashOf(changes[1..], p, side)
  }

  lemma {:induction false} HashRead(changes: seq<FileChange>, c: FileChange, side: MoveSide)
    requires c in changes && forall d :: d in changes && d.path == c.path ==> d == c
    ensures HashOf(changes, c.path, side) == OrNone(if side == There then c.remoteHash else c.localHash)
  {
    if changes[0].path != c.path { HashRead(changes[1..], c, side); }
  }

  lemma {:induction false} ArrivedRead(lists: Lists, scenes: Scenes, s: Sides, paths: set<Path>, side: MoveSide)
    requires ListsAre(lists, scenes, s, paths)
    ensures ArrivedIn(lists, side) == Arrived(s, paths, side)
  {
    if side == There { KindsAre(lists.remoteChanges, s, true, Of(scenes, s, paths, RemoteChange), RemoteAdd); }
    else { KindsAre(lists.localChanges, s, false, Of(scenes, s, paths, LocalChange), LocalAdd); }
    forall p ensures p in ArrivedIn(lists, side) <==> p in Arrived(s, paths, side) {
      ArrivedClass(scenes, s, p);
    }
    forall p | p in Arrived(s, paths, side) ensures ArrivedIn(lists, side)[p] == Arrived(s, paths, side)[p] {
      ArrivedClass(scenes, s, p);
      if side == There { HashRead(lists.remoteChanges, ChangeAt(s, true, p), There); } else { HashRead(lists.localChanges, ChangeAt(s, false, p), Here); }
    }
  }

  function WithoutPaths(changes: seq<FileChange>, drop: set<Path>): seq<FileChange>
  {
    if changes == [] then []
    else (if changes[0].path in drop then [] else [changes[0]]) + WithoutPaths(changes[1..], drop)
  }

  function WithoutConflicts(conflicts: seq<Conflict>, drop: set<Path>): seq<Conflict>
  {
    if conflicts == [] then []
    else (if conflicts[0].path in drop then [] else [conflicts[0]]) + WithoutConflicts(conflicts[1..], drop)
  }

  ghost predicate DistinctPaths(changes: seq<FileChange>)
  {
    forall i, j :: 0 <= i < j < |changes| ==> changes[i].path != changes[j].path
  }

  ghost predicate DistinctConflicts(conflicts: seq<Conflict>)
  {
    forall i, j :: 0 <= i < j < |conflicts| ==> conflicts[i].path != conflicts[j].path
  }

  lemma {:induction false} WithoutKeeps(changes: seq<FileChange>, drop: set<Path>)
    requires DistinctPaths(changes)
    ensures forall c :: c in WithoutPaths(changes, drop) <==> c in changes && c.path !in drop
    ensures DistinctPaths(WithoutPaths(changes, drop))
  {
    if changes != [] {
      WithoutKeeps(changes[1..], drop);
      var r := WithoutPaths(changes[1..], drop);
      forall i | 0 <= i < |r| ensures r[i].path != changes[0].path { assert r[i] in changes[1..]; }
    }
  }

  lemma {:induction false} WithoutKeepsConflicts(conflicts: seq<Conflict>, drop: set<Path>)
    requires DistinctConflicts(conflicts)
    ensures forall c :: c in WithoutConflicts(conflicts, drop) <==> c in conflicts && c.path !in drop
    ensures DistinctConflicts(WithoutConflicts(conflicts, drop))
  {
    if conflicts != [] {
      WithoutKeepsConflicts(conflicts[1..], drop);
      var r := WithoutConflicts(conflicts[1..], drop);
      forall i | 0 <= i < |r| ensures r[i].path != conflicts[0].path { assert r[i] in conflicts[1..]; }
    }
  }

  /** The moved paths of `pairs` that conflict. */
  function Crossing(pairs: set<(Path, Path)>, conflicting: set<Path>): set<Path>
  {
    set m | m in pairs && m.0 in conflicting :: m.0
  }

  /** Where those go. */
  function CrossingTo(pairs: set<(Path, Path)>, conflicting: set<Path>): set<Path>
  {
    set m | m in pairs && m.0 in conflicting :: m.1
  }

  ghost predicate Apart(pairs: set<(Path, Path)>)
  {
    forall m, n :: m in pairs && n in pairs && m.0 == n.0 ==> m == n
  }

  lemma {:induction false} CrossingGrows(pairs: set<(Path, Path)>, done: set<(Path, Path)>, m: (Path, Path), conflicting: set<Path>)
    requires Apart(pairs) && done <= pairs && m in pairs && m !in done
    ensures Crossing(done + {m}, conflicting) == Crossing(done, conflicting) + (if m.0 in conflicting then {m.0} else {})
    ensures m.0 !in Crossing(done, conflicting)
    ensures m.0 in conflicting ==> m.0 in Crossing(pairs, conflicting)
  {
  }

  ghost predicate MovesAre(all: seq<Move>, moves: seq<Move>, side: MoveSide, pairs: set<(Path, Path)>)
  {
    && (forall m :: m in all <==> m in moves || (m.side == side && (m.from, m.dest) in pairs))
    && forall i, j :: 0 <= i < j < |all| ==> all[i] != all[j]
  }

  lemma {:induction false} MoreMoves(all: seq<Move>, moves: seq<Move>, side: MoveSide, done: set<(Path, Path)>, m: (Path, Path))
    requires MovesAre(all, moves, side, done) && m !in done && forall n :: n in moves ==> n.side != side
    ensures MovesAre(all + [Move(m.0, m.1, side)], moves, side, done + {m})
  {
    var next := all + [Move(m.0, m.1, side)];
    forall i | 0 <= i < |all| ensures all[i] != Move(m.0, m.1, side) { assert all[i] in all; }
    forall n ensures n in next <==> n in moves || (n.side == side && (n.from, n.dest) in done + {m}) {
      assert n in next <==> n in all || n == Move(m.0, m.1, side);
    }
  }

  lemma {:induction false} Added(a: set<Path>, b: set<Path>, c: set<Path>)
    ensures a + b + c == a + (b + c)
  {
  }

  /** One more moved path: its conflict, if it has one, becomes a remote change. */
  method Followed(changes: seq<FileChange>, s: Sides, ghost before: set<Path>, ghost pairs: set<(Path, Path)>, ghost done: set<(Path, Path)>, m: (Path, Path), conflicting: set<Path>)
    returns (r: seq<FileChange>)
    requires ChangesAre(changes, s, true, before + Crossing(done, conflicting))
    requires Apart(pairs) && done <= pairs && m in pairs && m !in done && before !! Crossing(pairs, conflicting)
    ensures ChangesAre(r, s, true, before + Crossing(done + {m}, conflicting))
  {
    CrossingGrows(pairs, done, m, conflicting);
    r := changes;
    if m.0 in conflicting {
      Added(before, Crossing(done, conflicting), {m.0});
      MoreChange(changes, s, true, before + Crossing(done, conflicting), m.0);
      r := changes + [ChangeAt(s, true, m.0)];
    } else {
      assert Crossing(done, conflicting) + {} == Crossing(done, conflicting);
    }
  }

  lemma {:induction false} OneMoved<T>(all: set<T>, rest: set<T>, done: set<T>, m: T)
    requires done + rest == all && done !! rest && m in rest
    ensures done <= all && m in all && m !in done && (done + {m}) + (rest - {m}) == all && (done + {m}) !! (rest - {m}) && |rest - {m}| < |rest|
  {
  }

  /** A pair whose old path conflicts turns that conflict into a remote change. */
  method FollowEdits(pairs: set<(Path, Path)>, remoteChanges: seq<FileChange>, s: Sides, ghost before: set<Path>, conflicting: set<Path>) returns (changes: seq<FileChange>)
    requires ChangesAre(remoteChanges, s, true, before) && before !! Crossing(pairs, conflicting) && Apart(pairs)
    ensures ChangesAre(changes, s, true, before + Crossing(pairs, conflicting))
  {
    changes := remoteChanges;
    var rest := pairs;
    ghost var done: set<(Path, Path)> := {};
    assert before + Crossing(done, conflicting) == before;
    while rest != {}
      invariant done + rest == pairs && done !! rest
      invariant ChangesAre(changes, s, true, before + Crossing(done, conflicting))
      decreases |rest|
    {
      var m :| m in rest;
      OneMoved(pairs, rest, done, m);
      changes := Followed(changes, s, before, pairs, done, m, conflicting);
      rest, done := rest - {m}, done + {m};
    }
    assert done == pairs;
  }

  /** The pairs of one side as moves, after those of the other. */
  method ListMoves(pairs: set<(Path, Path)>, side: MoveSide, moves: seq<Move>) returns (all: seq<Move>)
    requires (forall m :: m in moves ==> m.side != side) && MovesAre(moves, moves, side, {})
    ensures MovesAre(all, moves, side, pairs)
  {
    all := moves;
    var rest := pairs;
    ghost var done: set<(Path, Path)> := {};
    while rest != {}
      invariant done + rest == pairs && done !! rest && MovesAre(all, moves, side, done)
      decreases |rest|
    {
      var m :| m in rest;
      MoreMoves(all, moves, side, done, m);
      all := all + [Move(m.0, m.1, side)];
      rest, done := rest - {m}, done + {m};
    }
    assert done == pairs;
  }

  /** What `Paired` pairs, as moves of one side, never shares an old path. */
  lemma {:induction false} PairsApart(s: Sides, paths: set<Path>, side: MoveSide, pairs: set<(Path, Path)>)
    requires forall f, t :: (f, t) in pairs <==> Paired(Gone(s, paths, side), Arrived(s, paths, side), f, t)
    ensures Apart(pairs)
  {
    forall m, n | m in pairs && n in pairs && m.0 == n.0 ensures m == n {
      assert (m.0, m.1) in pairs && (n.0, n.1) in pairs;
      PairedOnce(Gone(s, paths, side), Arrived(s, paths, side), m.0, m.1, n.0, n.1);
    }
  }

  ghost predicate PairsAre(s: Sides, paths: set<Path>, side: MoveSide, pairs: set<(Path, Path)>)
  {
    forall f, t :: (f, t) in pairs <==> IsMove(s, paths, Move(f, t, side))
  }

  /** A move crosses a conflict exactly as its pair does. */
  lemma {:induction false} PairCarries(scenes: Scenes, s: Sides, paths: set<Path>, side: MoveSide, pairs: set<(Path, Path)>, f: Path, t: Path)
    requires PairsAre(s, paths, side, pairs)
    ensures CarriedBy(scenes, s, paths, Move(f, t, side)) <==> (f, t) in pairs && f in Of(scenes, s, paths, Conflicting)
    ensures CarriedBy(scenes, s, paths, Move(f, t, side)) ==> f in paths && t in paths
  {
    assert (f, t) in pairs <==> IsMove(s, paths, Move(f, t, side));
  }

  lemma {:induction false} CarriedIs(scenes: Scenes, s: Sides, paths: set<Path>, remote: set<(Path, Path)>, local: set<(Path, Path)>, p: Path)
    requires PairsAre(s, paths, There, remote) && PairsAre(s, paths, Here, local)
    ensures var conflicting := Of(scenes, s, paths, Conflicting);
      p in Carried(scenes, s, paths) <==> p in Crossing(remote, conflicting) || p in Crossing(local, conflicting)
  {
    var conflicting := Of(scenes, s, paths, Conflicting);
    if p in Carried(scenes, s, paths) {
      var m: Move :| m.from == p && CarriedBy(scenes, s, paths, m);
      PairCarries(scenes, s, paths, m.side, if m.side == There then remote else local, p, m.dest);
      assert m == Move(p, m.dest, m.side);
    }
    if p in Crossing(remote, conflicting) {
      var m :| m in remote && m.0 in conflicting && m.0 == p;
      PairCarries(scenes, s, paths, There, remote, p, m.1);
      assert CarriedBy(scenes, s, paths, Move(p, m.1, There));
    }
    if p in Crossing(local, conflicting) {
      var m :| m in local && m.0 in conflicting && m.0 == p;
      PairCarries(scenes, s, paths, Here, local, p, m.1);
      assert CarriedBy(scenes, s, paths, Move(p, m.1, Here));
    }
  }

  lemma {:induction false} HeldBackIs(scenes: Scenes, s: Sides, paths: set<Path>, local: set<(Path, Path)>, p: Path)
    requires PairsAre(s, paths, Here, local)
    ensures p in HeldBack(scenes, s, paths) <==> p in CrossingTo(local, Of(scenes, s, paths, Conflicting))
  {
    var conflicting := Of(scenes, s, paths, Conflicting);
    if p in HeldBack(scenes, s, paths) {
      var m: Move :| m.dest == p && m.side == Here && CarriedBy(scenes, s, paths, m);
      PairCarries(scenes, s, paths, Here, local, m.from, p);
      assert m == Move(m.from, p, Here) && (m.from, p) in local;
    }
    if p in CrossingTo(local, conflicting) {
      var m :| m in local && m.0 in conflicting && m.1 == p;
      PairCarries(scenes, s, paths, Here, local, m.0, p);
      assert CarriedBy(scenes, s, paths, Move(m.0, p, Here));
    }
  }

  /** No conflicting path is moved away on both sides. */
  lemma {:induction false} CrossingApart(scenes: Scenes, s: Sides, paths: set<Path>, remote: set<(Path, Path)>, local: set<(Path, Path)>)
    requires PairsAre(s, paths, There, remote) && PairsAre(s, paths, Here, local)
    ensures Crossing(remote, Of(scenes, s, paths, Conflicting)) !! Crossing(local, Of(scenes, s, paths, Conflicting))
  {
    forall m, n | m in remote && n in local ensures m.0 != n.0 {
      assert (m.0, m.1) in remote && (n.0, n.1) in local;
      assert IsMove(s, paths, Move(m.0, m.1, There)) && IsMove(s, paths, Move(n.0, n.1, Here));
    }
  }

  /** The conflicting old paths of either side's moves are those whose edit is carried along. */
  lemma {:induction false} CarriedAre(scenes: Scenes, s: Sides, paths: set<Path>, remote: set<(Path, Path)>, local: set<(Path, Path)>)
    requires PairsAre(s, paths, There, remote) && PairsAre(s, paths, Here, local)
    ensures Carried(scenes, s, paths) == Crossing(remote, Of(scenes, s, paths, Conflicting)) + Crossing(local, Of(scenes, s, paths, Conflicting))
    ensures HeldBack(scenes, s, paths) == CrossingTo(local, Of(scenes, s, paths, Conflicting))
    ensures Crossing(remote, Of(scenes, s, paths, Conflicting)) !! Crossing(local, Of(scenes, s, paths, Conflicting))
  {
    CrossingApart(scenes, s, paths, remote, local);
    forall p ensures p in Carried(scenes, s, paths)
        <==> p in Crossing(remote, Of(scenes, s, paths, Conflicting)) || p in Crossing(local, Of(scenes, s, paths, Conflicting)) {
      CarriedIs(scenes, s, paths, remote, local, p);
    }
    forall p ensures p in HeldBack(scenes, s, paths) <==> p in CrossingTo(local, Of(scenes, s, paths, Conflicting)) {
      HeldBackIs(scenes, s, paths, local, p);
    }
  }

  /** Pairs each side's candidates and rewrites the lists: moved conflicts leave theirs, local arrivals are held back. */
  method PairMoves(lists: Lists, scenes: Scenes, s: Sides, ghost paths: set<Path>) returns (d: DiffResult)
    requires ListsAre(lists, scenes, s, paths)
    ensures Pairing(d, scenes, s, paths)
  {
    var conflicting := set c | c in lists.conflicts :: c.path;
    ghost var crossing := Of(scenes, s, paths, Conflicting);
    assert conflicting == crossing by { forall p | p in crossing ensures p in conflicting { assert ConflictAt(s, p) in lists.conflicts; } }
    GoneRead(lists, scenes, s, paths, There);
    GoneRead(lists, scenes, s, paths, Here);
    ArrivedRead(lists, scenes, s, paths, There);
    ArrivedRead(lists, scenes, s, paths, Here);
    var remote := PairUp(GoneIn(lists, s.baseline, There), ArrivedIn(lists, There));
    var local := PairUp(GoneIn(lists, s.baseline, Here), ArrivedIn(lists, Here));
    d := Follow(lists, scenes, s, paths, remote, local, conflicting);
  }

  /** The lists once every move is followed. */
  method Follow(lists: Lists, scenes: Scenes, s: Sides, ghost paths: set<Path>, remote: set<(Path, Path)>, local: set<(Path, Path)>, conflicting: set<Path>) returns (d: DiffResult)
    requires ListsAre(lists, scenes, s, paths) && conflicting == Of(scenes, s, paths, Conflicting)
    requires PairsAre(s, paths, There, remote) && PairsAre(s, paths, Here, local)
    ensures Pairing(d, scenes, s, paths)
  {
    PairsApart(s, paths, There, remote);
    PairsApart(s, paths, Here, local);
    CarriedAre(scenes, s, paths, remote, local);
    ghost var before := Of(scenes, s, paths, RemoteChange);
    var changes := FollowEdits(remote, lists.remoteChanges, s, before, conflicting);
    changes := FollowEdits(local, changes, s, before + Crossing(remote, conflicting), conflicting);
    var moves := ListMoves(remote, There, []);
    assert MovesAre(moves, moves, Here, {});
    moves := ListMoves(local, Here, moves);
    assert before + Crossing(remote, conflicting) + Crossing(local, conflicting) == before + Carried(scenes, s, paths);
    var heldBack := CrossingTo(local, conflicting);
    var carried := Crossing(remote, conflicting) + Crossing(local, conflicting);
    WithoutKeeps(lists.localChanges, heldBack);
    WithoutKeepsConflicts(lists.conflicts, carried);
    d := DiffResult(Lists(WithoutPaths(lists.localChanges, heldBack), changes, WithoutConflicts(lists.conflicts, carried), lists.converged), moves);
    forall m ensures m in d.moves <==> IsMove(s, paths, m) {
      assert m == Move(m.from, m.dest, m.side);
    }
  }

  /** What a compare shows: every path in the list of its class, the unambiguous moves paired. */
  method Diff(scenes: Scenes, s: Sides, includes: Path -> bool, skipped: set<Path>, unreadableDirs: seq<string>) returns (d: DiffResult)
    ensures Pairing(d, scenes, s, Considered(s, includes, skipped, unreadableDirs))
  {
    var lists := DiffPaths(scenes, s, includes, skipped, unreadableDirs);
    d := PairMoves(lists, scenes, s, Considered(s, includes, skipped, unreadableDirs));
  }

  predicate InChanges(changes: seq<FileChange>, p: Path) { exists c :: c in changes && c.path == p }

  predicate InConflicts(conflicts: seq<Conflict>, p: Path) { exists c :: c in conflicts && c.path == p }

  /** A path is in one list at most, and only a moved-to path waiting for its text is in none though it changed. */
  lemma {:induction false} OneListEach(d: DiffResult, scenes: Scenes, s: Sides, paths: set<Path>, p: Path)
    requires Pairing(d, scenes, s, paths) && p in paths
    ensures !(InChanges(d.lists.localChanges, p) && InChanges(d.lists.remoteChanges, p))
    ensures !(InChanges(d.lists.localChanges, p) && InConflicts(d.lists.conflicts, p))
    ensures !(InChanges(d.lists.remoteChanges, p) && InConflicts(d.lists.conflicts, p))
    ensures p in d.lists.converged ==> !InChanges(d.lists.localChanges, p) && !InChanges(d.lists.remoteChanges, p) && !InConflicts(d.lists.conflicts, p)
    ensures InChanges(d.lists.localChanges, p) || InChanges(d.lists.remoteChanges, p) || InConflicts(d.lists.conflicts, p) || p in d.lists.converged
      <==> ClassAt(scenes, s, p) != Unchanged && p !in HeldBack(scenes, s, paths)
  {
    assert InChanges(d.lists.localChanges, p) <==> p in Of(scenes, s, paths, LocalChange) - HeldBack(scenes, s, paths) by {
      assert p in Of(scenes, s, paths, LocalChange) - HeldBack(scenes, s, paths) ==> ChangeAt(s, false, p) in d.lists.localChanges;
    }
    assert InChanges(d.lists.remoteChanges, p) <==> p in Of(scenes, s, paths, RemoteChange) + Carried(scenes, s, paths) by {
      assert p in Of(scenes, s, paths, RemoteChange) + Carried(scenes, s, paths) ==> ChangeAt(s, true, p) in d.lists.remoteChanges;
    }
    assert InConflicts(d.lists.conflicts, p) <==> p in Of(scenes, s, paths, Conflicting) - Carried(scenes, s, paths) by {
      assert p in Of(scenes, s, paths, Conflicting) - Carried(scenes, s, paths) ==> ConflictAt(s, p) in d.lists.conflicts;
    }
    HeldBackIsLocal(scenes, s, paths, p);
  }

  /** A path waiting for the other side's text is a local change; a carried one a conflict. */
  lemma {:induction false} HeldBackIsLocal(scenes: Scenes, s: Sides, paths: set<Path>, p: Path)
    ensures p in HeldBack(scenes, s, paths) ==> ClassAt(scenes, s, p) == LocalChange
    ensures p in Carried(scenes, s, paths) ==> ClassAt(scenes, s, p) == Conflicting
  {
    if p in HeldBack(scenes, s, paths) {
      var m: Move :| m.dest == p && m.side == Here && CarriedBy(scenes, s, paths, m);
      assert p in Arrived(s, paths, Here);
      ArrivedClass(scenes, s, p);
    }
    if p in Carried(scenes, s, paths) {
      var m: Move :| m.from == p && CarriedBy(scenes, s, paths, m);
    }
  }

  /** Asking for one path of a move asks for both. */
  ghost predicate Closed(paths: set<Path>, moves: seq<Move>)
  {
    forall m :: m in moves ==> (m.from in paths <==> m.dest in paths)
  }

  ghost predicate EndpointsApart(moves: seq<Move>)
  {
    && (forall m :: m in moves ==> m.from != m.dest)
    && forall m, n :: m in moves && n in moves && m != n ==> m.from != n.from && m.dest != n.dest && m.from != n.dest
  }

  lemma {:induction false} PairedEndpointsApart(d: DiffResult, scenes: Scenes, s: Sides, paths: set<Path>)
    requires Pairing(d, scenes, s, paths)
    ensures EndpointsApart(d.moves)
  {
    forall m, n | m in d.moves && n in d.moves ensures m.from != m.dest && (m != n ==> m.from != n.from && m.dest != n.dest && m.from != n.dest) {
      MovesApart(s, paths, m, n);
    }
  }

  predicate Touches(paths: set<Path>, m: Move) { m.from in paths || m.dest in paths }

  /** The asked paths and both paths of every move one of them is in. */
  function Widened(asked: set<Path>, moves: seq<Move>): set<Path>
  {
    if moves == [] then asked
    else
      var m := moves[|moves| - 1];
      Widened(asked, moves[..|moves| - 1]) + if Touches(asked, m) then {m.from, m.dest} else {}
  }

  lemma {:induction false} WidenedIs(asked: set<Path>, moves: seq<Move>, p: Path)
    ensures p in Widened(asked, moves) <==> p in asked || exists m :: m in moves && Touches(asked, m) && p in {m.from, m.dest}
  {
    if moves != [] {
      var n := |moves| - 1;
      WidenedIs(asked, moves[..n], p);
      assert forall m :: m in moves <==> m in moves[..n] || m == moves[n];
    }
  }

  /** One pass over the moves. */
  method WithMoves(asked: set<Path>, moves: seq<Move>) returns (taken: set<Path>)
    requires EndpointsApart(moves) && forall i, j :: 0 <= i < j < |moves| ==> moves[i] != moves[j]
    ensures taken == Widened(asked, moves)
  {
    taken := asked;
    for i := 0 to |moves|
      invariant taken == Widened(asked, moves[..i])
    {
      var m := moves[i];
      assert moves[..i + 1][..i] == moves[..i];
      WidenedIs(asked, moves[..i], m.from);
      WidenedIs(asked, moves[..i], m.dest);
      forall n | n in moves[..i] ensures n != m && n in moves {}
      if m.from in taken || m.dest in taken { taken := taken + {m.from, m.dest}; }
    }
    assert moves[..|moves|] == moves;
  }

  /** One pass gives the least set that holds the asked paths and takes every move whole. */
  lemma {:induction false} WidenedIsLeast(asked: set<Path>, moves: seq<Move>, whole: set<Path>)
    requires EndpointsApart(moves)
    ensures asked <= Widened(asked, moves) && Closed(Widened(asked, moves), moves)
    ensures asked <= whole && Closed(whole, moves) ==> Widened(asked, moves) <= whole
  {
    forall p ensures p in Widened(asked, moves) <==> p in asked || exists m :: m in moves && Touches(asked, m) && p in {m.from, m.dest} {
      WidenedIs(asked, moves, p);
    }
  }
}
