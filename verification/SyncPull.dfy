/** What a pull does to the disk: packages/plugin/src/sync/pull-moves.ts and `pullPaths` of packages/plugin/src/sync/engine.ts. */
module SyncPull {
  import opened Common
  import opened SyncDiff
  import opened SyncPairing
  import opened SyncEngine

  /** What a compare saw, and what it made of it. */
  datatype Compared = Compared(snapshot: Files, remote: Files, baseline: Files, found: DiffResult)

  function SidesOf(c: Compared): Sides { Sides(c.snapshot, c.remote, c.baseline) }

  /** The disk still is, at both paths, what the compare saw; the conditions differ with what the move carries. */
  predicate Lands(disk: Files, c: Compared, m: Move)
  {
    if m.side == There then m.dest !in disk && m.from in disk
    else m.from in c.remote && At(disk, m.dest) == At(c.snapshot, m.dest)
  }

  /** A remote move renames the file here; a local one takes the other device's text in at the new path. */
  function Landed(disk: Files, c: Compared, m: Move): Files
    requires Lands(disk, c, m)
  {
    if m.side == There then (disk - {m.from})[m.dest := disk[m.from]] else disk[m.dest := c.remote[m.from]]
  }

  function MovedOn(disk: Files, c: Compared, moves: seq<Move>): Files
  {
    if moves == [] then disk
    else
      var before, m := MovedOn(disk, c, moves[..|moves| - 1]), moves[|moves| - 1];
      if Lands(before, c, m) then Landed(before, c, m) else before
  }

  function EndsOf(m: Move): set<Path> { {m.from, m.dest} }

  /** Where the disk changed by moving. */
  function MovedPaths(disk: Files, c: Compared, moves: seq<Move>): set<Path>
  {
    if moves == [] then {}
    else MovedPaths(disk, c, moves[..|moves| - 1]) + if Lands(disk, c, moves[|moves| - 1]) then EndsOf(moves[|moves| - 1]) else {}
  }

  lemma {:induction false} MovedPathsAre(disk: Files, c: Compared, moves: seq<Move>, p: Path)
    ensures p in MovedPaths(disk, c, moves) <==> exists m :: m in moves && Lands(disk, c, m) && p in EndsOf(m)
  {
    if moves != [] {
      var n := |moves| - 1;
      MovedPathsAre(disk, c, moves[..n], p);
      assert forall m :: m in moves <==> m in moves[..n] || m == moves[n];
    }
  }

  /** The paths that ordinary downloads and deletions leave to the moves. */
  function Endpoints(moves: seq<Move>): set<Path>
  {
    if moves == [] then {} else Endpoints(moves[..|moves| - 1]) + EndsOf(moves[|moves| - 1])
  }

  lemma {:induction false} EndpointsAre(moves: seq<Move>, p: Path)
    ensures p in Endpoints(moves) <==> exists m :: m in moves && p in EndsOf(m)
  {
    if moves != [] {
      var n := |moves| - 1;
      EndpointsAre(moves[..n], p);
      assert forall m :: m in moves <==> m in moves[..n] || m == moves[n];
    }
  }

  /** The content at `dest` once the move has landed. */
  function Brought(disk: Files, c: Compared, m: Move): Option<Hash>
  {
    At(if m.side == There then disk else c.remote, m.from)
  }

  /** A move's own paths after it, whatever the other moves did. */
  ghost predicate MoveLandedAt(disk: Files, after: Files, c: Compared, m: Move)
  {
    if Lands(disk, c, m) then
      && At(after, m.dest) == Brought(disk, c, m)
      && At(after, m.from) == (if m.side == There then None else At(disk, m.from))
    else At(after, m.dest) == At(disk, m.dest) && At(after, m.from) == At(disk, m.from)
  }

  ghost predicate NoRepeats(moves: seq<Move>)
  {
    forall i, j :: 0 <= i < j < |moves| ==> moves[i] != moves[j]
  }

  lemma {:induction false} MovesOnlyThere(disk: Files, c: Compared, moves: seq<Move>, p: Path)
    requires p !in Endpoints(moves)
    ensures At(MovedOn(disk, c, moves), p) == At(disk, p)
  {
    if moves != [] { MovesOnlyThere(disk, c, moves[..|moves| - 1], p); }
  }

  lemma {:induction false} LastApart(moves: seq<Move>)
    requires moves != [] && EndpointsApart(moves) && NoRepeats(moves)
    ensures var n := |moves| - 1; EndpointsApart(moves[..n]) && NoRepeats(moves[..n]) && EndsOf(moves[n]) !! Endpoints(moves[..n])
  {
    var n := |moves| - 1;
    forall p | p in EndsOf(moves[n]) ensures p !in Endpoints(moves[..n]) {
      EndpointsAre(moves[..n], p);
      forall m | m in moves[..n] ensures p !in EndsOf(m) {
        var k :| 0 <= k < n && moves[..n][k] == m;
        assert moves[k] != moves[n] && moves[k] in moves && moves[n] in moves;
      }
    }
    assert forall m :: m in moves[..n] ==> m in moves;
  }

  lemma {:induction false} InEndpoints(moves: seq<Move>, i: nat)
    requires i < |moves|
    ensures EndsOf(moves[i]) <= Endpoints(moves)
  {
    forall p | p in EndsOf(moves[i]) ensures p in Endpoints(moves) { EndpointsAre(moves, p); }
  }

  /** Every move lands or waits on its own. */
  lemma {:induction false} MovesLand(disk: Files, c: Compared, moves: seq<Move>, i: nat)
    requires EndpointsApart(moves) && NoRepeats(moves) && i < |moves|
    ensures MoveLandedAt(disk, MovedOn(disk, c, moves), c, moves[i])
  {
    var n := |moves| - 1;
    var before, last := moves[..n], moves[n];
    LastApart(moves);
    if i == n {
      MovesOnlyThere(disk, c, before, last.from);
      MovesOnlyThere(disk, c, before, last.dest);
      assert last in moves;
      LastLands(disk, MovedOn(disk, c, before), c, last);
    } else {
      MovesLand(disk, c, before, i);
      InEndpoints(before, i);
      StaysLanded(disk, MovedOn(disk, c, before), c, moves[i], last);
    }
  }

  /** A move with other endpoints leaves what an earlier one did. */
  lemma {:induction false} StaysLanded(disk: Files, after: Files, c: Compared, m: Move, last: Move)
    requires MoveLandedAt(disk, after, c, m) && EndsOf(m) !! EndsOf(last)
    ensures MoveLandedAt(disk, if Lands(after, c, last) then Landed(after, c, last) else after, c, m)
  {
  }

  lemma {:induction false} LastLands(disk: Files, before: Files, c: Compared, m: Move)
    requires At(before, m.from) == At(disk, m.from) && At(before, m.dest) == At(disk, m.dest)
    ensures Lands(before, c, m) == Lands(disk, c, m)
    ensures m.from != m.dest ==> MoveLandedAt(disk, if Lands(before, c, m) then Landed(before, c, m) else before, c, m)
  {
  }

  /** One changed path: left alone if the file is not as the compare saw it. */
  function TakenOne(disk: Files, c: Compared, p: Path): Files
  {
    if At(disk, p) != At(c.snapshot, p) then disk else if p in c.remote then disk[p := c.remote[p]] else disk - {p}
  }

  function TakenOn(disk: Files, c: Compared, changes: seq<FileChange>): Files
  {
    if changes == [] then disk
    else TakenOne(TakenOn(disk, c, changes[..|changes| - 1]), c, changes[|changes| - 1].path)
  }

  lemma {:induction false} LastChange(changes: seq<FileChange>)
    requires changes != [] && DistinctPaths(changes)
    ensures var n := |changes| - 1;
      && DistinctPaths(changes[..n])
      && PathsIn(changes) == PathsIn(changes[..n]) + {changes[n].path}
      && changes[n].path !in PathsIn(changes[..n])
  {
    PathsInMore(changes, |changes| - 1);
    assert changes[..|changes|] == changes;
  }

  lemma {:induction false} TakenOneAt(disk: Files, c: Compared, q: Path, p: Path)
    ensures At(TakenOne(disk, c, q), p)
         == if p == q && At(disk, p) == At(c.snapshot, p) then At(c.remote, p) else At(disk, p)
  {
  }

  /** What the plain pull leaves at a path. */
  lemma {:induction false} TakenAt(disk: Files, c: Compared, changes: seq<FileChange>, p: Path)
    requires DistinctPaths(changes)
    ensures At(TakenOn(disk, c, changes), p)
         == if p in PathsIn(changes) && At(disk, p) == At(c.snapshot, p) then At(c.remote, p) else At(disk, p)
  {
    if changes != [] {
      var n := |changes| - 1;
      LastChange(changes);
      TakenAt(disk, c, changes[..n], p);
      TakenOneAt(TakenOn(disk, c, changes[..n]), c, changes[n].path, p);
    }
  }

  /** The paths the plain pull writes. */
  function TakenPaths(disk: Files, c: Compared, changes: seq<FileChange>): set<Path>
  {
    set p | p in PathsIn(changes) && At(disk, p) == At(c.snapshot, p)
  }

  /** The moves a pull was asked for and has something to do for. */
  predicate IsAsked(c: Compared, asked: set<Path>, m: Move)
  {
    Touches(asked, m) && Touches(PathsIn(c.found.lists.remoteChanges), m)
  }

  function AskedOf(c: Compared, asked: set<Path>, moves: seq<Move>): seq<Move>
  {
    if moves == [] then []
    else (
      var n := |moves| - 1;
      AskedOf(c, asked, moves[..n]) + if IsAsked(c, asked, moves[n]) then [moves[n]] else []
    )
  }

  function AskedMoves(c: Compared, asked: set<Path>): seq<Move> { AskedOf(c, asked, c.found.moves) }

  lemma {:induction false} AskedAre(c: Compared, asked: set<Path>, moves: seq<Move>)
    requires NoRepeats(moves)
    ensures forall m :: m in AskedOf(c, asked, moves) <==> m in moves && IsAsked(c, asked, m)
    ensures NoRepeats(AskedOf(c, asked, moves))
  {
    if moves != [] {
      var n := |moves| - 1;
      AskedAre(c, asked, moves[..n]);
      assert moves == moves[..n] + [moves[n]];
      var r := AskedOf(c, asked, moves[..n]);
      forall i | 0 <= i < |r| ensures r[i] != moves[n] {
        assert r[i] in moves[..n];
        var k :| 0 <= k < n && moves[..n][k] == r[i];
      }
    }
  }

  /** The changes a pull was asked for that no asked move takes, as far as it got. */
  function PlainOf(changes: seq<FileChange>, asked: set<Path>, moved: set<Path>, reached: set<Path>): seq<FileChange>
  {
    if changes == [] then []
    else (
      var n := |changes| - 1;
      PlainOf(changes[..n], asked, moved, reached)
      + if changes[n].path in asked && changes[n].path !in moved && changes[n].path in reached then [changes[n]] else []
    )
  }

  lemma {:induction false} PlainAre(changes: seq<FileChange>, asked: set<Path>, moved: set<Path>, reached: set<Path>)
    requires DistinctPaths(changes)
    ensures forall c :: c in PlainOf(changes, asked, moved, reached) <==> c in changes && c.path in asked && c.path !in moved && c.path in reached
    ensures DistinctPaths(PlainOf(changes, asked, moved, reached))
  {
    if changes != [] {
      var n := |changes| - 1;
      PlainAre(changes[..n], asked, moved, reached);
      assert changes == changes[..n] + [changes[n]];
      var r := PlainOf(changes[..n], asked, moved, reached);
      forall i | 0 <= i < |r| ensures r[i].path != changes[n].path {
        assert r[i] in changes[..n];
      }
    }
  }

  function PlainChanges(c: Compared, asked: set<Path>, reached: set<Path>): seq<FileChange>
  {
    PlainOf(c.found.lists.remoteChanges, asked, Endpoints(AskedMoves(c, asked)), reached)
  }

  /** The disk after a pull. */
  function Pulled(disk: Files, c: Compared, asked: set<Path>, reached: set<Path>): Files
  {
    TakenOn(MovedOn(disk, c, AskedMoves(c, asked)), c, PlainChanges(c, asked, reached))
  }

  /** What it wrote: the paths of landed moves, and the plain changes it took. */
  function WrittenBy(disk: Files, c: Compared, asked: set<Path>, reached: set<Path>): set<Path>
  {
    MovedPaths(disk, c, AskedMoves(c, asked)) + TakenPaths(MovedOn(disk, c, AskedMoves(c, asked)), c, PlainChanges(c, asked, reached))
  }

  /** The files on a device's disk. */
  class Disk {
    var files: Files

    constructor (files: Files)
      ensures this.files == files
    {
      this.files := files;
    }

    /** Does nothing, and says so, unless there is a file to rename and room for it. */
    method RenameLocal(from: Path, dest: Path) returns (renamed: bool)
      modifies this
      ensures renamed == (old(dest !in files && from in files))
      ensures files == if renamed then (old(files) - {from})[dest := old(files)[from]] else old(files)
    {
      if dest in files { return false; }
      if from !in files { return false; }
      files := (files - {from})[dest := files[from]];
      renamed := true;
    }

    method Write(p: Path, content: Hash)
      modifies this
      ensures files == old(files)[p := content]
    {
      files := files[p := content];
    }

    method Delete(p: Path)
      modifies this
      ensures files == old(files) - {p}
    {
      files := files - {p};
    }
  }

  /** One move: a rename here, or the other device's text taken in. */
  method PullMove(disk: Disk, c: Compared, m: Move) returns (landed: bool)
    modifies disk
    ensures landed == Lands(old(disk.files), c, m)
    ensures disk.files == if landed then Landed(old(disk.files), c, m) else old(disk.files)
  {
    if m.side == There {
      landed := disk.RenameLocal(m.from, m.dest);
    } else {
      if m.from !in c.remote { return false; }
      if At(disk.files, m.dest) != At(c.snapshot, m.dest) { return false; }
      disk.Write(m.dest, c.remote[m.from]);
      landed := true;
    }
  }

  /** Tries the asked moves one after another; a move leaves both its paths changed or neither. */
  method PullMoves(disk: Disk, c: Compared, asked: set<Path>) returns (paths: set<Path>, written: set<Path>)
    requires EndpointsApart(c.found.moves) && NoRepeats(c.found.moves)
    modifies disk
    ensures disk.files == MovedOn(old(disk.files), c, AskedMoves(c, asked))
    ensures paths == Endpoints(AskedMoves(c, asked)) && written == MovedPaths(old(disk.files), c, AskedMoves(c, asked))
  {
    var moves := AskedMoves(c, asked);
    AskedAre(c, asked, c.found.moves);
    paths := Endpoints(moves);
    written := {};
    for i := 0 to |moves|
      invariant disk.files == MovedOn(old(disk.files), c, moves[..i]) && written == MovedPaths(old(disk.files), c, moves[..i])
    {
      NextMove(old(disk.files), c, moves, i);
      var landed := PullMove(disk, c, moves[i]);
      if landed { written := written + {moves[i].from, moves[i].dest}; }
    }
    assert moves[..|moves|] == moves;
  }

  lemma {:induction false} NextMove(disk: Files, c: Compared, moves: seq<Move>, i: nat)
    requires EndpointsApart(moves) && NoRepeats(moves) && i < |moves|
    ensures moves[..i + 1][..i] == moves[..i]
    ensures Lands(MovedOn(disk, c, moves[..i]), c, moves[i]) == Lands(disk, c, moves[i])
  {
    var upto := moves[..i + 1];
    assert upto[..i] == moves[..i];
    assert forall m :: m in upto ==> m in moves;
    LastApart(upto);
    MovesOnlyThere(disk, c, moves[..i], moves[i].from);
    MovesOnlyThere(disk, c, moves[..i], moves[i].dest);
    LastLands(disk, MovedOn(disk, c, moves[..i]), c, moves[i]);
  }

  /** The baseline follows `written`, which may be less than was asked and, by moves, more. */
  method PullPaths(disk: Disk, previous: Files, c: Compared, asked: set<Path>, reached: set<Path>) returns (baseline: Files, written: set<Path>)
    requires EndpointsApart(c.found.moves) && NoRepeats(c.found.moves) && DistinctPaths(c.found.lists.remoteChanges)
    modifies disk
    ensures disk.files == Pulled(old(disk.files), c, asked, reached)
    ensures written == WrittenBy(old(disk.files), c, asked, reached)
    ensures baseline == Overlay(previous, c.remote, written)
  {
    var moved, renamed := PullMoves(disk, c, asked);
    var changes := PlainOf(c.found.lists.remoteChanges, asked, moved, reached);
    PlainAre(c.found.lists.remoteChanges, asked, moved, reached);
    var taken := TakeChanges(disk, c, changes);
    written := renamed + taken;
    baseline := AdvanceBaselineForPaths(previous, c.remote, written);
  }

  method TakeChanges(disk: Disk, c: Compared, changes: seq<FileChange>) returns (taken: set<Path>)
    requires DistinctPaths(changes)
    modifies disk
    ensures disk.files == TakenOn(old(disk.files), c, changes) && taken == TakenPaths(old(disk.files), c, changes)
  {
    taken := {};
    assert PathsIn(changes[..0]) == {};
    for i := 0 to |changes|
      invariant disk.files == TakenOn(old(disk.files), c, changes[..i]) && taken == TakenPaths(old(disk.files), c, changes[..i])
    {
      var p := changes[i].path;
      NextTaken(old(disk.files), c, changes, i);
      if At(disk.files, p) == At(c.snapshot, p) {
        if p in c.remote { disk.Write(p, c.remote[p]); } else { disk.Delete(p); }
        taken := taken + {p};
      }
    }
    assert changes[..|changes|] == changes;
  }

  lemma {:induction false} NextTaken(disk: Files, c: Compared, changes: seq<FileChange>, i: nat)
    requires DistinctPaths(changes) && i < |changes|
    ensures changes[..i + 1][..i] == changes[..i]
    ensures At(TakenOn(disk, c, changes[..i]), changes[i].path) == At(disk, changes[i].path)
    ensures TakenPaths(disk, c, changes[..i + 1])
         == TakenPaths(disk, c, changes[..i]) + (if At(disk, changes[i].path) == At(c.snapshot, changes[i].path) then {changes[i].path} else {})
  {
    PathsInMore(changes, i);
    TakenAt(disk, c, changes[..i], changes[i].path);
  }

  /** What a pull leaves at a path no asked move has. */
  lemma {:induction false} PulledAt(disk: Files, c: Compared, asked: set<Path>, reached: set<Path>, p: Path)
    requires EndpointsApart(c.found.moves) && NoRepeats(c.found.moves) && DistinctPaths(c.found.lists.remoteChanges)
    requires p !in Endpoints(AskedMoves(c, asked))
    ensures p in WrittenBy(disk, c, asked, reached)
      <==> p in PathsIn(c.found.lists.remoteChanges) && p in asked && p in reached && At(disk, p) == At(c.snapshot, p)
    ensures At(Pulled(disk, c, asked, reached), p) == At(if p in WrittenBy(disk, c, asked, reached) then c.remote else disk, p)
  {
    var moves, changes := AskedMoves(c, asked), PlainChanges(c, asked, reached);
    PlainAre(c.found.lists.remoteChanges, asked, Endpoints(moves), reached);
    MovesOnlyThere(disk, c, moves, p);
    TakenAt(MovedOn(disk, c, moves), c, changes, p);
    MovedPathsAre(disk, c, moves, p);
    EndpointsAre(moves, p);
  }

  /** The plain changes a pull takes are at no asked move's end. */
  lemma {:induction false} PlainElsewhere(c: Compared, asked: set<Path>, reached: set<Path>, m: Move)
    requires DistinctPaths(c.found.lists.remoteChanges) && m in AskedMoves(c, asked)
    ensures DistinctPaths(PlainChanges(c, asked, reached)) && EndsOf(m) !! PathsIn(PlainChanges(c, asked, reached))
  {
    var moves := AskedMoves(c, asked);
    var i :| 0 <= i < |moves| && moves[i] == m;
    InEndpoints(moves, i);
    PlainAre(c.found.lists.remoteChanges, asked, Endpoints(moves), reached);
  }

  lemma {:induction false} PulledMoveLands(disk: Files, c: Compared, asked: set<Path>, reached: set<Path>, m: Move)
    requires EndpointsApart(c.found.moves) && NoRepeats(c.found.moves) && DistinctPaths(c.found.lists.remoteChanges)
    requires m in AskedMoves(c, asked)
    ensures MoveLandedAt(disk, Pulled(disk, c, asked, reached), c, m)
  {
    var moves, changes := AskedMoves(c, asked), PlainChanges(c, asked, reached);
    AskedAre(c, asked, c.found.moves);
    var i :| 0 <= i < |moves| && moves[i] == m;
    MovesLand(disk, c, moves, i);
    PlainElsewhere(c, asked, reached, m);
    TakenAt(MovedOn(disk, c, moves), c, changes, m.from);
    TakenAt(MovedOn(disk, c, moves), c, changes, m.dest);
  }

  lemma {:induction false} MoveWrites(disk: Files, c: Compared, moves: seq<Move>, m: Move, p: Path)
    requires EndpointsApart(moves) && NoRepeats(moves) && m in moves && p in EndsOf(m)
    ensures p in MovedPaths(disk, c, moves) <==> Lands(disk, c, m)
  {
    MovedPathsAre(disk, c, moves, p);
  }

  /** What a pull leaves at the paths of an asked move. */
  lemma {:induction false} PulledMove(disk: Files, c: Compared, asked: set<Path>, reached: set<Path>, m: Move)
    requires EndpointsApart(c.found.moves) && NoRepeats(c.found.moves) && DistinctPaths(c.found.lists.remoteChanges)
    requires m in AskedMoves(c, asked)
    ensures MoveLandedAt(disk, Pulled(disk, c, asked, reached), c, m)
    ensures m.from in WrittenBy(disk, c, asked, reached) <==> Lands(disk, c, m)
    ensures m.dest in WrittenBy(disk, c, asked, reached) <==> Lands(disk, c, m)
  {
    PulledMoveLands(disk, c, asked, reached, m);
    AskedAre(c, asked, c.found.moves);
    PlainElsewhere(c, asked, reached, m);
    MoveWrites(disk, c, AskedMoves(c, asked), m, m.from);
    MoveWrites(disk, c, AskedMoves(c, asked), m, m.dest);
  }
}
