/** Where a compare lists a path once moves are paired, and what a change of other paths does to that. */
module SyncPlaces {
  import opened SyncDiff
  import opened SyncMoves
  import opened SyncPairing

  /** Unchanged paths are listed nowhere, nor is a new path that waits for the other side's text. */
  datatype Place = Nowhere | AmongLocal | AmongRemote | AmongConflicts | AmongConverged

  ghost function PlaceAt(scenes: Scenes, s: Sides, paths: set<Path>, p: Path): Place
  {
    if p !in paths then Nowhere
    else match ClassAt(scenes, s, p)
      case Unchanged => Nowhere
      case LocalChange => if p in HeldBack(scenes, s, paths) then Nowhere else AmongLocal
      case RemoteChange => AmongRemote
      case Conflicting => if p in Carried(scenes, s, paths) then AmongRemote else AmongConflicts
      case Converged => AmongConverged
  }

  /** The place of a path is the list a compare has it in. */
  lemma {:induction false} PlaceIsList(d: DiffResult, scenes: Scenes, s: Sides, paths: set<Path>, p: Path)
    requires Pairing(d, scenes, s, paths)
    ensures InChanges(d.lists.localChanges, p) <==> PlaceAt(scenes, s, paths, p) == AmongLocal
    ensures InChanges(d.lists.remoteChanges, p) <==> PlaceAt(scenes, s, paths, p) == AmongRemote
    ensures InConflicts(d.lists.conflicts, p) <==> PlaceAt(scenes, s, paths, p) == AmongConflicts
    ensures p in d.lists.converged <==> PlaceAt(scenes, s, paths, p) == AmongConverged
  {
    HeldBackIsLocal(scenes, s, paths, p);
    assert InChanges(d.lists.localChanges, p) <==> p in Of(scenes, s, paths, LocalChange) - HeldBack(scenes, s, paths) by {
      assert p in Of(scenes, s, paths, LocalChange) - HeldBack(scenes, s, paths) ==> ChangeAt(s, false, p) in d.lists.localChanges;
    }
    assert InChanges(d.lists.remoteChanges, p) <==> p in Of(scenes, s, paths, RemoteChange) + Carried(scenes, s, paths) by {
      assert p in Of(scenes, s, paths, RemoteChange) + Carried(scenes, s, paths) ==> ChangeAt(s, true, p) in d.lists.remoteChanges;
    }
    assert InConflicts(d.lists.conflicts, p) <==> p in Of(scenes, s, paths, Conflicting) - Carried(scenes, s, paths) by {
      assert p in Of(scenes, s, paths, Conflicting) - Carried(scenes, s, paths) ==> ConflictAt(s, p) in d.lists.conflicts;
    }
  }

  // ---- what pairing pairs from

  /** The candidates of either side's moves. */
  datatype Pools = Pools(goneHere: Candidates, arrivedHere: Candidates, goneThere: Candidates, arrivedThere: Candidates)

  function PoolsOf(s: Sides, paths: set<Path>): Pools
  {
    Pools(Gone(s, paths, Here), Arrived(s, paths, Here), Gone(s, paths, There), Arrived(s, paths, There))
  }

  predicate PairedIn(pools: Pools, m: Move)
  {
    if m.side == Here then Paired(pools.goneHere, pools.arrivedHere, m.from, m.dest)
    else Paired(pools.goneThere, pools.arrivedThere, m.from, m.dest)
  }

  /** A move takes the file away from this path. */
  ghost predicate Leaves(pools: Pools, p: Path)
  {
    exists m: Move {:trigger PairedIn(pools, m)} :: m.from == p && PairedIn(pools, m)
  }

  /** A move made here brings the file to this path from a conflicting one. */
  ghost predicate Awaits(pools: Pools, conflicting: set<Path>, p: Path)
  {
    exists m: Move {:trigger PairedIn(pools, m)} :: m.dest == p && m.side == Here && m.from in conflicting && PairedIn(pools, m)
  }

  lemma {:induction false} MovePairs(s: Sides, paths: set<Path>, m: Move)
    ensures IsMove(s, paths, m) <==> PairedIn(PoolsOf(s, paths), m)
  {
  }

  lemma {:induction false} CarriedLeaves(scenes: Scenes, s: Sides, paths: set<Path>, p: Path)
    ensures p in Carried(scenes, s, paths) <==> p in Of(scenes, s, paths, Conflicting) && Leaves(PoolsOf(s, paths), p)
  {
    if p in Carried(scenes, s, paths) {
      var m: Move :| m.from == p && CarriedBy(scenes, s, paths, m);
      MovePairs(s, paths, m);
    }
    if p in Of(scenes, s, paths, Conflicting) && Leaves(PoolsOf(s, paths), p) {
      var m: Move :| m.from == p && PairedIn(PoolsOf(s, paths), m);
      MovePairs(s, paths, m);
      assert CarriedBy(scenes, s, paths, m);
    }
  }

  lemma {:induction false} HeldBackAwaits(scenes: Scenes, s: Sides, paths: set<Path>, p: Path)
    ensures p in HeldBack(scenes, s, paths) <==> Awaits(PoolsOf(s, paths), Of(scenes, s, paths, Conflicting), p)
  {
    var conflicting := Of(scenes, s, paths, Conflicting);
    if p in HeldBack(scenes, s, paths) {
      var m: Move :| m.dest == p && m.side == Here && CarriedBy(scenes, s, paths, m);
      MovePairs(s, paths, m);
      assert m.from in conflicting;
    }
    if Awaits(PoolsOf(s, paths), conflicting, p) {
      var m: Move :| m.dest == p && m.side == Here && m.from in conflicting && PairedIn(PoolsOf(s, paths), m);
      MovePairs(s, paths, m);
      assert CarriedBy(scenes, s, paths, m);
    }
  }

  // ---- a change of other paths

  /** What was looked at then and what is looked at now differ at `touched` only. */
  ghost predicate SameBut(s: Sides, looked: set<Path>, t: Sides, now: set<Path>, touched: set<Path>)
  {
    forall p {:trigger p in touched} :: p !in touched ==>
      && At(s.local, p) == At(t.local, p) && At(s.remote, p) == At(t.remote, p) && At(s.baseline, p) == At(t.baseline, p)
      && (p in looked <==> p in now)
  }

  /** The candidates with those at `touched` exchanged. */
  function Exchanged(before: Candidates, touched: set<Path>, now: Candidates): Candidates { (before - touched) + now }

  function PoolsAfter(before: Pools, touched: set<Path>, now: Pools): Pools
  {
    Pools(Exchanged(before.goneHere, touched, now.goneHere), Exchanged(before.arrivedHere, touched, now.arrivedHere),
          Exchanged(before.goneThere, touched, now.goneThere), Exchanged(before.arrivedThere, touched, now.arrivedThere))
  }

  lemma {:induction false} CandidatesEqual(x: Candidates, y: Candidates)
    requires forall p :: (p in x <==> p in y) && (p in x ==> x[p] == y[p])
    ensures x == y
  {
  }

  lemma {:induction false} GoneAtPath(s: Sides, looked: set<Path>, t: Sides, now: set<Path>, touched: set<Path>, side: MoveSide, p: Path)
    requires SameBut(s, looked, t, now, touched)
    ensures var x, y := Gone(t, now, side), Exchanged(Gone(s, looked, side), touched, Gone(t, now * touched, side));
      (p in x <==> p in y) && (p in x ==> x[p] == y[p])
  {
    if p !in touched { assert At(s.local, p) == At(t.local, p) && At(s.remote, p) == At(t.remote, p) && At(s.baseline, p) == At(t.baseline, p); }
  }

  lemma {:induction false} GoneChanges(s: Sides, looked: set<Path>, t: Sides, now: set<Path>, touched: set<Path>, side: MoveSide)
    requires SameBut(s, looked, t, now, touched)
    ensures Gone(t, now, side) == Exchanged(Gone(s, looked, side), touched, Gone(t, now * touched, side))
  {
    var x, y := Gone(t, now, side), Exchanged(Gone(s, looked, side), touched, Gone(t, now * touched, side));
    forall p ensures (p in x <==> p in y) && (p in x ==> x[p] == y[p]) { GoneAtPath(s, looked, t, now, touched, side, p); }
    CandidatesEqual(x, y);
  }

  lemma {:induction false} ArrivedAtPath(s: Sides, looked: set<Path>, t: Sides, now: set<Path>, touched: set<Path>, side: MoveSide, p: Path)
    requires SameBut(s, looked, t, now, touched)
    ensures var x, y := Arrived(t, now, side), Exchanged(Arrived(s, looked, side), touched, Arrived(t, now * touched, side));
      (p in x <==> p in y) && (p in x ==> x[p] == y[p])
  {
    if p !in touched { assert At(s.local, p) == At(t.local, p) && At(s.remote, p) == At(t.remote, p) && At(s.baseline, p) == At(t.baseline, p); }
  }

  lemma {:induction false} ArrivedChanges(s: Sides, looked: set<Path>, t: Sides, now: set<Path>, touched: set<Path>, side: MoveSide)
    requires SameBut(s, looked, t, now, touched)
    ensures Arrived(t, now, side) == Exchanged(Arrived(s, looked, side), touched, Arrived(t, now * touched, side))
  {
    var x, y := Arrived(t, now, side), Exchanged(Arrived(s, looked, side), touched, Arrived(t, now * touched, side));
    forall p ensures (p in x <==> p in y) && (p in x ==> x[p] == y[p]) { ArrivedAtPath(s, looked, t, now, touched, side, p); }
    CandidatesEqual(x, y);
  }

  lemma {:induction false} PoolsChange(s: Sides, looked: set<Path>, t: Sides, now: set<Path>, touched: set<Path>)
    requires SameBut(s, looked, t, now, touched)
    ensures PoolsOf(t, now) == PoolsAfter(PoolsOf(s, looked), touched, PoolsOf(t, now * touched))
  {
    GoneChanges(s, looked, t, now, touched, Here);
    GoneChanges(s, looked, t, now, touched, There);
    ArrivedChanges(s, looked, t, now, touched, Here);
    ArrivedChanges(s, looked, t, now, touched, There);
  }

  lemma {:induction false} ConflictsChange(scenes: Scenes, s: Sides, looked: set<Path>, t: Sides, now: set<Path>, touched: set<Path>)
    requires SameBut(s, looked, t, now, touched)
    ensures Of(scenes, t, now, Conflicting) == (Of(scenes, s, looked, Conflicting) - touched) + Of(scenes, t, now * touched, Conflicting)
  {
    forall p ensures p in Of(scenes, t, now, Conflicting) <==> p in (Of(scenes, s, looked, Conflicting) - touched) + Of(scenes, t, now * touched, Conflicting) {
      if p !in touched { assert At(s.local, p) == At(t.local, p) && At(s.remote, p) == At(t.remote, p) && At(s.baseline, p) == At(t.baseline, p); }
    }
  }

  /** A path of this class pairs, as far as its place goes, from these candidates as from those. */
  ghost predicate PairsAlike(kind: Class, before: Pools, crossed: set<Path>, after: Pools, crossing: set<Path>, p: Path)
  {
    match kind
    case Conflicting => Leaves(before, p) <==> Leaves(after, p)
    case LocalChange => Awaits(before, crossed, p) <==> Awaits(after, crossing, p)
    case _ => true
  }

  /** A path none of the changes is at keeps its class, and its place exactly when it pairs as it did. */
  lemma {:induction false} PlaceKept(scenes: Scenes, s: Sides, looked: set<Path>, t: Sides, now: set<Path>, touched: set<Path>, p: Path)
    requires SameBut(s, looked, t, now, touched) && p !in touched
    ensures ClassAt(scenes, t, p) == ClassAt(scenes, s, p)
    ensures PlaceAt(scenes, t, now, p) == PlaceAt(scenes, s, looked, p)
      <==> (p !in looked
            || PairsAlike(ClassAt(scenes, s, p), PoolsOf(s, looked), Of(scenes, s, looked, Conflicting),
                          PoolsOf(t, now), Of(scenes, t, now, Conflicting), p))
  {
    assert ClassAt(scenes, t, p) == ClassAt(scenes, s, p) && (p in looked <==> p in now);
    CarriedLeaves(scenes, s, looked, p);
    CarriedLeaves(scenes, t, now, p);
    HeldBackAwaits(scenes, s, looked, p);
    HeldBackAwaits(scenes, t, now, p);
  }

  /** Pairing looks at candidates of one content only. */
  lemma {:induction false} PairedByContent(gone: Candidates, arrived: Candidates, gone2: Candidates, arrived2: Candidates, f: Path, t: Path, h: string)
    requires WithHash(gone, h) == WithHash(gone2, h) && WithHash(arrived, h) == WithHash(arrived2, h)
    requires (f in WithHash(gone, h) || t in WithHash(arrived, h))
    ensures Paired(gone, arrived, f, t) <==> Paired(gone2, arrived2, f, t)
  {
    assert f in WithHash(gone2, h) || t in WithHash(arrived2, h);
    forall name: string ensures WithName(gone, h, name) == WithName(gone2, h, name) && WithName(arrived, h, name) == WithName(arrived2, h, name) {
      SameNames(gone, gone2, h, name);
      SameNames(arrived, arrived2, h, name);
    }
  }

  lemma {:induction false} SameNames(c: Candidates, d: Candidates, h: string, name: string)
    requires WithHash(c, h) == WithHash(d, h)
    ensures WithName(c, h, name) == WithName(d, h, name)
  {
    forall p ensures p in WithName(c, h, name) <==> p in WithName(d, h, name) {
      assert p in WithHash(c, h) <==> p in WithHash(d, h);
    }
  }
}
