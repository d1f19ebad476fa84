/** How pushes and pulls leave the paths they were not asked for, moves paired. */
module SyncStanding {
  import opened Common
  import opened SyncDiff
  import opened SyncMoves
  import opened SyncPairing
  import opened SyncEngine
  import opened SyncPull
  import opened SyncRuns
  import opened SyncPlaces

  /** What a device that looks now, past what it skips, compares. */
  function NowSides(w: World, d: Device, skipped: set<Path>): Sides { SidesNow(w, d, d.disk - skipped) }

  function NowPools(w: World, d: Device, skipped: set<Path>): Pools { PoolsOf(NowSides(w, d, skipped), Looked(w, d, skipped)) }

  function NowConflicts(scenes: Scenes, w: World, d: Device, skipped: set<Path>): set<Path>
  {
    Of(scenes, NowSides(w, d, skipped), Looked(w, d, skipped), Conflicting)
  }

  /** The list a compare would have a path in now. */
  ghost function PlaceNow(scenes: Scenes, w: World, d: Device, skipped: set<Path>, p: Path): Place
  {
    PlaceAt(scenes, NowSides(w, d, skipped), Looked(w, d, skipped), p)
  }

  // ---- a push

  function HeadAfter(w: World, d: Device, asked: set<Path>): World
    requires d.saw.Some?
  {
    w.(head := Some(Manifest(w.next, Published(d.saw.value.compared, asked))))
  }

  /** What pairing works from once a push is out: without the pushed paths, but for those the disk lost or gained since. */
  function PushedPools(w: World, d: Device, asked: set<Path>, skipped: set<Path>): Pools
    requires d.saw.Some?
  {
    var c, before := d.saw.value.compared, NowPools(w, d, skipped);
    var pushed := PushedPaths(c, asked);
    Pools(
      Exchanged(before.goneHere, pushed, map p | p in pushed && p !in skipped && p in c.snapshot && p !in d.disk :: c.snapshot[p]),
      Exchanged(before.arrivedHere, pushed, map p | p in pushed && p !in skipped && p !in c.snapshot && p in d.disk :: d.disk[p]),
      before.goneThere, before.arrivedThere)
  }

  /** At a pushed path the head and the baseline both hold what was pushed. */
  lemma {:induction false} PushedAt(scenes: Scenes, w: World, d: Device, asked: set<Path>, p: Path)
    requires DeviceOk(scenes, w, d) && d.saw.Some? && Publishes(w, d)
    ensures var c, d2, w2 := d.saw.value.compared, PushedBy(d, asked), HeadAfter(w, d, asked);
      if p in PushedPaths(c, asked) then At(FilesOf(w2.head), p) == At(BaseOf(d2), p) == At(c.snapshot, p)
      else At(FilesOf(w2.head), p) == At(FilesOf(w.head), p) && At(BaseOf(d2), p) == At(BaseOf(d), p)
  {
    var c := d.saw.value.compared;
    var pushed, files := PushedPaths(c, asked), Published(c, asked);
    assert SawOk(scenes, w, d, d.saw.value);
    OverlayAt(c.remote, c.snapshot, pushed, p);
    DeltaOfOverlay(c.remote, c.snapshot, pushed);
    OverlayAt(BaseOf(d), files, Delta(c.remote, files), p);
  }

  /** And held one content before. */
  lemma {:induction false} PushedAgreed(scenes: Scenes, w: World, d: Device, asked: set<Path>, p: Path)
    requires DeviceOk(scenes, w, d) && d.saw.Some? && Publishes(w, d) && w.head.Some?
    requires p in PushedPaths(d.saw.value.compared, asked)
    ensures SameContent(scenes, At(FilesOf(w.head), p), At(BaseOf(d), p))
  {
    var saw := d.saw.value;
    assert SawOk(scenes, w, d, saw);
    PushedIsLocal(saw.compared, scenes, saw.paths, asked, p);
  }

  lemma {:induction false} PushSame(scenes: Scenes, w: World, d: Device, asked: set<Path>, skipped: set<Path>)
    requires DeviceOk(scenes, w, d) && d.saw.Some? && Publishes(w, d) && w.head.Some?
    ensures var d2, w2 := PushedBy(d, asked), HeadAfter(w, d, asked);
      SameBut(NowSides(w, d, skipped), Looked(w, d, skipped), NowSides(w2, d2, skipped), Looked(w2, d2, skipped), PushedPaths(d.saw.value.compared, asked))
  {
    var pushed := PushedPaths(d.saw.value.compared, asked);
    var d2, w2 := PushedBy(d, asked), HeadAfter(w, d, asked);
    var s, t := NowSides(w, d, skipped), NowSides(w2, d2, skipped);
    forall p | p !in pushed
      ensures At(s.local, p) == At(t.local, p) && At(s.remote, p) == At(t.remote, p) && At(s.baseline, p) == At(t.baseline, p)
      ensures p in Looked(w, d, skipped) <==> p in Looked(w2, d2, skipped)
    {
      PushedAt(scenes, w, d, asked, p);
    }
  }

  /** What is left to pair at a pushed path, before and after. */
  lemma {:induction false} PushedCandidate(scenes: Scenes, w: World, d: Device, asked: set<Path>, skipped: set<Path>, p: Path)
    requires DeviceOk(scenes, w, d) && d.saw.Some? && Publishes(w, d) && w.head.Some?
    requires p in PushedPaths(d.saw.value.compared, asked)
    ensures var c, d2, w2 := d.saw.value.compared, PushedBy(d, asked), HeadAfter(w, d, asked);
      var before, t, now := NowPools(w, d, skipped), NowSides(w2, d2, skipped), Looked(w2, d2, skipped);
      && p !in before.goneThere && p !in before.arrivedThere
      && p !in Gone(t, now, There) && p !in Arrived(t, now, There)
      && (p in Gone(t, now, Here) <==> p !in skipped && p in c.snapshot && p !in d.disk)
      && (p in Arrived(t, now, Here) <==> p !in skipped && p !in c.snapshot && p in d.disk)
      && (p in Gone(t, now, Here) ==> Gone(t, now, Here)[p] == c.snapshot[p])
      && (p in Arrived(t, now, Here) ==> Arrived(t, now, Here)[p] == d.disk[p])
  {
    PushedAt(scenes, w, d, asked, p);
    PushedAgreed(scenes, w, d, asked, p);
  }

  lemma {:induction false} PushedNoConflict(scenes: Scenes, w: World, d: Device, asked: set<Path>, skipped: set<Path>, p: Path)
    requires DeviceOk(scenes, w, d) && d.saw.Some? && Publishes(w, d) && w.head.Some?
    ensures p in NowConflicts(scenes, HeadAfter(w, d, asked), PushedBy(d, asked), skipped) <==> p in NowConflicts(scenes, w, d, skipped)
  {
    var d2, w2 := PushedBy(d, asked), HeadAfter(w, d, asked);
    var s, t := NowSides(w, d, skipped), NowSides(w2, d2, skipped);
    PushedAt(scenes, w, d, asked, p);
    PushSame(scenes, w, d, asked, skipped);
    if p in PushedPaths(d.saw.value.compared, asked) {
      PushedAgreed(scenes, w, d, asked, p);
      AgreedIsNoConflict(scenes, s, p);
      AgreedIsNoConflict(scenes, t, p);
    } else {
      SameClass(scenes, s, t, p);
    }
  }

  lemma {:induction false} AgreedIsNoConflict(scenes: Scenes, s: Sides, p: Path)
    requires SameContent(scenes, At(s.remote, p), At(s.baseline, p))
    ensures ClassAt(scenes, s, p) != Conflicting
  {
  }

  lemma {:induction false} SameClass(scenes: Scenes, s: Sides, t: Sides, p: Path)
    requires At(s.local, p) == At(t.local, p) && At(s.remote, p) == At(t.remote, p) && At(s.baseline, p) == At(t.baseline, p)
    ensures ClassAt(scenes, s, p) == ClassAt(scenes, t, p)
  {
  }

  /** Pairing the other side's moves is as it was; the pushed paths are out of this side's, save those edited since. */
  lemma {:induction false} PushPools(scenes: Scenes, w: World, d: Device, asked: set<Path>, skipped: set<Path>)
    requires DeviceOk(scenes, w, d) && d.saw.Some? && Publishes(w, d) && w.head.Some?
    ensures NowPools(HeadAfter(w, d, asked), PushedBy(d, asked), skipped) == PushedPools(w, d, asked, skipped)
  {
    var pushed := PushedPaths(d.saw.value.compared, asked);
    var d2, w2 := PushedBy(d, asked), HeadAfter(w, d, asked);
    var after, r := NowPools(w2, d2, skipped), PushedPools(w, d, asked, skipped);
    PushSame(scenes, w, d, asked, skipped);
    PoolsChange(NowSides(w, d, skipped), Looked(w, d, skipped), NowSides(w2, d2, skipped), Looked(w2, d2, skipped), pushed);
    forall p ensures SameCandidate(after, r, p) {
      if p in pushed { PushedCandidate(scenes, w, d, asked, skipped, p); }
    }
    SameCandidates(after, r);
  }

  ghost predicate SameCandidate(x: Pools, y: Pools, p: Path)
  {
    && (p in x.goneHere <==> p in y.goneHere) && (p in x.goneHere ==> x.goneHere[p] == y.goneHere[p])
    && (p in x.arrivedHere <==> p in y.arrivedHere) && (p in x.arrivedHere ==> x.arrivedHere[p] == y.arrivedHere[p])
    && (p in x.goneThere <==> p in y.goneThere) && (p in x.goneThere ==> x.goneThere[p] == y.goneThere[p])
    && (p in x.arrivedThere <==> p in y.arrivedThere) && (p in x.arrivedThere ==> x.arrivedThere[p] == y.arrivedThere[p])
  }

  lemma {:induction false} SameCandidates(x: Pools, y: Pools)
    requires forall p :: SameCandidate(x, y, p)
    ensures x == y
  {
    forall p ensures (p in x.goneHere <==> p in y.goneHere) && (p in x.goneHere ==> x.goneHere[p] == y.goneHere[p]) { assert SameCandidate(x, y, p); }
    forall p ensures (p in x.arrivedHere <==> p in y.arrivedHere) && (p in x.arrivedHere ==> x.arrivedHere[p] == y.arrivedHere[p]) { assert SameCandidate(x, y, p); }
    forall p ensures (p in x.goneThere <==> p in y.goneThere) && (p in x.goneThere ==> x.goneThere[p] == y.goneThere[p]) { assert SameCandidate(x, y, p); }
    forall p ensures (p in x.arrivedThere <==> p in y.arrivedThere) && (p in x.arrivedThere ==> x.arrivedThere[p] == y.arrivedThere[p]) { assert SameCandidate(x, y, p); }
    assert x.goneHere == y.goneHere && x.arrivedHere == y.arrivedHere && x.goneThere == y.goneThere && x.arrivedThere == y.arrivedThere;
  }

  /** The moves a compare would pair after a push. */
  lemma {:induction false} PushMovesExactly(scenes: Scenes, ws: seq<World>, steps: seq<Step>, i: nat, skipped: set<Path>, m: Move)
    requires Run(scenes, ws, steps) && i < |steps| && steps[i].Push?
    requires Publishes(ws[i], ws[i].devices[steps[i].device]) && ws[i].head.Some?
    ensures var d2 := ws[i + 1].devices[steps[i].device];
      IsMove(NowSides(ws[i + 1], d2, skipped), Looked(ws[i + 1], d2, skipped), m)
      <==> PairedIn(PushedPools(ws[i], ws[i].devices[steps[i].device], steps[i].asked, skipped), m)
  {
    var d := ws[i].devices[steps[i].device];
    PushWorld(scenes, ws, steps, i);
    PushPools(scenes, ws[i], d, steps[i].asked, skipped);
    var d2 := ws[i + 1].devices[steps[i].device];
    assert NowPools(ws[i + 1], d2, skipped) == PushedPools(ws[i], d, steps[i].asked, skipped);
    MovePairs(NowSides(ws[i + 1], d2, skipped), Looked(ws[i + 1], d2, skipped), m);
  }

  lemma {:induction false} PushWorld(scenes: Scenes, ws: seq<World>, steps: seq<Step>, i: nat)
    requires Run(scenes, ws, steps) && i < |steps| && steps[i].Push? && Publishes(ws[i], ws[i].devices[steps[i].device])
    ensures var d := ws[i].devices[steps[i].device];
      && DeviceOk(scenes, ws[i], d) && ws[i + 1].devices[steps[i].device] == PushedBy(d, steps[i].asked)
      && ws[i + 1].head == HeadAfter(ws[i], d, steps[i].asked).head
  {
    RunOk(scenes, ws, steps, i);
    assert Enabled(scenes, ws[i], steps[i]) && ws[i + 1] == Do(scenes, ws[i], steps[i]);
  }

  /** What keeps the place of a path a published push was not asked for. */
  ghost predicate PushLeavesPlace(scenes: Scenes, w: World, d: Device, asked: set<Path>, skipped: set<Path>, p: Path)
    requires d.saw.Some?
  {
    var conflicts := NowConflicts(scenes, w, d, skipped);
    || p in skipped
    || (if w.head.None? then p !in BaseOf(d)
        else PairsAlike(ClassAt(scenes, NowSides(w, d, skipped), p), NowPools(w, d, skipped), conflicts, PushedPools(w, d, asked, skipped), conflicts, p))
  }

  lemma {:induction false} PushConflicts(scenes: Scenes, w: World, d: Device, asked: set<Path>, skipped: set<Path>)
    requires DeviceOk(scenes, w, d) && d.saw.Some? && Publishes(w, d) && w.head.Some?
    ensures NowConflicts(scenes, HeadAfter(w, d, asked), PushedBy(d, asked), skipped) == NowConflicts(scenes, w, d, skipped)
  {
    var before, after := NowConflicts(scenes, w, d, skipped), NowConflicts(scenes, HeadAfter(w, d, asked), PushedBy(d, asked), skipped);
    forall q ensures q in after <==> q in before {
      PushedNoConflict(scenes, w, d, asked, skipped, q);
    }
  }

  lemma {:induction false} PlacesAre(scenes: Scenes, w: World, d: Device, w2: World, d2: Device, skipped: set<Path>, touched: set<Path>, p: Path)
    requires SameBut(NowSides(w, d, skipped), Looked(w, d, skipped), NowSides(w2, d2, skipped), Looked(w2, d2, skipped), touched) && p !in touched
    ensures PlaceNow(scenes, w2, d2, skipped, p) == PlaceNow(scenes, w, d, skipped, p)
      <==> (p !in Looked(w, d, skipped)
            || PairsAlike(ClassAt(scenes, NowSides(w, d, skipped), p), NowPools(w, d, skipped), NowConflicts(scenes, w, d, skipped),
                          NowPools(w2, d2, skipped), NowConflicts(scenes, w2, d2, skipped), p))
  {
    PlaceKept(scenes, NowSides(w, d, skipped), Looked(w, d, skipped), NowSides(w2, d2, skipped), Looked(w2, d2, skipped), touched, p);
  }

  lemma {:induction false} PushOnHead(scenes: Scenes, w: World, d: Device, asked: set<Path>, skipped: set<Path>, p: Path)
    requires DeviceOk(scenes, w, d) && d.saw.Some? && Publishes(w, d) && w.head.Some? && p !in PushedPaths(d.saw.value.compared, asked)
    ensures PlaceNow(scenes, HeadAfter(w, d, asked), PushedBy(d, asked), skipped, p) == PlaceNow(scenes, w, d, skipped, p)
      <==> PushLeavesPlace(scenes, w, d, asked, skipped, p)
  {
    var d2, w2 := PushedBy(d, asked), HeadAfter(w, d, asked);
    PushSame(scenes, w, d, asked, skipped);
    PushPools(scenes, w, d, asked, skipped);
    PushConflicts(scenes, w, d, asked, skipped);
    PlacesAre(scenes, w, d, w2, d2, skipped, PushedPaths(d.saw.value.compared, asked), p);
    if p !in Looked(w, d, skipped) && p !in skipped { NotLooked(scenes, w, d, skipped, p); }
  }

  lemma {:induction false} NotLooked(scenes: Scenes, w: World, d: Device, skipped: set<Path>, p: Path)
    requires p !in Looked(w, d, skipped) && p !in skipped
    ensures ClassAt(scenes, NowSides(w, d, skipped), p) == Unchanged
  {
  }

  /** With no head every file is new here, and none pairs. */
  lemma {:induction false} PlaceWithoutHead(scenes: Scenes, w: World, d: Device, skipped: set<Path>, p: Path)
    requires w.head.None?
    ensures PlaceNow(scenes, w, d, skipped, p) == if p in d.disk && p !in skipped then AmongLocal else Nowhere
  {
    var s, looked := NowSides(w, d, skipped), Looked(w, d, skipped);
    HeldBackAwaits(scenes, s, looked, p);
    assert Gone(s, looked, Here) == map[];
  }

  /** What the published head lacks is a local file where the baseline lacks it too, and anything but that otherwise. */
  lemma {:induction false} PlaceUnpublished(scenes: Scenes, t: Sides, now: set<Path>, p: Path)
    requires p in now && p !in t.remote
    ensures p !in t.baseline && p !in HeldBack(scenes, t, now) ==> PlaceAt(scenes, t, now, p) == if p in t.local then AmongLocal else Nowhere
    ensures p in t.baseline ==> PlaceAt(scenes, t, now, p) != if p in t.local then AmongLocal else Nowhere
  {
  }

  /** A file that moved away was in a list with both others, so a path waits only where they disagree. */
  lemma {:induction false} NothingAwaited(scenes: Scenes, t: Sides, now: set<Path>, p: Path)
    requires forall q :: q in t.remote && q in t.baseline ==> t.remote[q] == t.baseline[q]
    ensures p !in HeldBack(scenes, t, now)
  {
    HeldBackAwaits(scenes, t, now, p);
    var conflicting := Of(scenes, t, now, Conflicting);
    forall m: Move | m.dest == p && m.side == Here && m.from in conflicting ensures !PairedIn(PoolsOf(t, now), m) {
      if m.from in t.remote && m.from in t.baseline { AgreedIsNoConflict(scenes, t, m.from); }
    }
  }

  lemma {:induction false} PushOnNone(scenes: Scenes, w: World, d: Device, asked: set<Path>, skipped: set<Path>, p: Path)
    requires DeviceOk(scenes, w, d) && d.saw.Some? && Publishes(w, d) && w.head.None? && p !in PushedPaths(d.saw.value.compared, asked)
    ensures PlaceNow(scenes, HeadAfter(w, d, asked), PushedBy(d, asked), skipped, p) == PlaceNow(scenes, w, d, skipped, p)
      <==> PushLeavesPlace(scenes, w, d, asked, skipped, p)
  {
    var d2, w2 := PushedBy(d, asked), HeadAfter(w, d, asked);
    var t, now := NowSides(w2, d2, skipped), Looked(w2, d2, skipped);
    PlaceWithoutHead(scenes, w, d, skipped, p);
    forall q ensures PushedSides(w, d, asked, skipped, t, now, q) { PushedAt(scenes, w, d, asked, q); }
    assert PushedSides(w, d, asked, skipped, t, now, p);
    forall q | q in t.remote && q in t.baseline ensures t.remote[q] == t.baseline[q] { assert PushedSides(w, d, asked, skipped, t, now, q); }
    NothingAwaited(scenes, t, now, p);
    if p in now { PlaceUnpublished(scenes, t, now, p); }
  }

  /** What a push into a vanished head leaves at a path. */
  ghost predicate PushedSides(w: World, d: Device, asked: set<Path>, skipped: set<Path>, t: Sides, now: set<Path>, q: Path)
    requires d.saw.Some?
  {
    && (q in PushedPaths(d.saw.value.compared, asked) ==> At(t.remote, q) == At(t.baseline, q))
    && (q !in PushedPaths(d.saw.value.compared, asked) ==>
          q !in t.remote && At(t.baseline, q) == At(BaseOf(d), q) && (q in now <==> q !in skipped && (q in d.disk || q in BaseOf(d))))
    && (q in t.local <==> q in d.disk && q !in skipped)
  }

  /**
   * A published push leaves a path it was not asked for in its place exactly where the pairing of what is not pushed
   * still pairs it, or no longer does, as before; where the head had vanished, exactly where the baseline lacks it.
   */
  lemma {:induction false} PushKeepsPlaces(scenes: Scenes, ws: seq<World>, steps: seq<Step>, i: nat, skipped: set<Path>, p: Path)
    requires Run(scenes, ws, steps) && i < |steps| && steps[i].Push?
    requires var d := ws[i].devices[steps[i].device]; Publishes(ws[i], d) && p !in PushedPaths(d.saw.value.compared, steps[i].asked)
    ensures var d, d2 := ws[i].devices[steps[i].device], ws[i + 1].devices[steps[i].device];
      PlaceNow(scenes, ws[i + 1], d2, skipped, p) == PlaceNow(scenes, ws[i], d, skipped, p)
      <==> PushLeavesPlace(scenes, ws[i], d, steps[i].asked, skipped, p)
  {
    var d, d2 := ws[i].devices[steps[i].device], ws[i + 1].devices[steps[i].device];
    PushWorld(scenes, ws, steps, i);
    SamePlace(scenes, ws[i + 1], HeadAfter(ws[i], d, steps[i].asked), d2, skipped, p);
    if ws[i].head.Some? {
      PushOnHead(scenes, ws[i], d, steps[i].asked, skipped, p);
    } else {
      PushOnNone(scenes, ws[i], d, steps[i].asked, skipped, p);
    }
  }

  /** A place depends on nothing of a world but its head and the device. */
  lemma {:induction false} SamePlace(scenes: Scenes, w: World, x: World, d: Device, skipped: set<Path>, p: Path)
    requires w.head == x.head
    ensures PlaceNow(scenes, w, d, skipped, p) == PlaceNow(scenes, x, d, skipped, p)
    ensures NowPools(w, d, skipped) == NowPools(x, d, skipped)
  {
    assert NowSides(w, d, skipped) == NowSides(x, d, skipped) && Looked(w, d, skipped) == Looked(x, d, skipped);
  }

  /** No file or baseline entry at a pushed path has this content. */
  ghost predicate NonePushed(d: Device, asked: set<Path>, h: string)
    requires d.saw.Some?
  {
    var c := d.saw.value.compared;
    forall q {:trigger q in PushedPaths(c, asked)} :: q in PushedPaths(c, asked) ==>
      !(q in d.disk && d.disk[q] == h) && !(q in BaseOf(d) && BaseOf(d)[q] == h) && !(q in c.snapshot && c.snapshot[q] == h)
  }

  lemma {:induction false} PushedHashes(w: World, d: Device, asked: set<Path>, skipped: set<Path>, h: string)
    requires d.saw.Some? && NonePushed(d, asked, h)
    ensures var before, after := NowPools(w, d, skipped), PushedPools(w, d, asked, skipped);
      WithHash(before.goneHere, h) == WithHash(after.goneHere, h) && WithHash(before.arrivedHere, h) == WithHash(after.arrivedHere, h)
  {
    var c, before, after := d.saw.value.compared, NowPools(w, d, skipped), PushedPools(w, d, asked, skipped);
    forall q ensures q in WithHash(before.goneHere, h) <==> q in WithHash(after.goneHere, h) {
      if q in PushedPaths(c, asked) { assert !(q in BaseOf(d) && BaseOf(d)[q] == h); }
    }
    forall q ensures q in WithHash(before.arrivedHere, h) <==> q in WithHash(after.arrivedHere, h) {
      if q in PushedPaths(c, asked) { assert !(q in d.disk && d.disk[q] == h); }
    }
  }

  /** The content a path pairs by: the baseline's, or that of a file new here. */
  predicate PairsBy(d: Device, p: Path, h: string)
  {
    if p in BaseOf(d) then h == BaseOf(d)[p] else p in d.disk && h == d.disk[p]
  }

  /** A move from or to a path pairs as before where no pushed path holds the path's content. */
  lemma {:induction false} PushSparesMoves(w: World, d: Device, asked: set<Path>, skipped: set<Path>, p: Path, h: string, m: Move)
    requires d.saw.Some? && w.head.Some? && p !in PushedPaths(d.saw.value.compared, asked) && (m.from == p || (m.dest == p && m.side == Here))
    requires PairsBy(d, p, h) && NonePushed(d, asked, h)
    ensures PairedIn(NowPools(w, d, skipped), m) <==> PairedIn(PushedPools(w, d, asked, skipped), m)
  {
    var before, after := NowPools(w, d, skipped), PushedPools(w, d, asked, skipped);
    PushedHashes(w, d, asked, skipped, h);
    if m.side == Here && (p in WithHash(before.goneHere, h) || p in WithHash(before.arrivedHere, h)) {
      if (m.from == p && p in before.goneHere) || (m.dest == p && p in before.arrivedHere) {
        PairedByContent(before.goneHere, before.arrivedHere, after.goneHere, after.arrivedHere, m.from, m.dest, h);
      }
    }
  }

  /** So a path whose content no pushed path holds keeps its place. */
  lemma {:induction false} PushSparesPlaces(scenes: Scenes, ws: seq<World>, steps: seq<Step>, i: nat, skipped: set<Path>, p: Path, h: string)
    requires Run(scenes, ws, steps) && i < |steps| && steps[i].Push? && ws[i].head.Some?
    requires var d := ws[i].devices[steps[i].device];
      Publishes(ws[i], d) && p !in PushedPaths(d.saw.value.compared, steps[i].asked) && PairsBy(d, p, h) && NonePushed(d, steps[i].asked, h)
    ensures var d, d2 := ws[i].devices[steps[i].device], ws[i + 1].devices[steps[i].device];
      PlaceNow(scenes, ws[i + 1], d2, skipped, p) == PlaceNow(scenes, ws[i], d, skipped, p)
  {
    var w, d, asked := ws[i], ws[i].devices[steps[i].device], steps[i].asked;
    PushKeepsPlaces(scenes, ws, steps, i, skipped, p);
    forall m: Move | m.from == p || (m.dest == p && m.side == Here)
      ensures PairedIn(NowPools(w, d, skipped), m) <==> PairedIn(PushedPools(w, d, asked, skipped), m)
    {
      PushSparesMoves(w, d, asked, skipped, p, h, m);
    }
    PairsSame(ClassAt(scenes, NowSides(w, d, skipped), p), NowPools(w, d, skipped), PushedPools(w, d, asked, skipped), NowConflicts(scenes, w, d, skipped), p);
  }

  lemma {:induction false} PairsSame(kind: Class, before: Pools, after: Pools, conflicting: set<Path>, p: Path)
    requires forall m: Move {:trigger PairedIn(after, m)} {:trigger PairedIn(before, m)} ::
      m.from == p || (m.dest == p && m.side == Here) ==> (PairedIn(before, m) <==> PairedIn(after, m))
    ensures PairsAlike(kind, before, conflicting, after, conflicting, p)
  {
  }

  // ---- a pull

  /** What pairing works from once a pull is in: the written paths' candidates as the pull leaves them. */
  function PulledPools(w: World, d: Device, asked: set<Path>, reached: set<Path>, skipped: set<Path>): Pools
    requires d.saw.Some?
  {
    var d2, written := PulledBy(d, asked, reached), WrittenBy(d.disk, d.saw.value.compared, asked, reached);
    PoolsAfter(NowPools(w, d, skipped), written, PoolsOf(NowSides(w, d2, skipped), Looked(w, d2, skipped) * written))
  }

  function PulledConflicts(scenes: Scenes, w: World, d: Device, asked: set<Path>, reached: set<Path>, skipped: set<Path>): set<Path>
    requires d.saw.Some?
  {
    var d2, written := PulledBy(d, asked, reached), WrittenBy(d.disk, d.saw.value.compared, asked, reached);
    (NowConflicts(scenes, w, d, skipped) - written) + Of(scenes, NowSides(w, d2, skipped), Looked(w, d2, skipped) * written, Conflicting)
  }

  lemma {:induction false} PullSame(scenes: Scenes, w: World, d: Device, asked: set<Path>, reached: set<Path>, skipped: set<Path>)
    requires DeviceOk(scenes, w, d) && d.saw.Some?
    ensures var d2 := PulledBy(d, asked, reached);
      SameBut(NowSides(w, d, skipped), Looked(w, d, skipped), NowSides(w, d2, skipped), Looked(w, d2, skipped),
              WrittenBy(d.disk, d.saw.value.compared, asked, reached))
  {
    var d2, written := PulledBy(d, asked, reached), WrittenBy(d.disk, d.saw.value.compared, asked, reached);
    var s, t := NowSides(w, d, skipped), NowSides(w, d2, skipped);
    forall p | p !in written
      ensures At(s.local, p) == At(t.local, p) && At(s.remote, p) == At(t.remote, p) && At(s.baseline, p) == At(t.baseline, p)
      ensures p in Looked(w, d, skipped) <==> p in Looked(w, d2, skipped)
    {
      PulledOutside(scenes, w, d, asked, reached, p);
    }
  }

  lemma {:induction false} PulledPoolsAre(scenes: Scenes, w: World, d: Device, asked: set<Path>, reached: set<Path>, skipped: set<Path>)
    requires DeviceOk(scenes, w, d) && d.saw.Some?
    ensures NowPools(w, PulledBy(d, asked, reached), skipped) == PulledPools(w, d, asked, reached, skipped)
    ensures NowConflicts(scenes, w, PulledBy(d, asked, reached), skipped) == PulledConflicts(scenes, w, d, asked, reached, skipped)
  {
    var d2, written := PulledBy(d, asked, reached), WrittenBy(d.disk, d.saw.value.compared, asked, reached);
    var s, looked, t, now := NowSides(w, d, skipped), Looked(w, d, skipped), NowSides(w, d2, skipped), Looked(w, d2, skipped);
    PullSame(scenes, w, d, asked, reached, skipped);
    PoolsChange(s, looked, t, now, written);
    ConflictsChange(scenes, s, looked, t, now, written);
  }

  /**
   * A pull leaves a path it was asked neither for nor to move in its class, and in its place exactly where it pairs,
   * with the written paths as the pull leaves them, as it did before.
   */
  lemma {:induction false} PullKeepsPlaces(scenes: Scenes, ws: seq<World>, steps: seq<Step>, i: nat, skipped: set<Path>, p: Path)
    requires Run(scenes, ws, steps) && i < |steps| && steps[i].Pull?
    requires var c := ws[i].devices[steps[i].device].saw.value.compared; p !in steps[i].asked && p !in Endpoints(AskedMoves(c, steps[i].asked))
    ensures var w, d, d2, asked, reached := ws[i], ws[i].devices[steps[i].device], ws[i + 1].devices[steps[i].device], steps[i].asked, steps[i].reached;
      && ClassAt(scenes, NowSides(ws[i + 1], d2, skipped), p) == ClassAt(scenes, NowSides(w, d, skipped), p)
      && (PlaceNow(scenes, ws[i + 1], d2, skipped, p) == PlaceNow(scenes, w, d, skipped, p)
          <==> (p !in Looked(w, d, skipped)
                || PairsAlike(ClassAt(scenes, NowSides(w, d, skipped), p), NowPools(w, d, skipped), NowConflicts(scenes, w, d, skipped),
                              PulledPools(w, d, asked, reached, skipped), PulledConflicts(scenes, w, d, asked, reached, skipped), p)))
  {
    var w, d, asked, reached := ws[i], ws[i].devices[steps[i].device], steps[i].asked, steps[i].reached;
    var d2 := PulledBy(d, asked, reached);
    RunOk(scenes, ws, steps, i);
    assert Enabled(scenes, w, steps[i]) && ws[i + 1] == Do(scenes, w, steps[i]);
    SamePlace(scenes, ws[i + 1], w, d2, skipped, p);
    UnaskedUnwritten(scenes, w, d, asked, reached, p);
    PullSame(scenes, w, d, asked, reached, skipped);
    PulledPoolsAre(scenes, w, d, asked, reached, skipped);
    PlaceKept(scenes, NowSides(w, d, skipped), Looked(w, d, skipped), NowSides(w, d2, skipped), Looked(w, d2, skipped),
      WrittenBy(d.disk, d.saw.value.compared, asked, reached), p);
  }

  /** A local rename the pull was asked for, landed, and not undone on disk meanwhile. */
  ghost predicate RenameLeft(d: Device, asked: set<Path>, m: Move)
    requires d.saw.Some?
  {
    var c := d.saw.value.compared;
    m.side == Here && m in AskedMoves(c, asked) && Lands(d.disk, c, m)
  }

  ghost predicate LeftFrom(d: Device, asked: set<Path>, q: Path)
    requires d.saw.Some?
  {
    q !in d.disk && exists m: Move {:trigger RenameLeft(d, asked, m)} :: m.from == q && RenameLeft(d, asked, m)
  }

  ghost predicate LeftAt(d: Device, asked: set<Path>, q: Path)
    requires d.saw.Some?
  {
    exists m: Move {:trigger RenameLeft(d, asked, m)} :: m.dest == q && RenameLeft(d, asked, m)
  }

  /** What a pull leaves at a path it wrote, where nobody published since the compare. */
  ghost predicate WrittenSides(d: Device, asked: set<Path>, t: Sides, skipped: set<Path>, q: Path)
    requires d.saw.Some?
  {
    var c := d.saw.value.compared;
    && At(t.remote, q) == At(t.baseline, q) == At(c.remote, q)
    && (q !in skipped ==>
          && (q in t.remote ==> (q !in t.local <==> LeftFrom(d, asked, q)))
          && (q !in t.remote ==> (q in t.local <==> LeftAt(d, asked, q))))
  }

  /** A path that one move alone ends at is left by it or by none. */
  lemma {:induction false} OneRename(d: Device, asked: set<Path>, q: Path, m: Move)
    requires d.saw.Some? && q in EndsOf(m) && m.from != m.dest
    requires forall n: Move {:trigger RenameLeft(d, asked, n)} :: RenameLeft(d, asked, n) && n != m ==> q !in EndsOf(n)
    ensures LeftFrom(d, asked, q) <==> q !in d.disk && q == m.from && RenameLeft(d, asked, m)
    ensures LeftAt(d, asked, q) <==> q == m.dest && RenameLeft(d, asked, m)
  {
  }

  lemma {:induction false} AskedIsMove(scenes: Scenes, w: World, d: Device, asked: set<Path>, m: Move)
    requires DeviceOk(scenes, w, d) && d.saw.Some? && m in AskedMoves(d.saw.value.compared, asked)
    ensures IsMove(SidesOf(d.saw.value.compared), d.saw.value.paths, m)
  {
    var saw := d.saw.value;
    assert SawOk(scenes, w, d, saw);
    PairingApart(saw.compared.found, scenes, SidesOf(saw.compared), saw.paths);
    AskedAre(saw.compared, asked, saw.compared.found.moves);
  }

  /** Where an asked move's ends are, and that no other move shares them. */
  lemma {:induction false} AskedMoveEnds(scenes: Scenes, w: World, d: Device, asked: set<Path>, q: Path, m: Move)
    requires DeviceOk(scenes, w, d) && d.saw.Some? && m in AskedMoves(d.saw.value.compared, asked) && q in EndsOf(m)
    ensures var remote := d.saw.value.compared.remote;
      m.from != m.dest && if m.side == There then m.from !in remote && m.dest in remote else m.from in remote && m.dest !in remote
    ensures forall n: Move {:trigger RenameLeft(d, asked, n)} :: RenameLeft(d, asked, n) && n != m ==> q !in EndsOf(n)
  {
    var s, paths := SidesOf(d.saw.value.compared), d.saw.value.paths;
    AskedIsMove(scenes, w, d, asked, m);
    MovesApart(s, paths, m, m);
    forall n: Move | RenameLeft(d, asked, n) && n != m ensures q !in EndsOf(n) {
      AskedIsMove(scenes, w, d, asked, n);
      MovesApart(s, paths, m, n);
    }
  }

  lemma {:induction false} AskedMoveLands(scenes: Scenes, w: World, d: Device, asked: set<Path>, reached: set<Path>, m: Move)
    requires DeviceOk(scenes, w, d) && d.saw.Some? && m in AskedMoves(d.saw.value.compared, asked)
    ensures var c, disk2 := d.saw.value.compared, PulledBy(d, asked, reached).disk;
      && MoveLandedAt(d.disk, disk2, c, m)
      && (m.from in WrittenBy(d.disk, c, asked, reached) <==> Lands(d.disk, c, m))
      && (m.dest in WrittenBy(d.disk, c, asked, reached) <==> Lands(d.disk, c, m))
  {
    var saw := d.saw.value;
    assert SawOk(scenes, w, d, saw);
    PairingApart(saw.compared.found, scenes, SidesOf(saw.compared), saw.paths);
    PulledMove(d.disk, saw.compared, asked, reached, m);
  }

  /** The head is still the one compared. */
  lemma {:induction false} SameHead(scenes: Scenes, w: World, d: Device)
    requires DeviceOk(scenes, w, d) && d.saw.Some? && w.head.Some? && IdOf(w.head) == IdOf(d.saw.value.remote)
    ensures FilesOf(w.head) == d.saw.value.compared.remote
  {
    assert SawOk(scenes, w, d, d.saw.value);
  }

  lemma {:induction false} WrittenMove(scenes: Scenes, w: World, d: Device, asked: set<Path>, reached: set<Path>, skipped: set<Path>, q: Path, m: Move)
    requires DeviceOk(scenes, w, d) && d.saw.Some? && w.head.Some? && IdOf(w.head) == IdOf(d.saw.value.remote)
    requires q in WrittenBy(d.disk, d.saw.value.compared, asked, reached)
    requires m in AskedMoves(d.saw.value.compared, asked) && q in EndsOf(m)
    ensures WrittenSides(d, asked, NowSides(w, PulledBy(d, asked, reached), skipped), skipped, q)
  {
    var c := d.saw.value.compared;
    SameHead(scenes, w, d);
    AskedMoveEnds(scenes, w, d, asked, q, m);
    AskedMoveLands(scenes, w, d, asked, reached, m);
    OverlayAt(BaseOf(d), c.remote, WrittenBy(d.disk, c, asked, reached), q);
    OneRename(d, asked, q, m);
  }

  lemma {:induction false} WrittenPlain(scenes: Scenes, w: World, d: Device, asked: set<Path>, reached: set<Path>, skipped: set<Path>, q: Path)
    requires DeviceOk(scenes, w, d) && d.saw.Some? && w.head.Some? && IdOf(w.head) == IdOf(d.saw.value.remote)
    requires q in WrittenBy(d.disk, d.saw.value.compared, asked, reached) && q !in Endpoints(AskedMoves(d.saw.value.compared, asked))
    ensures WrittenSides(d, asked, NowSides(w, PulledBy(d, asked, reached), skipped), skipped, q)
  {
    var saw := d.saw.value;
    var c := saw.compared;
    assert SawOk(scenes, w, d, saw);
    PairingApart(c.found, scenes, SidesOf(c), saw.paths);
    PulledAt(d.disk, c, asked, reached, q);
    OverlayAt(BaseOf(d), c.remote, WrittenBy(d.disk, c, asked, reached), q);
    forall m: Move | RenameLeft(d, asked, m) ensures q !in EndsOf(m) { EndpointsAre(AskedMoves(c, asked), q); }
  }

  lemma {:induction false} WrittenIs(scenes: Scenes, w: World, d: Device, asked: set<Path>, reached: set<Path>, skipped: set<Path>, q: Path)
    requires DeviceOk(scenes, w, d) && d.saw.Some? && w.head.Some? && IdOf(w.head) == IdOf(d.saw.value.remote)
    requires q in WrittenBy(d.disk, d.saw.value.compared, asked, reached)
    ensures WrittenSides(d, asked, NowSides(w, PulledBy(d, asked, reached), skipped), skipped, q)
  {
    var moves := AskedMoves(d.saw.value.compared, asked);
    EndpointsAre(moves, q);
    if q in Endpoints(moves) {
      var m :| m in moves && q in EndsOf(m);
      WrittenMove(scenes, w, d, asked, reached, skipped, q, m);
    } else {
      WrittenPlain(scenes, w, d, asked, reached, skipped, q);
    }
  }

  /**
   * Where nobody published since its compare, a pull leaves nothing it wrote to pair or in conflict but the local
   * renames that took the other side's text in.
   */
  lemma {:induction false} PullLeavesRenames(scenes: Scenes, w: World, d: Device, asked: set<Path>, reached: set<Path>, skipped: set<Path>, q: Path)
    requires DeviceOk(scenes, w, d) && d.saw.Some? && w.head.Some? && IdOf(w.head) == IdOf(d.saw.value.remote)
    requires q in WrittenBy(d.disk, d.saw.value.compared, asked, reached)
    ensures var pools := PulledPools(w, d, asked, reached, skipped);
      && q !in pools.goneThere && q !in pools.arrivedThere && q !in PulledConflicts(scenes, w, d, asked, reached, skipped)
      && (q in pools.goneHere <==> q !in skipped && q in d.saw.value.compared.remote && LeftFrom(d, asked, q))
      && (q in pools.arrivedHere <==> q !in skipped && q !in d.saw.value.compared.remote && LeftAt(d, asked, q))
  {
    var d2 := PulledBy(d, asked, reached);
    var t, now := NowSides(w, d2, skipped), Looked(w, d2, skipped);
    WrittenIs(scenes, w, d, asked, reached, skipped, q);
    AgreedIsNoConflict(scenes, t, q);
    PulledPoolsAre(scenes, w, d, asked, reached, skipped);
    assert PulledPools(w, d, asked, reached, skipped) == PoolsOf(t, now);
  }
}
