/** What a sync gets done: the paths a compare, a push and a pull were to take are taken. */
module SyncProgress {
  import opened Common
  import opened SyncDiff
  import opened SyncPairing
  import opened SyncEngine
  import opened SyncPull
  import opened SyncRuns
  import opened SyncStanding

  /** What the compare a step works from was of. */
  function SeenBy(w: World, step: Step): Saw
    requires step.device < |w.devices| && w.devices[step.device].saw.Some?
  {
    w.devices[step.device].saw.value
  }

  /** Two heads of one id are one head. */
  lemma {:induction false} SeenHead(scenes: Scenes, w: World, d: Device)
    requires DeviceOk(scenes, w, d) && d.saw.Some?
    ensures Publishes(w, d) <==> w.head == d.saw.value.remote
  {
    assert SawOk(scenes, w, d, d.saw.value);
  }

  /** A push goes through exactly where the head is still the one compared with; else it changes nothing at all. */
  lemma {:induction false} PushGoesThrough(scenes: Scenes, ws: seq<World>, steps: seq<Step>, i: nat)
    requires Run(scenes, ws, steps) && i < |steps| && steps[i].Push?
    ensures ws[i + 1] != ws[i] <==> ws[i].head == SeenBy(ws[i], steps[i]).remote
  {
    RunOk(scenes, ws, steps, i);
    SeenHead(scenes, ws[i], ws[i].devices[steps[i].device]);
  }

  /** Pushed are the local changes asked for, but for those that wait for another device's text. */
  lemma {:induction false} PushedExactly(scenes: Scenes, c: Compared, paths: set<Path>, asked: set<Path>, p: Path)
    requires Pairing(c.found, scenes, SidesOf(c), paths)
    ensures p in PushedPaths(c, asked)
      <==> p in asked && p in paths && ClassAt(scenes, SidesOf(c), p) == LocalChange && p !in HeldBack(scenes, SidesOf(c), paths)
  {
    var s := SidesOf(c);
    if p in Of(scenes, s, paths, LocalChange) - HeldBack(scenes, s, paths) {
      assert ChangeAt(s, false, p) in c.found.lists.localChanges;
    }
  }

  /** A local change asked for is on the head then, and is this device's baseline. */
  lemma {:induction false} AskedIsPushed(scenes: Scenes, ws: seq<World>, steps: seq<Step>, i: nat, p: Path)
    requires Run(scenes, ws, steps) && i < |steps| && steps[i].Push? && ws[i].head == SeenBy(ws[i], steps[i]).remote
    requires p in steps[i].asked && p in SeenBy(ws[i], steps[i]).paths
    requires var saw := SeenBy(ws[i], steps[i]); var s := SidesOf(saw.compared);
      ClassAt(scenes, s, p) == LocalChange && p !in HeldBack(scenes, s, saw.paths)
    ensures At(FilesOf(ws[i + 1].head), p) == At(SeenBy(ws[i], steps[i]).compared.snapshot, p)
    ensures At(BaseOf(ws[i + 1].devices[steps[i].device]), p) == At(SeenBy(ws[i], steps[i]).compared.snapshot, p)
  {
    var w, d, saw := ws[i], ws[i].devices[steps[i].device], SeenBy(ws[i], steps[i]);
    RunOk(scenes, ws, steps, i);
    SeenHead(scenes, w, d);
    assert SawOk(scenes, w, d, saw);
    PushedExactly(scenes, saw.compared, saw.paths, steps[i].asked, p);
    PushedAt(scenes, w, d, steps[i].asked, p);
    PushWorld(scenes, ws, steps, i);
  }

  /** A remote change the pull asked for and reached is on the disk then, where it still was what the compare saw. */
  lemma {:induction false} AskedIsPulled(scenes: Scenes, ws: seq<World>, steps: seq<Step>, i: nat, p: Path)
    requires Run(scenes, ws, steps) && i < |steps| && steps[i].Pull?
    requires p in steps[i].asked && p in steps[i].reached && p in SeenBy(ws[i], steps[i]).paths
    requires var saw := SeenBy(ws[i], steps[i]);
      && ClassAt(scenes, SidesOf(saw.compared), p) == RemoteChange && p !in Endpoints(AskedMoves(saw.compared, steps[i].asked))
      && At(ws[i].devices[steps[i].device].disk, p) == At(saw.compared.snapshot, p)
    ensures var d2, there := ws[i + 1].devices[steps[i].device], At(SeenBy(ws[i], steps[i]).compared.remote, p);
      At(d2.disk, p) == there && At(BaseOf(d2), p) == there
  {
    var w, d, saw := ws[i], ws[i].devices[steps[i].device], SeenBy(ws[i], steps[i]);
    RunOk(scenes, ws, steps, i);
    assert SawOk(scenes, w, d, saw);
    PulledThere(scenes, d, saw, steps[i].asked, steps[i].reached, p);
  }

  lemma {:induction false} PulledThere(scenes: Scenes, d: Device, saw: Saw, asked: set<Path>, reached: set<Path>, p: Path)
    requires d.saw == Some(saw) && Pairing(saw.compared.found, scenes, SidesOf(saw.compared), saw.paths)
    requires p in asked && p in reached && p in saw.paths && p !in Endpoints(AskedMoves(saw.compared, asked))
    requires ClassAt(scenes, SidesOf(saw.compared), p) == RemoteChange && At(d.disk, p) == At(saw.compared.snapshot, p)
    ensures At(PulledBy(d, asked, reached).disk, p) == At(saw.compared.remote, p)
    ensures At(BaseOf(PulledBy(d, asked, reached)), p) == At(saw.compared.remote, p)
  {
    var c, s := saw.compared, SidesOf(saw.compared);
    PairingApart(c.found, scenes, s, saw.paths);
    assert ChangeAt(s, true, p) in c.found.lists.remoteChanges;
    PulledAt(d.disk, c, asked, reached, p);
    OverlayAt(BaseOf(d), c.remote, WrittenBy(d.disk, c, asked, reached), p);
  }

  /** A compare adopts what both sides brought to one content: it is no change any more. */
  lemma {:induction false} AgreedIsAdopted(scenes: Scenes, ws: seq<World>, steps: seq<Step>, i: nat, p: Path)
    requires Run(scenes, ws, steps) && i < |steps| && steps[i].Compare? && ws[i].head.Some?
    requires var d := ws[i].devices[steps[i].device];
      p in Looked(ws[i], d, steps[i].skipped) && ClassAt(scenes, NowSides(ws[i], d, steps[i].skipped), p) == Converged
    ensures var d2 := ws[i + 1].devices[steps[i].device];
      && At(BaseOf(d2), p) == At(FilesOf(ws[i].head), p)
      && ClassAt(scenes, NowSides(ws[i + 1], d2, steps[i].skipped), p) == Unchanged
  {
    var w, d := ws[i], ws[i].devices[steps[i].device];
    assert Enabled(scenes, w, steps[i]) && ws[i + 1] == Do(scenes, w, steps[i]);
    var s := NowSides(w, d, steps[i].skipped);
    assert p in steps[i].found.lists.converged && p in Agreed(steps[i].found);
    OverlayAt(BaseOf(d), s.remote, Agreed(steps[i].found), p);
  }

  lemma {:induction false} RemoteChangesAre(scenes: Scenes, c: Compared, paths: set<Path>, p: Path)
    requires Pairing(c.found, scenes, SidesOf(c), paths)
    ensures p in PathsIn(c.found.lists.remoteChanges) <==>
      p in paths && (ClassAt(scenes, SidesOf(c), p) == RemoteChange || p in Carried(scenes, SidesOf(c), paths))
  {
    var s := SidesOf(c);
    if p in Of(scenes, s, paths, RemoteChange) + Carried(scenes, s, paths) {
      assert ChangeAt(s, true, p) in c.found.lists.remoteChanges;
    }
  }

  /** A pull takes a move it was asked for by either path if the other device made it, or edited the file this one moved. */
  lemma {:induction false} AskedExactly(scenes: Scenes, c: Compared, paths: set<Path>, asked: set<Path>, m: Move)
    requires Pairing(c.found, scenes, SidesOf(c), paths)
    ensures m in AskedMoves(c, asked) <==>
      && IsMove(SidesOf(c), paths, m) && (m.from in asked || m.dest in asked)
      && (m.side == There || ClassAt(scenes, SidesOf(c), m.from) == Conflicting)
  {
    var s := SidesOf(c);
    PairingApart(c.found, scenes, s, paths);
    AskedAre(c, asked, c.found.moves);
    if IsMove(s, paths, m) { MoveTouches(scenes, c, paths, m); }
  }

  lemma {:induction false} MoveTouches(scenes: Scenes, c: Compared, paths: set<Path>, m: Move)
    requires Pairing(c.found, scenes, SidesOf(c), paths) && IsMove(SidesOf(c), paths, m)
    ensures Touches(PathsIn(c.found.lists.remoteChanges), m) <==> m.side == There || ClassAt(scenes, SidesOf(c), m.from) == Conflicting
  {
    var s := SidesOf(c);
    MoveExactly(s, paths, m);
    GoneClass(scenes, s, m.from);
    ArrivedClass(scenes, s, m.dest);
    RemoteChangesAre(scenes, c, paths, m.from);
    RemoteChangesAre(scenes, c, paths, m.dest);
    if ClassAt(scenes, s, m.from) == Conflicting { assert CarriedBy(scenes, s, paths, m); }
  }
}
