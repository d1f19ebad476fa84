/** Devices that edit, compare, push and pull one published head, whatever the order. */
module SyncRuns {
  import opened Common
  import opened SyncDiff
  import opened SyncPairing
  import opened SyncEngine
  import opened SyncPull

  /** A published head; no two share an id. */
  datatype Manifest = Manifest(id: nat, files: Files)

  /** What a compare was of, and what it found. */
  datatype Saw = Saw(remote: Option<Manifest>, paths: set<Path>, compared: Compared)

  /** A device: its disk, its baseline, the content it ever had on disk, and its last compare, if still good. */
  datatype Device = Device(disk: Files, baseline: Option<Files>, had: set<Hash>, saw: Option<Saw>)

  datatype World = World(head: Option<Manifest>, devices: seq<Device>, next: nat)

  /** A device's step, or the storage's: an emptied bucket has no head. */
  datatype Step =
    | Edit(device: nat, path: Path, content: Option<Hash>)
    | Compare(device: nat, skipped: set<Path>, found: DiffResult)
    | Push(device: nat, asked: set<Path>)
    | Pull(device: nat, asked: set<Path>, reached: set<Path>)
    | Vanish(device: nat)

  function FilesOf(m: Option<Manifest>): Files { if m.Some? then m.value.files else map[] }

  function IdOf(m: Option<Manifest>): Option<nat> { if m.Some? then Some(m.value.id) else None }

  function BaseOf(d: Device): Files { if d.baseline.Some? then d.baseline.value else map[] }

  /** A baseline counts only against a head. */
  function SidesNow(w: World, d: Device, snapshot: Files): Sides
  {
    Sides(snapshot, FilesOf(w.head), if w.head.Some? then BaseOf(d) else map[])
  }

  function Looked(w: World, d: Device, skipped: set<Path>): set<Path>
  {
    d.disk.Keys + FilesOf(w.head).Keys + BaseOf(d).Keys - skipped
  }

  /** Paths both sides brought to one content: the refresh adopts them right away. */
  function Agreed(found: DiffResult): set<Path> { set p | p in found.lists.converged }

  ghost predicate Enabled(scenes: Scenes, w: World, step: Step)
  {
    && step.device < |w.devices|
    && var d := w.devices[step.device];
    match step
    case Edit(_, _, _) => true
    case Compare(_, skipped, found) => Pairing(found, scenes, SidesNow(w, d, d.disk - skipped), Looked(w, d, skipped))
    case Push(_, _) => d.saw.Some?
    case Pull(_, _, _) => d.saw.Some? && d.saw.value.remote.Some?
    case Vanish(_) => true
  }

  /** The changes a push was asked for. */
  function PushedPaths(c: Compared, asked: set<Path>): set<Path>
  {
    PathsIn(c.found.lists.localChanges) * asked
  }

  function Published(c: Compared, asked: set<Path>): Files
  {
    Overlay(c.remote, c.snapshot, PushedPaths(c, asked))
  }

  function Edited(d: Device, p: Path, content: Option<Hash>): Device
  {
    if content.None? then d.(disk := d.disk - {p})
    else d.(disk := d.disk[p := content.value], had := d.had + {content.value})
  }

  function ComparedNow(w: World, d: Device, skipped: set<Path>, found: DiffResult): Device
  {
    var snapshot := d.disk - skipped;
    var s := SidesNow(w, d, snapshot);
    d.(saw := Some(Saw(w.head, Looked(w, d, skipped), Compared(snapshot, s.remote, s.baseline, found))),
       baseline := if w.head.Some? && Agreed(found) != {} then Some(Overlay(BaseOf(d), s.remote, Agreed(found))) else d.baseline)
  }

  /** A publish goes through only on the head its compare saw. */
  predicate Publishes(w: World, d: Device)
    requires d.saw.Some?
  {
    IdOf(w.head) == IdOf(d.saw.value.remote)
  }

  function PushedBy(d: Device, asked: set<Path>): Device
    requires d.saw.Some?
  {
    var c := d.saw.value.compared;
    var files := Published(c, asked);
    d.(baseline := Some(Overlay(BaseOf(d), files, Delta(c.remote, files))), saw := None)
  }

  /** What lands on disk was had there. */
  function PulledBy(d: Device, asked: set<Path>, reached: set<Path>): Device
    requires d.saw.Some?
  {
    var c := d.saw.value.compared;
    var disk := Pulled(d.disk, c, asked, reached);
    d.(disk := disk, had := d.had + disk.Values, saw := None,
       baseline := Some(Overlay(BaseOf(d), c.remote, WrittenBy(d.disk, c, asked, reached))))
  }

  ghost function Do(scenes: Scenes, w: World, step: Step): World
    requires Enabled(scenes, w, step)
  {
    var i := step.device;
    var d := w.devices[i];
    match step
    case Edit(_, p, content) => w.(devices := w.devices[i := Edited(d, p, content)])
    case Compare(_, skipped, found) => w.(devices := w.devices[i := ComparedNow(w, d, skipped, found)])
    case Push(_, asked) =>
      if !Publishes(w, d) then w
      else World(Some(Manifest(w.next, Published(d.saw.value.compared, asked))), w.devices[i := PushedBy(d, asked)], w.next + 1)
    case Pull(_, asked, reached) => w.(devices := w.devices[i := PulledBy(d, asked, reached)])
    case Vanish(_) => w.(head := None)
  }

  /** Content this device had, as far as content counts. */
  ghost predicate Known(scenes: Scenes, had: set<Hash>, h: Hash)
  {
    exists x :: x in had && SameContent(scenes, Some(x), Some(h))
  }

  ghost predicate AllKnown(scenes: Scenes, had: set<Hash>, files: Files)
  {
    forall p :: p in files ==> Known(scenes, had, files[p])
  }

  /** What a kept compare still says: what it saw was there, and the baseline moved only where both sides agree. */
  ghost predicate SawOk(scenes: Scenes, w: World, d: Device, saw: Saw)
  {
    var s := SidesOf(saw.compared);
    && Pairing(saw.compared.found, scenes, s, saw.paths)
    && s.remote == FilesOf(saw.remote)
    && (saw.remote.Some? ==> saw.remote.value.id < w.next)
    && (saw.remote.Some? && w.head.Some? && saw.remote.value.id == w.head.value.id ==> saw.remote == w.head)
    && (forall p :: p in saw.compared.snapshot ==> saw.compared.snapshot[p] in d.had)
    && (if saw.remote.Some? then forall p :: ClassAt(scenes, s, p) != Converged ==> At(BaseOf(d), p) == At(s.baseline, p) else s.baseline == map[])
  }

  ghost predicate DeviceOk(scenes: Scenes, w: World, d: Device)
  {
    && (forall p :: p in d.disk ==> d.disk[p] in d.had)
    && AllKnown(scenes, d.had, BaseOf(d))
    && (d.saw.Some? ==> SawOk(scenes, w, d, d.saw.value))
  }

  ghost predicate WorldOk(scenes: Scenes, w: World)
  {
    && (w.head.Some? ==> w.head.value.id < w.next)
    && forall i :: 0 <= i < |w.devices| ==> DeviceOk(scenes, w, w.devices[i])
  }

  lemma {:induction false} KnownMore(scenes: Scenes, had: set<Hash>, more: set<Hash>, files: Files)
    requires AllKnown(scenes, had, files) && had <= more
    ensures AllKnown(scenes, more, files)
  {
    forall p | p in files ensures Known(scenes, more, files[p]) {
      assert Known(scenes, had, files[p]);
    }
  }

  lemma {:induction false} KnownIfHad(scenes: Scenes, had: set<Hash>, h: Hash)
    requires h in had
    ensures Known(scenes, had, h)
  {
    assert SameContent(scenes, Some(h), Some(h));
  }

  /** A baseline that adopts known content knows all of it. */
  lemma {:induction false} KnownOverlay(scenes: Scenes, had: set<Hash>, base: Files, over: Files, paths: set<Path>)
    requires AllKnown(scenes, had, base) && forall p :: p in paths && p in over ==> Known(scenes, had, over[p])
    ensures AllKnown(scenes, had, Overlay(base, over, paths))
  {
  }

  lemma {:induction false} EditOk(scenes: Scenes, w: World, d: Device, p: Path, content: Option<Hash>)
    requires DeviceOk(scenes, w, d)
    ensures DeviceOk(scenes, w, Edited(d, p, content))
  {
    KnownMore(scenes, d.had, Edited(d, p, content).had, BaseOf(d));
  }

  lemma {:induction false} AgreedKnown(scenes: Scenes, d: Device, s: Sides, found: DiffResult, paths: set<Path>)
    requires Pairing(found, scenes, s, paths) && (forall p :: p in s.local ==> s.local[p] in d.had)
    ensures forall p :: p in Agreed(found) ==> ClassAt(scenes, s, p) == Converged && (p in s.remote ==> Known(scenes, d.had, s.remote[p]))
  {
    forall p | p in Agreed(found) ensures ClassAt(scenes, s, p) == Converged && (p in s.remote ==> Known(scenes, d.had, s.remote[p])) {
      assert p in found.lists.converged;
      if p in s.remote {
        assert p in s.local && s.local[p] in d.had && SameContent(scenes, Some(s.local[p]), Some(s.remote[p]));
      }
    }
  }

  lemma {:induction false} CompareOk(scenes: Scenes, w: World, d: Device, skipped: set<Path>, found: DiffResult)
    requires DeviceOk(scenes, w, d) && (w.head.Some? ==> w.head.value.id < w.next)
    requires Pairing(found, scenes, SidesNow(w, d, d.disk - skipped), Looked(w, d, skipped))
    ensures DeviceOk(scenes, w, ComparedNow(w, d, skipped, found))
  {
    var s, next := SidesNow(w, d, d.disk - skipped), ComparedNow(w, d, skipped, found);
    AgreedKnown(scenes, d, s, found, Looked(w, d, skipped));
    if w.head.Some? && Agreed(found) != {} {
      KnownOverlay(scenes, d.had, BaseOf(d), s.remote, Agreed(found));
      forall p | ClassAt(scenes, s, p) != Converged ensures At(BaseOf(next), p) == At(s.baseline, p) {
        OverlayAt(BaseOf(d), s.remote, Agreed(found), p);
      }
    }
  }

  lemma {:induction false} PairingApart(d: DiffResult, scenes: Scenes, s: Sides, paths: set<Path>)
    requires Pairing(d, scenes, s, paths)
    ensures EndpointsApart(d.moves) && NoRepeats(d.moves) && DistinctPaths(d.lists.remoteChanges)
  {
    PairedEndpointsApart(d, scenes, s, paths);
  }

  /** A pushed path is a local change: the remote there is the baseline, and the disk's version was had. */
  lemma {:induction false} PushedIsLocal(c: Compared, scenes: Scenes, paths: set<Path>, asked: set<Path>, p: Path)
    requires Pairing(c.found, scenes, SidesOf(c), paths) && p in PushedPaths(c, asked)
    ensures p in asked && ClassAt(scenes, SidesOf(c), p) == LocalChange
    ensures SameContent(scenes, At(c.remote, p), At(c.baseline, p))
  {
    var change :| change in c.found.lists.localChanges && change.path == p;
  }

  lemma {:induction false} PushOk(scenes: Scenes, w: World, d: Device, asked: set<Path>)
    requires DeviceOk(scenes, w, d) && d.saw.Some?
    ensures DeviceOk(scenes, w, PushedBy(d, asked))
  {
    var c := d.saw.value.compared;
    var files := Published(c, asked);
    DeltaOfOverlay(c.remote, c.snapshot, PushedPaths(c, asked));
    forall p | p in Delta(c.remote, files) && p in files ensures Known(scenes, d.had, files[p]) {
      OverlayAt(c.remote, c.snapshot, PushedPaths(c, asked), p);
      KnownIfHad(scenes, d.had, files[p]);
    }
    KnownOverlay(scenes, d.had, BaseOf(d), files, Delta(c.remote, files));
  }

  /** What an asked move of a kept compare moves, and what the device knows of it. */
  lemma {:induction false} AskedMoveIs(scenes: Scenes, w: World, d: Device, asked: set<Path>, m: Move)
    requires d.saw.Some? && d.saw.value.remote.Some? && DeviceOk(scenes, w, d) && m in AskedMoves(d.saw.value.compared, asked)
    ensures IsMove(SidesOf(d.saw.value.compared), d.saw.value.paths, m)
    ensures var c := d.saw.value.compared; m.from in c.baseline && At(BaseOf(d), m.from) == Some(c.baseline[m.from])
    ensures Known(scenes, d.had, d.saw.value.compared.baseline[m.from])
  {
    var c := d.saw.value.compared;
    var s := SidesOf(c);
    AskedAre(c, asked, c.found.moves);
    assert m in c.found.moves;
    assert m.from in Gone(s, d.saw.value.paths, m.side);
    GoneClass(scenes, s, m.from);
    assert At(BaseOf(d), m.from) == At(s.baseline, m.from);
  }

  /** Where a pull advances the baseline, the content is the device's own now, or was. */
  lemma {:induction false} PulledKnown(scenes: Scenes, w: World, d: Device, asked: set<Path>, reached: set<Path>, p: Path)
    requires d.saw.Some? && d.saw.value.remote.Some? && DeviceOk(scenes, w, d)
    requires var c := d.saw.value.compared; p in WrittenBy(d.disk, c, asked, reached) && p in c.remote
    ensures Known(scenes, PulledBy(d, asked, reached).had, d.saw.value.compared.remote[p])
  {
    var c, had := d.saw.value.compared, PulledBy(d, asked, reached).had;
    var s, paths := SidesOf(c), d.saw.value.paths;
    var disk := Pulled(d.disk, c, asked, reached);
    PairingApart(c.found, scenes, s, paths);
    EndpointsAre(AskedMoves(c, asked), p);
    if p !in Endpoints(AskedMoves(c, asked)) {
      PulledAt(d.disk, c, asked, reached, p);
      assert disk[p] in disk.Values;
      KnownIfHad(scenes, had, c.remote[p]);
    } else {
      var m :| m in AskedMoves(c, asked) && p in EndsOf(m);
      PulledMoveKnown(scenes, w, d, asked, reached, m, p);
    }
  }

  /** The other side's rename of a file this device knows. */
  lemma {:induction false} RenamedKnown(scenes: Scenes, w: World, d: Device, asked: set<Path>, reached: set<Path>, m: Move)
    requires d.saw.Some? && d.saw.value.remote.Some? && DeviceOk(scenes, w, d)
    requires m in AskedMoves(d.saw.value.compared, asked) && m.side == There
    ensures var c := d.saw.value.compared;
      m.from !in c.remote && m.dest in c.remote && Known(scenes, PulledBy(d, asked, reached).had, c.remote[m.dest])
  {
    var c := d.saw.value.compared;
    AskedMoveIs(scenes, w, d, asked, m);
    MovesApart(SidesOf(c), d.saw.value.paths, m, m);
    var x :| x in d.had && SameContent(scenes, Some(x), Some(c.baseline[m.from]));
    assert x in PulledBy(d, asked, reached).had;
  }

  lemma {:induction false} PulledMoveKnown(scenes: Scenes, w: World, d: Device, asked: set<Path>, reached: set<Path>, m: Move, p: Path)
    requires d.saw.Some? && d.saw.value.remote.Some? && DeviceOk(scenes, w, d)
    requires var c := d.saw.value.compared; m in AskedMoves(c, asked) && p in EndsOf(m) && p in WrittenBy(d.disk, c, asked, reached) && p in c.remote
    ensures Known(scenes, PulledBy(d, asked, reached).had, d.saw.value.compared.remote[p])
  {
    if m.side == There {
      RenamedKnown(scenes, w, d, asked, reached, m);
    } else {
      AskedMoveIs(scenes, w, d, asked, m);
      MovesApart(SidesOf(d.saw.value.compared), d.saw.value.paths, m, m);
      TakenInKnown(scenes, d, asked, reached, m);
    }
  }

  lemma {:induction false} TakenInKnown(scenes: Scenes, d: Device, asked: set<Path>, reached: set<Path>, m: Move)
    requires d.saw.Some? && Pairing(d.saw.value.compared.found, scenes, SidesOf(d.saw.value.compared), d.saw.value.paths)
    requires var c := d.saw.value.compared; m in AskedMoves(c, asked) && m.side == Here && m.from in WrittenBy(d.disk, c, asked, reached) && m.from in c.remote
    ensures Known(scenes, PulledBy(d, asked, reached).had, d.saw.value.compared.remote[m.from])
  {
    var c := d.saw.value.compared;
    var disk := Pulled(d.disk, c, asked, reached);
    PairingApart(c.found, scenes, SidesOf(c), d.saw.value.paths);
    PulledMove(d.disk, c, asked, reached, m);
    assert disk[m.dest] in disk.Values;
    KnownIfHad(scenes, PulledBy(d, asked, reached).had, disk[m.dest]);
  }

  lemma {:induction false} PullOk(scenes: Scenes, w: World, d: Device, asked: set<Path>, reached: set<Path>)
    requires DeviceOk(scenes, w, d) && d.saw.Some? && d.saw.value.remote.Some?
    ensures DeviceOk(scenes, w, PulledBy(d, asked, reached))
  {
    var c, next := d.saw.value.compared, PulledBy(d, asked, reached);
    var written := WrittenBy(d.disk, c, asked, reached);
    KnownMore(scenes, d.had, next.had, BaseOf(d));
    forall p | p in written && p in c.remote ensures Known(scenes, next.had, c.remote[p]) {
      PulledKnown(scenes, w, d, asked, reached, p);
    }
    KnownOverlay(scenes, next.had, BaseOf(d), c.remote, written);
    assert forall p :: p in next.disk ==> next.disk[p] in next.disk.Values;
  }

  /** A new head is no head a kept compare saw. */
  lemma {:induction false} NewHeadOk(scenes: Scenes, w: World, w2: World, d: Device)
    requires DeviceOk(scenes, w, d) && w2.head.Some? && w2.head.value.id == w.next && w2.next == w.next + 1
    ensures DeviceOk(scenes, w2, d)
  {
  }

  lemma {:induction false} GoneHeadOk(scenes: Scenes, w: World, w2: World, d: Device)
    requires DeviceOk(scenes, w, d) && w2.head.None? && w2.next == w.next
    ensures DeviceOk(scenes, w2, d)
  {
  }

  lemma {:induction false} SameHeadOk(scenes: Scenes, w: World, w2: World, d: Device)
    requires DeviceOk(scenes, w, d) && w2.head == w.head && w2.next == w.next
    ensures DeviceOk(scenes, w2, d)
  {
  }

  /** What one step keeps. */
  lemma {:induction false} DoOk(scenes: Scenes, w: World, step: Step)
    requires WorldOk(scenes, w) && Enabled(scenes, w, step)
    ensures WorldOk(scenes, Do(scenes, w, step))
  {
    var i, w2 := step.device, Do(scenes, w, step);
    var d := w.devices[i];
    match step {
      case Edit(_, p, content) => EditOk(scenes, w, d, p, content);
      case Compare(_, skipped, found) => CompareOk(scenes, w, d, skipped, found);
      case Push(_, asked) => PushOk(scenes, w, d, asked);
      case Pull(_, asked, reached) => PullOk(scenes, w, d, asked, reached);
      case Vanish(_) =>
    }
    forall j | 0 <= j < |w2.devices| ensures DeviceOk(scenes, w2, w2.devices[j]) {
      if w2.head.None? { GoneHeadOk(scenes, w, w2, w2.devices[j]); }
      else if w2.head == w.head && w2.next == w.next { SameHeadOk(scenes, w, w2, w2.devices[j]); }
      else { NewHeadOk(scenes, w, w2, w2.devices[j]); }
    }
  }

  /** `ws` are the worlds a run goes through, from one nobody has synced anything in. */
  ghost predicate Run(scenes: Scenes, ws: seq<World>, steps: seq<Step>)
  {
    && |ws| == |steps| + 1 && Fresh(ws[0])
    && forall i :: 0 <= i < |steps| ==> Enabled(scenes, ws[i], steps[i]) && ws[i + 1] == Do(scenes, ws[i], steps[i])
  }

  ghost predicate Fresh(w: World)
  {
    w.head.None? && forall i :: 0 <= i < |w.devices| ==>
      w.devices[i].saw.None? && w.devices[i].baseline.None? && forall p :: p in w.devices[i].disk ==> w.devices[i].disk[p] in w.devices[i].had
  }

  lemma {:induction false} RunOk(scenes: Scenes, ws: seq<World>, steps: seq<Step>, i: nat)
    requires Run(scenes, ws, steps) && i <= |steps|
    ensures WorldOk(scenes, ws[i])
  {
    if i > 0 {
      RunOk(scenes, ws, steps, i - 1);
      DoOk(scenes, ws[i - 1], steps[i - 1]);
    }
  }

  lemma {:induction false} PushReplaces(scenes: Scenes, w: World, step: Step, p: Path)
    requires WorldOk(scenes, w) && Enabled(scenes, w, step) && step.Push?
    requires At(FilesOf(w.head), p) != At(FilesOf(Do(scenes, w, step).head), p)
    ensures var d := w.devices[step.device];
      && p in step.asked && At(FilesOf(Do(scenes, w, step).head), p) == At(d.saw.value.compared.snapshot, p)
      && (p in FilesOf(w.head) ==>
        SameContent(scenes, At(FilesOf(w.head), p), At(BaseOf(d), p)) && Known(scenes, d.had, FilesOf(w.head)[p]))
  {
    var d := w.devices[step.device];
    var saw := d.saw.value;
    assert SawOk(scenes, w, d, saw);
    OverlayAt(saw.compared.remote, saw.compared.snapshot, PushedPaths(saw.compared, step.asked), p);
    PushedIsLocal(saw.compared, scenes, saw.paths, step.asked, p);
    if p in FilesOf(w.head) {
      PushedIsKnown(scenes, w, d, p);
    }
  }

  lemma {:induction false} KnownLike(scenes: Scenes, had: set<Hash>, g: Hash, h: Hash)
    requires Known(scenes, had, g) && SameContent(scenes, Some(h), Some(g))
    ensures Known(scenes, had, h)
  {
    var x :| x in had && SameContent(scenes, Some(x), Some(g));
  }

  /** What agrees with the baseline was on this device's disk once. */
  lemma {:induction false} PushedIsKnown(scenes: Scenes, w: World, d: Device, p: Path)
    requires AllKnown(scenes, d.had, BaseOf(d)) && p in FilesOf(w.head)
    requires SameContent(scenes, Some(FilesOf(w.head)[p]), At(BaseOf(d), p)) && p in BaseOf(d)
    ensures Known(scenes, d.had, FilesOf(w.head)[p])
  {
    KnownLike(scenes, d.had, BaseOf(d)[p], FilesOf(w.head)[p]);
  }

  /**
   * A push replaces the head's version of a path only if it was asked for, the pusher's baseline holds that same
   * content, and the pusher had it on disk once; what it puts there is its own disk's, as compared.
   */
  lemma {:induction false} PushReplacesOnlyKnown(scenes: Scenes, ws: seq<World>, steps: seq<Step>, i: nat, p: Path)
    requires Run(scenes, ws, steps) && i < |steps| && steps[i].Push?
    requires At(FilesOf(ws[i].head), p) != At(FilesOf(ws[i + 1].head), p)
    ensures var d := ws[i].devices[steps[i].device];
      && p in steps[i].asked && At(FilesOf(ws[i + 1].head), p) == At(d.saw.value.compared.snapshot, p)
      && (p in FilesOf(ws[i].head) ==>
        SameContent(scenes, At(FilesOf(ws[i].head), p), At(BaseOf(d), p)) && Known(scenes, d.had, FilesOf(ws[i].head)[p]))
  {
    var w, d := ws[i], ws[i].devices[steps[i].device];
    RunOk(scenes, ws, steps, i);
    assert Enabled(scenes, w, steps[i]) && ws[i + 1] == Do(scenes, w, steps[i]);
    PushReplaces(scenes, w, steps[i], p);
  }

  lemma {:induction false} CarriedIsListed(c: Compared, scenes: Scenes, paths: set<Path>, p: Path)
    requires Pairing(c.found, scenes, SidesOf(c), paths) && p in Carried(scenes, SidesOf(c), paths)
    ensures p in PathsIn(c.found.lists.remoteChanges)
  {
    assert ChangeAt(SidesOf(c), true, p) in c.found.lists.remoteChanges;
  }

  lemma {:induction false} CarriedMoves(c: Compared, scenes: Scenes, paths: set<Path>, p: Path) returns (m: Move)
    requires Pairing(c.found, scenes, SidesOf(c), paths) && p in Carried(scenes, SidesOf(c), paths)
    ensures m in c.found.moves && m.from == p
  {
    m :| m.from == p && CarriedBy(scenes, SidesOf(c), paths, m);
    assert IsMove(SidesOf(c), paths, m);
  }

  lemma {:induction false} AskedEnd(c: Compared, asked: set<Path>, m: Move, p: Path)
    requires NoRepeats(c.found.moves) && m in c.found.moves && IsAsked(c, asked, m) && p in EndsOf(m)
    ensures p in Endpoints(AskedMoves(c, asked))
  {
    AskedAre(c, asked, c.found.moves);
    EndpointsAre(AskedMoves(c, asked), p);
  }

  /** A carried path asked for is one of an asked move's. */
  lemma {:induction false} CarriedIsAsked(c: Compared, scenes: Scenes, paths: set<Path>, asked: set<Path>, p: Path)
    requires Pairing(c.found, scenes, SidesOf(c), paths) && p in asked && p in Carried(scenes, SidesOf(c), paths)
    ensures p in Endpoints(AskedMoves(c, asked))
  {
    CarriedIsListed(c, scenes, paths, p);
    var m := CarriedMoves(c, scenes, paths, p);
    AskedEnd(c, asked, m, p);
  }

  lemma {:induction false} PullReplaces(scenes: Scenes, w: World, d: Device, asked: set<Path>, reached: set<Path>, p: Path)
    requires DeviceOk(scenes, w, d) && d.saw.Some? && d.saw.value.remote.Some?
    requires At(d.disk, p) != At(PulledBy(d, asked, reached).disk, p) && p !in Endpoints(AskedMoves(d.saw.value.compared, asked))
    ensures p in asked && SameContent(scenes, At(d.disk, p), At(BaseOf(d), p))
    ensures At(PulledBy(d, asked, reached).disk, p) == At(d.saw.value.compared.remote, p)
  {
    var saw := d.saw.value;
    var c := saw.compared;
    assert SawOk(scenes, w, d, saw);
    PairingApart(c.found, scenes, SidesOf(c), saw.paths);
    PulledAt(d.disk, c, asked, reached, p);
    AskedIsRemote(c, scenes, saw.paths, asked, p);
  }

  /** A path asked for as the other side's change, and in no asked move, changed there only. */
  lemma {:induction false} AskedIsRemote(c: Compared, scenes: Scenes, paths: set<Path>, asked: set<Path>, p: Path)
    requires Pairing(c.found, scenes, SidesOf(c), paths) && p in asked && p in PathsIn(c.found.lists.remoteChanges)
    requires p !in Endpoints(AskedMoves(c, asked))
    ensures ClassAt(scenes, SidesOf(c), p) == RemoteChange
  {
    var change :| change in c.found.lists.remoteChanges && change.path == p;
    if p in Carried(scenes, SidesOf(c), paths) { CarriedIsAsked(c, scenes, paths, asked, p); }
  }

  /**
   * Outside the moves it was asked for, a pull changes a path only if it was asked for and the file is what the
   * baseline holds: nothing unpublished is overwritten or deleted.
   */
  lemma {:induction false} PullReplacesOnlyBaseline(scenes: Scenes, ws: seq<World>, steps: seq<Step>, i: nat, p: Path)
    requires Run(scenes, ws, steps) && i < |steps| && steps[i].Pull?
    requires At(ws[i].devices[steps[i].device].disk, p) != At(ws[i + 1].devices[steps[i].device].disk, p)
    requires p !in Endpoints(AskedMoves(ws[i].devices[steps[i].device].saw.value.compared, steps[i].asked))
    ensures var d, d2 := ws[i].devices[steps[i].device], ws[i + 1].devices[steps[i].device];
      && p in steps[i].asked && SameContent(scenes, At(d.disk, p), At(BaseOf(d), p))
      && At(d2.disk, p) == At(d.saw.value.compared.remote, p)
  {
    var w, d := ws[i], ws[i].devices[steps[i].device];
    RunOk(scenes, ws, steps, i);
    assert Enabled(scenes, w, steps[i]) && ws[i + 1] == Do(scenes, w, steps[i]);
    assert SawOk(scenes, w, d, d.saw.value);
    PullReplaces(scenes, w, d, steps[i].asked, steps[i].reached, p);
  }

  /** An asked move that lands overwrites nothing but the very content the file had before it moved. */
  lemma {:induction false} MovesOverwriteNothing(scenes: Scenes, ws: seq<World>, steps: seq<Step>, i: nat, m: Move)
    requires Run(scenes, ws, steps) && i < |steps| && steps[i].Pull?
    requires m in AskedMoves(ws[i].devices[steps[i].device].saw.value.compared, steps[i].asked)
    ensures var d, d2 := ws[i].devices[steps[i].device], ws[i + 1].devices[steps[i].device];
      var c := d.saw.value.compared;
      && m.from in c.baseline && m.from != m.dest
      && (At(d2.disk, m.dest) != At(d.disk, m.dest) ==>
        if m.side == There then m.dest !in d.disk && At(d2.disk, m.dest) == At(d.disk, m.from)
        else At(d.disk, m.dest) == Some(c.baseline[m.from]) && At(d2.disk, m.dest) == At(c.remote, m.from))
      && (At(d2.disk, m.from) != At(d.disk, m.from) ==> At(d2.disk, m.dest) == At(d.disk, m.from))
  {
    var w, d := ws[i], ws[i].devices[steps[i].device];
    RunOk(scenes, ws, steps, i);
    var saw := d.saw.value;
    var c := saw.compared;
    assert SawOk(scenes, w, d, saw);
    PairingApart(c.found, scenes, SidesOf(c), saw.paths);
    AskedMoveIs(scenes, w, d, steps[i].asked, m);
    MovesApart(SidesOf(c), saw.paths, m, m);
    PulledMove(d.disk, c, steps[i].asked, steps[i].reached, m);
  }

  /** How a path stands for a device that looks now. */
  function ClassNow(scenes: Scenes, w: World, i: nat, p: Path): Class
    requires i < |w.devices|
  {
    ClassAt(scenes, SidesNow(w, w.devices[i], w.devices[i].disk), p)
  }

  /** A path a pull was asked neither for, nor to move, is not written. */
  lemma {:induction false} UnaskedUnwritten(scenes: Scenes, w: World, d: Device, asked: set<Path>, reached: set<Path>, p: Path)
    requires DeviceOk(scenes, w, d) && d.saw.Some?
    requires p !in asked && p !in Endpoints(AskedMoves(d.saw.value.compared, asked))
    ensures p !in WrittenBy(d.disk, d.saw.value.compared, asked, reached)
  {
    var saw := d.saw.value;
    assert SawOk(scenes, w, d, saw);
    PairingApart(saw.compared.found, scenes, SidesOf(saw.compared), saw.paths);
    PulledAt(d.disk, saw.compared, asked, reached, p);
  }

  lemma {:induction false} UnwrittenOnDisk(scenes: Scenes, w: World, d: Device, asked: set<Path>, reached: set<Path>, p: Path)
    requires DeviceOk(scenes, w, d) && d.saw.Some? && p !in WrittenBy(d.disk, d.saw.value.compared, asked, reached)
    ensures At(Pulled(d.disk, d.saw.value.compared, asked, reached), p) == At(d.disk, p)
  {
    var c := d.saw.value.compared;
    assert SawOk(scenes, w, d, d.saw.value);
    PairingApart(c.found, scenes, SidesOf(c), d.saw.value.paths);
    EndpointsAre(AskedMoves(c, asked), p);
    if p in Endpoints(AskedMoves(c, asked)) {
      var m :| m in AskedMoves(c, asked) && p in EndsOf(m);
      PulledMove(d.disk, c, asked, reached, m);
    } else {
      PulledAt(d.disk, c, asked, reached, p);
    }
  }

  /** A path a pull does not write is as it was, on the disk and in the baseline. */
  lemma {:induction false} PulledOutside(scenes: Scenes, w: World, d: Device, asked: set<Path>, reached: set<Path>, p: Path)
    requires DeviceOk(scenes, w, d) && d.saw.Some? && p !in WrittenBy(d.disk, d.saw.value.compared, asked, reached)
    ensures At(PulledBy(d, asked, reached).disk, p) == At(d.disk, p)
    ensures At(BaseOf(PulledBy(d, asked, reached)), p) == At(BaseOf(d), p)
  {
    UnwrittenOnDisk(scenes, w, d, asked, reached, p);
    OverlayAt(BaseOf(d), d.saw.value.compared.remote, WrittenBy(d.disk, d.saw.value.compared, asked, reached), p);
  }

  /** So it keeps its class. */
  lemma {:induction false} UnwrittenKeeps(scenes: Scenes, ws: seq<World>, steps: seq<Step>, i: nat, p: Path)
    requires Run(scenes, ws, steps) && i < |steps| && steps[i].Pull?
    requires var d := ws[i].devices[steps[i].device]; p !in WrittenBy(d.disk, d.saw.value.compared, steps[i].asked, steps[i].reached)
    ensures ClassNow(scenes, ws[i + 1], steps[i].device, p) == ClassNow(scenes, ws[i], steps[i].device, p)
  {
    RunOk(scenes, ws, steps, i);
    PulledOutside(scenes, ws[i], ws[i].devices[steps[i].device], steps[i].asked, steps[i].reached, p);
  }

  /** A pull leaves the standing of every path it is asked neither to write nor to move. */
  lemma {:induction false} PullKeepsOthers(scenes: Scenes, ws: seq<World>, steps: seq<Step>, i: nat, p: Path)
    requires Run(scenes, ws, steps) && i < |steps| && steps[i].Pull?
    requires var c := ws[i].devices[steps[i].device].saw.value.compared; p !in steps[i].asked && p !in Endpoints(AskedMoves(c, steps[i].asked))
    ensures ClassNow(scenes, ws[i + 1], steps[i].device, p) == ClassNow(scenes, ws[i], steps[i].device, p)
  {
    RunOk(scenes, ws, steps, i);
    UnaskedUnwritten(scenes, ws[i], ws[i].devices[steps[i].device], steps[i].asked, steps[i].reached, p);
    UnwrittenKeeps(scenes, ws, steps, i, p);
  }

  /**
   * A published push leaves the standing of a path it was not asked for, unless the head had vanished and the
   * baseline still holds the path: the rest of the vault then reads as deleted by another device.
   */
  lemma {:induction false} PushKeepsOthers(scenes: Scenes, ws: seq<World>, steps: seq<Step>, i: nat, p: Path)
    requires Run(scenes, ws, steps) && i < |steps| && steps[i].Push?
    requires var d := ws[i].devices[steps[i].device]; Publishes(ws[i], d) && p !in PushedPaths(d.saw.value.compared, steps[i].asked)
    ensures ClassNow(scenes, ws[i + 1], steps[i].device, p) == ClassNow(scenes, ws[i], steps[i].device, p)
      <==> ws[i].head.Some? || p !in BaseOf(ws[i].devices[steps[i].device])
  {
    var w, d := ws[i], ws[i].devices[steps[i].device];
    RunOk(scenes, ws, steps, i);
    var saw := d.saw.value;
    var c := saw.compared;
    assert SawOk(scenes, w, d, saw);
    var pushed, files := PushedPaths(c, steps[i].asked), Published(c, steps[i].asked);
    OverlayAt(c.remote, c.snapshot, pushed, p);
    DeltaOfOverlay(c.remote, c.snapshot, pushed);
    OverlayAt(BaseOf(d), files, Delta(c.remote, files), p);
  }

  /** The sides a fresh compare has after a pull. */
  function AfterPull(c: Compared, disk: Files, previous: Files, asked: set<Path>, reached: set<Path>): Sides
  {
    Sides(Pulled(disk, c, asked, reached), c.remote, Overlay(previous, c.remote, WrittenBy(disk, c, asked, reached)))
  }

  /** A move asked for on a disk and a baseline still as compared. */
  ghost predicate MovePulled(scenes: Scenes, c: Compared, paths: set<Path>, disk: Files, previous: Files, asked: set<Path>, m: Move)
  {
    && Pairing(c.found, scenes, SidesOf(c), paths) && m in AskedMoves(c, asked)
    && At(disk, m.from) == At(c.snapshot, m.from) && At(disk, m.dest) == At(c.snapshot, m.dest)
    && At(previous, m.from) == At(c.baseline, m.from) && At(previous, m.dest) == At(c.baseline, m.dest)
  }

  lemma {:induction false} MovePulledIs(scenes: Scenes, c: Compared, paths: set<Path>, disk: Files, previous: Files, asked: set<Path>, reached: set<Path>, m: Move)
    requires MovePulled(scenes, c, paths, disk, previous, asked, m)
    ensures m.from != m.dest && m.from in Gone(SidesOf(c), paths, m.side) && m.dest in Arrived(SidesOf(c), paths, m.side)
    ensures At(if m.side == There then c.remote else c.snapshot, m.dest) == At(c.baseline, m.from)
    ensures var s := AfterPull(c, disk, previous, asked, reached);
      && At(s.local, m.dest) == Brought(disk, c, m) && At(s.local, m.from) == None
      && At(s.baseline, m.from) == At(c.remote, m.from) && At(s.baseline, m.dest) == At(c.remote, m.dest)
  {
    PairingApart(c.found, scenes, SidesOf(c), paths);
    AskedAre(c, asked, c.found.moves);
    assert m in c.found.moves;
    MovesApart(SidesOf(c), paths, m, m);
    assert m.from in Gone(SidesOf(c), paths, m.side) && m.dest in Arrived(SidesOf(c), paths, m.side);
    PulledMove(disk, c, asked, reached, m);
    var written := WrittenBy(disk, c, asked, reached);
    OverlayAt(previous, c.remote, written, m.from);
    OverlayAt(previous, c.remote, written, m.dest);
  }

  /**
   * A remote rename that crosses a local edit loses neither: once pulled, a fresh compare shows no conflict, and the
   * local edit, if there is one, at the new path.
   */
  lemma {:induction false} RemoteRenameKeepsEdit(scenes: Scenes, c: Compared, paths: set<Path>, disk: Files, previous: Files, asked: set<Path>, reached: set<Path>, m: Move)
    requires MovePulled(scenes, c, paths, disk, previous, asked, m) && m.side == There
    ensures var s := AfterPull(c, disk, previous, asked, reached);
      && At(s.local, m.dest) == At(c.snapshot, m.from) && ClassAt(scenes, s, m.from) == Unchanged
      && ClassAt(scenes, s, m.dest) == if SameContent(scenes, At(c.snapshot, m.from), At(c.baseline, m.from)) then Unchanged else LocalChange
  {
    MovePulledIs(scenes, c, paths, disk, previous, asked, reached, m);
  }

  /**
   * A local rename that crosses a remote edit loses neither: once pulled, the remote text sits at the new path, and a
   * fresh compare shows no conflict but the rename, left to push.
   */
  lemma {:induction false} LocalRenameTakesEdit(scenes: Scenes, c: Compared, paths: set<Path>, disk: Files, previous: Files, asked: set<Path>, reached: set<Path>, m: Move)
    requires MovePulled(scenes, c, paths, disk, previous, asked, m) && m.side == Here
    ensures var s := AfterPull(c, disk, previous, asked, reached);
      && At(s.local, m.dest) == At(c.remote, m.from) == At(s.baseline, m.from) && m.from in c.remote
      && ClassAt(scenes, s, m.from) == LocalChange && ChangeAt(s, false, m.from).kind == LocalDelete
      && ClassAt(scenes, s, m.dest) == LocalChange && ChangeAt(s, false, m.dest).kind == LocalAdd
  {
    MovePulledIs(scenes, c, paths, disk, previous, asked, reached, m);
    var s := AfterPull(c, disk, previous, asked, reached);
    assert m.from in c.remote && m.dest !in c.remote && At(s.local, m.dest) == At(c.remote, m.from);
    DeletedHere(scenes, s, m.from);
    AddedHere(scenes, s, m.dest);
  }

  lemma {:induction false} DeletedHere(scenes: Scenes, s: Sides, p: Path)
    requires At(s.local, p) == None && At(s.remote, p) == At(s.baseline, p) && At(s.baseline, p).Some?
    ensures ClassAt(scenes, s, p) == LocalChange && ChangeAt(s, false, p).kind == LocalDelete
  {
  }

  lemma {:induction false} AddedHere(scenes: Scenes, s: Sides, p: Path)
    requires At(s.local, p).Some? && At(s.remote, p) == None && At(s.baseline, p) == None
    ensures ClassAt(scenes, s, p) == LocalChange && ChangeAt(s, false, p).kind == LocalAdd
  {
  }

  /** The published head in storage. */
  class Storage {
    var head: Option<Manifest>

    constructor (head: Option<Manifest>)
      ensures this.head == head
    {
      this.head := head;
    }

    /** Publishes if the head is still the one expected, as one step. */
    method PublishWithGuard(manifest: Manifest, expected: Option<nat>) returns (published: bool)
      modifies this
      ensures published == (IdOf(old(head)) == expected)
      ensures head == if published then Some(manifest) else old(head)
    {
      published := IdOf(head) == expected;
      if published { head := Some(manifest); }
    }
  }

  /** The asked local changes, published over the head the compare saw; the baseline they lead to. */
  method PushPaths(storage: Storage, d: Device, asked: set<Path>, id: nat) returns (baseline: Option<Files>)
    requires d.saw.Some?
    requires forall c :: c in d.saw.value.compared.found.lists.localChanges ==> (c.kind == LocalDelete <==> c.path !in d.saw.value.compared.snapshot)
    requires DistinctPaths(d.saw.value.compared.found.lists.localChanges)
    modifies storage
    ensures baseline.Some? <==> IdOf(old(storage.head)) == IdOf(d.saw.value.remote)
    ensures baseline.Some? ==> storage.head == Some(Manifest(id, Published(d.saw.value.compared, asked))) && baseline == PushedBy(d, asked).baseline
    ensures baseline.None? ==> storage.head == old(storage.head)
  {
    var c := d.saw.value.compared;
    var changes := PlainOf(c.found.lists.localChanges, asked, {}, asked);
    PlainAre(c.found.lists.localChanges, asked, {}, asked);
    assert PathsIn(changes) == PushedPaths(c, asked);
    forall i | 0 <= i < |changes| ensures changes[i].kind == LocalDelete <==> changes[i].path !in c.snapshot { assert changes[i] in changes; }
    var files := BuildPartialFileMap(c.remote, c.snapshot, changes);
    var published := storage.PublishWithGuard(Manifest(id, files), IdOf(d.saw.value.remote));
    if !published { return None; }
    var delta := PublishedDelta(c.remote, files);
    var advanced := AdvanceBaselineForPaths(BaseOf(d), files, delta);
    baseline := Some(advanced);
  }
}
