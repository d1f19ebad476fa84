/** Worlds in which a push changes how a path it was not asked for stands. */
module SyncExamples {
  import opened Common
  import opened SyncDiff
  import opened SyncMoves
  import opened SyncPairing
  import opened SyncEngine
  import opened SyncPull
  import opened SyncRuns
  import opened SyncPlaces
  import opened SyncStanding

  const H: Hash := "h"
  const T: Hash := "t"

  lemma {:induction false} NamesDiffer()
    ensures NameOf("a") == "a" && NameOf("b") == "b" && NameOf("c") == "c"
  {
    assert "a"[..0] == "" && "b"[..0] == "" && "c"[..0] == "";
  }

  // ---- a conflict that a push turns into a move

  /** A note deleted here and edited elsewhere, with two new copies of what it was. */
  function TwoCopies(): Sides { Sides(map["b" := H, "c" := H], map["a" := T], map["a" := H]) }

  /** The same after the push of one copy. */
  function OneCopyPushed(): Sides { Sides(map["b" := H, "c" := H], map["a" := T, "b" := H], map["a" := H, "b" := H]) }

  const THREE: set<Path> := {"a", "b", "c"}

  function CopiesFound(): DiffResult
  {
    DiffResult(Lists([ChangeAt(TwoCopies(), false, "b"), ChangeAt(TwoCopies(), false, "c")], [], [ConflictAt(TwoCopies(), "a")], []), [])
  }

  /** The device that edited the note. */
  function Editor(): Device { Device(map["a" := T], Some(map["a" := T]), {H, T}, None) }

  /** The one that deleted it, after the edits of `disk`. */
  function Copier(disk: Files): Device { Device(disk, Some(map["a" := H]), {H}, None) }

  function Edited1(disk: Files): World { World(Some(Manifest(1, map["a" := T])), [Copier(disk), Editor()], 2) }

  function CopiesWorld(): World { Edited1(map["b" := H, "c" := H]) }

  lemma {:induction false} NoMoves(m: Move)
    ensures !IsMove(TwoCopies(), THREE, m)
  {
    if m.side == Here { NoMovesHere(m.from, m.dest); } else { NoMovesThere(); }
  }

  lemma {:induction false} NoMovesHere(from: Path, dest: Path)
    ensures !Paired(Gone(TwoCopies(), THREE, Here), Arrived(TwoCopies(), THREE, Here), from, dest)
  {
    var gone, arrived := Gone(TwoCopies(), THREE, Here), Arrived(TwoCopies(), THREE, Here);
    NamesDiffer();
    assert gone == map["a" := H];
    assert arrived == map["b" := H, "c" := H];
    assert "b" in WithHash(arrived, H) && "c" in WithHash(arrived, H);
  }

  lemma {:induction false} NoMovesThere()
    ensures Gone(TwoCopies(), THREE, There) == map[]
  {
  }

  lemma {:induction false} OneMove()
    ensures IsMove(OneCopyPushed(), THREE, Move("a", "c", Here))
  {
    var gone, arrived := Gone(OneCopyPushed(), THREE, Here), Arrived(OneCopyPushed(), THREE, Here);
    assert gone == map["a" := H] && arrived == map["c" := H];
    assert WithHash(gone, H) == {"a"} && WithHash(arrived, H) == {"c"};
  }

  lemma {:induction false} CopiesClasses(scenes: Scenes)
    requires scenes(H) == None && scenes(T) == None
    ensures Of(scenes, TwoCopies(), THREE, LocalChange) == {"b", "c"} && Of(scenes, TwoCopies(), THREE, Conflicting) == {"a"}
    ensures Of(scenes, TwoCopies(), THREE, RemoteChange) == {} && Of(scenes, TwoCopies(), THREE, Converged) == {}
    ensures ClassAt(scenes, OneCopyPushed(), "a") == Conflicting
  {
    assert ClassAt(scenes, TwoCopies(), "a") == Conflicting;
    assert ClassAt(scenes, TwoCopies(), "b") == LocalChange && ClassAt(scenes, TwoCopies(), "c") == LocalChange;
  }

  lemma {:induction false} CopiesPaired(scenes: Scenes)
    requires scenes(H) == None && scenes(T) == None
    ensures Pairing(CopiesFound(), scenes, TwoCopies(), THREE)
    ensures Carried(scenes, TwoCopies(), THREE) == {}
  {
    CopiesClasses(scenes);
    forall m: Move ensures !IsMove(TwoCopies(), THREE, m) { NoMoves(m); }
    assert HeldBack(scenes, TwoCopies(), THREE) == {} && Carried(scenes, TwoCopies(), THREE) == {};
  }

  /** Where the conflicting path is before and after the push. */
  lemma {:induction false} CopiesPlaces(scenes: Scenes)
    requires scenes(H) == None && scenes(T) == None
    ensures PlaceAt(scenes, TwoCopies(), THREE, "a") == AmongConflicts && PlaceAt(scenes, OneCopyPushed(), THREE, "a") == AmongRemote
  {
    CopiesPaired(scenes);
    CopiesClasses(scenes);
    OneMove();
    assert "a" in Of(scenes, TwoCopies(), THREE, Conflicting);
    assert CarriedBy(scenes, OneCopyPushed(), THREE, Move("a", "c", Here));
  }

  /** The world after a compare, and after the push of one copy. */
  ghost predicate Resolves(scenes: Scenes, w: World, x: World)
  {
    && |w.devices| == |x.devices| == 2 && w.devices[0].saw.Some? && Publishes(w, w.devices[0])
    && "a" !in PushedPaths(w.devices[0].saw.value.compared, {"b"})
    && PlaceNow(scenes, w, w.devices[0], {}, "a") == AmongConflicts && PlaceNow(scenes, x, x.devices[0], {}, "a") == AmongRemote
  }

  function ComparedWorld(): World { CopiesWorld().(devices := [ComparedCopies(), Editor()]) }

  lemma {:induction false} LastPushResolves(scenes: Scenes)
    requires scenes(H) == None && scenes(T) == None
    ensures Enabled(scenes, CopiesWorld(), Compare(0, {}, CopiesFound()))
    ensures Do(scenes, CopiesWorld(), Compare(0, {}, CopiesFound())) == ComparedWorld()
    ensures Enabled(scenes, ComparedWorld(), Push(0, {"b"}))
    ensures Resolves(scenes, ComparedWorld(), Do(scenes, ComparedWorld(), Push(0, {"b"})))
  {
    CopiesPaired(scenes);
    CopiesCompared(scenes);
    CopiesPushed(scenes);
    CopiesPlaces(scenes);
  }

  function ComparedCopies(): Device
  {
    CopiesWorld().devices[0].(saw := Some(Saw(CopiesWorld().head, THREE, Compared(TwoCopies().local, TwoCopies().remote, TwoCopies().baseline, CopiesFound()))))
  }

  lemma {:induction false} CopiesCompared(scenes: Scenes)
    requires Pairing(CopiesFound(), scenes, TwoCopies(), THREE)
    ensures var w, compare := CopiesWorld(), Compare(0, {}, CopiesFound());
      && Enabled(scenes, w, compare) && Do(scenes, w, compare) == ComparedWorld()
      && NowSides(w, ComparedCopies(), {}) == TwoCopies() && SyncRuns.Looked(w, ComparedCopies(), {}) == THREE
  {
    var w := CopiesWorld();
    var d := w.devices[0];
    assert SidesNow(w, d, d.disk - {}) == TwoCopies() && SyncRuns.Looked(w, d, {}) == THREE;
    assert Agreed(CopiesFound()) == {};
  }

  lemma {:induction false} OneCopyOut(c: Compared)
    requires c == Compared(TwoCopies().local, TwoCopies().remote, TwoCopies().baseline, CopiesFound())
    ensures PushedPaths(c, {"b"}) == {"b"} && Published(c, {"b"}) == map["a" := T, "b" := H]
    ensures Delta(c.remote, Published(c, {"b"})) == {"b"}
  {
    var changes := CopiesFound().lists.localChanges;
    assert changes[0].path == "b" && changes[1].path == "c";
    assert PathsIn(changes) == {"b", "c"};
    assert Overlay(TwoCopies().remote, TwoCopies().local, {"b"}) == map["a" := T, "b" := H];
  }

  lemma {:induction false} CopiesPushed(scenes: Scenes)
    ensures var d := ComparedCopies(); var d2 := PushedBy(d, {"b"}); var w2 := HeadAfter(CopiesWorld(), d, {"b"});
      && PushedPaths(d.saw.value.compared, {"b"}) == {"b"}
      && NowSides(w2, d2, {}) == OneCopyPushed() && SyncRuns.Looked(w2, d2, {}) == THREE
  {
    var d := ComparedCopies();
    OneCopyOut(d.saw.value.compared);
    OneCopyIn();
  }

  lemma {:induction false} OneCopyIn()
    ensures Overlay(TwoCopies().baseline, map["a" := T, "b" := H], {"b"}) == OneCopyPushed().baseline
  {
  }

  lemma {:induction false} RunMore(scenes: Scenes, ws: seq<World>, steps: seq<Step>, step: Step)
    requires Run(scenes, ws, steps) && Enabled(scenes, ws[|steps|], step)
    ensures Run(scenes, ws + [Do(scenes, ws[|steps|], step)], steps + [step])
  {
    var xs, all := ws + [Do(scenes, ws[|steps|], step)], steps + [step];
    forall i | 0 <= i < |all| ensures Enabled(scenes, xs[i], all[i]) && xs[i + 1] == Do(scenes, xs[i], all[i]) {
      if i < |steps| {
        assert xs[i] == ws[i] && xs[i + 1] == ws[i + 1] && all[i] == steps[i];
      } else {
        assert xs[i] == ws[|steps|] && all[i] == step;
      }
    }
  }

  // ---- how two devices get there

  function Start(): Device { Device(map["a" := H], None, {H}, None) }

  function NewNote(): DiffResult { DiffResult(Lists([FileChange("a", LocalAdd, Some(H), None)], [], [], []), []) }

  function SameNote(): DiffResult { DiffResult(Lists([], [], [], ["a"]), []) }

  function ChangedNote(): DiffResult { DiffResult(Lists([FileChange("a", LocalModify, Some(T), Some(H))], [], [], []), []) }

  lemma {:induction false} NoMoveAlone(s: Sides, m: Move)
    ensures !IsMove(s, {"a"}, m)
  {
    assert m.from in Gone(s, {"a"}, m.side) && m.dest in Arrived(s, {"a"}, m.side) ==> m.from == "a" == m.dest;
  }

  /** One file compares to a list of its own. */
  lemma {:induction false} AlonePaired(scenes: Scenes, s: Sides, found: DiffResult)
    requires found.moves == [] && found.lists.remoteChanges == [] && found.lists.conflicts == []
    requires
      || (ClassAt(scenes, s, "a") == LocalChange && found.lists.localChanges == [ChangeAt(s, false, "a")] && found.lists.converged == [])
      || (ClassAt(scenes, s, "a") == Converged && found.lists.localChanges == [] && found.lists.converged == ["a"])
    ensures Pairing(found, scenes, s, {"a"})
  {
    forall m: Move ensures !IsMove(s, {"a"}, m) { NoMoveAlone(s, m); }
    assert HeldBack(scenes, s, {"a"}) == {} && Carried(scenes, s, {"a"}) == {};
    assert "a" in {"a"};
  }

  function Saw1(d: Device, remote: Option<Manifest>, baseline: Files, found: DiffResult): Device
  {
    d.(saw := Some(Saw(remote, {"a"}, Compared(d.disk, FilesOf(remote), baseline, found))))
  }

  const HEAD0: Option<Manifest> := Some(Manifest(0, map["a" := H]))

  function FirstPush(): World { World(HEAD0, [Copier(map["a" := H]), Start()], 1) }

  function Untouched(): World { World(None, [Start(), Start()], 0) }

  function Looked1(): World { World(None, [Saw1(Start(), None, map[], NewNote()), Start()], 0) }

  /** The first device publishes the note. */
  lemma {:induction false} NoteOut(scenes: Scenes)
    ensures var w := Untouched(); var compare := Compare(0, {}, NewNote());
      && Enabled(scenes, w, compare) && Do(scenes, w, compare) == Looked1()
    ensures var w := Looked1();
      Enabled(scenes, w, Push(0, {"a"})) && Do(scenes, w, Push(0, {"a"})) == FirstPush()
  {
    var w := Untouched();
    var s := SidesNow(w, Start(), Start().disk - {});
    assert s == Sides(map["a" := H], map[], map[]) && SyncRuns.Looked(w, Start(), {}) == {"a"};
    AlonePaired(scenes, s, NewNote());
    assert Agreed(NewNote()) == {};
    PushAlone(Saw1(Start(), None, map[], NewNote()), map["a" := H]);
  }

  /** What a push of the one path publishes, and the baseline it leads to. */
  lemma {:induction false} PushAlone(d: Device, files: Files)
    requires d.saw.Some? && d.disk == files && files.Keys == {"a"} && d.saw.value.compared.snapshot == files
    requires |d.saw.value.compared.found.lists.localChanges| == 1 && d.saw.value.compared.found.lists.localChanges[0].path == "a"
    requires d.saw.value.compared.remote.Keys <= {"a"} && BaseOf(d).Keys <= {"a"} && At(d.saw.value.compared.remote, "a") != At(files, "a")
    ensures Published(d.saw.value.compared, {"a"}) == files && PushedBy(d, {"a"}) == d.(baseline := Some(files), saw := None)
  {
    var c := d.saw.value.compared;
    assert PathsIn(c.found.lists.localChanges) == {"a"};
    assert PushedPaths(c, {"a"}) == {"a"};
    assert Published(c, {"a"}) == files;
    assert Delta(c.remote, files) == {"a"};
    assert Overlay(BaseOf(d), files, {"a"}) == files;
  }

  /** The second device had the same file: its compare adopts it. */
  function Adopted(): Device { Saw1(Copier(map["a" := H]), HEAD0, map[], SameNote()) }

  lemma {:induction false} NoteIn(scenes: Scenes)
    ensures Enabled(scenes, FirstPush(), Compare(1, {}, SameNote()))
    ensures Do(scenes, FirstPush(), Compare(1, {}, SameNote())) == FirstPush().(devices := [Copier(map["a" := H]), Adopted()])
  {
    var w := FirstPush();
    var s := SidesNow(w, Start(), Start().disk - {});
    assert s == Sides(map["a" := H], map["a" := H], map[]) && SyncRuns.Looked(w, Start(), {}) == {"a"};
    AlonePaired(scenes, s, SameNote());
    assert Agreed(SameNote()) == {"a"};
    assert Overlay(map[], s.remote, {"a"}) == map["a" := H];
  }

  function Changed(): Device { Device(map["a" := T], Some(map["a" := H]), {H, T}, None) }

  function ChangedWorld(d: Device): World { World(HEAD0, [Copier(map["a" := H]), d], 1) }

  /** It edits the note and publishes that. */
  lemma {:induction false} NoteEdited(scenes: Scenes)
    ensures Do(scenes, ChangedWorld(Adopted()), Edit(1, "a", Some(T))) == ChangedWorld(Changed().(saw := Adopted().saw))
  {
    assert map["a" := H]["a" := T] == map["a" := T] && {H} + {T} == {H, T};
    assert Edited(Adopted(), "a", Some(T)) == Changed().(saw := Adopted().saw);
  }

  lemma {:induction false} NoteChanged(scenes: Scenes)
    requires scenes(H) == None && scenes(T) == None
    ensures var w := ChangedWorld(Changed().(saw := Adopted().saw)); var compare := Compare(1, {}, ChangedNote());
      && Enabled(scenes, w, compare) && Do(scenes, w, compare) == ChangedWorld(Saw1(Changed(), HEAD0, map["a" := H], ChangedNote()))
  {
    var d := Changed().(saw := Adopted().saw);
    var w := ChangedWorld(d);
    var s := SidesNow(w, d, d.disk - {});
    assert s == Sides(map["a" := T], map["a" := H], map["a" := H]) && SyncRuns.Looked(w, d, {}) == {"a"};
    AlonePaired(scenes, s, ChangedNote());
    assert Agreed(ChangedNote()) == {};
  }

  lemma {:induction false} NotePublished(scenes: Scenes)
    ensures var w := ChangedWorld(Saw1(Changed(), HEAD0, map["a" := H], ChangedNote()));
      Enabled(scenes, w, Push(1, {"a"})) && Do(scenes, w, Push(1, {"a"})) == Edited1(map["a" := H])
  {
    PushAlone(Saw1(Changed(), HEAD0, map["a" := H], ChangedNote()), map["a" := T]);
  }

  /** The first device replaces its note by two copies of what it was. */
  lemma {:induction false} NoteCopied(scenes: Scenes)
    ensures Do(scenes, Edited1(map["a" := H]), Edit(0, "a", None)) == Edited1(map[])
    ensures Do(scenes, Edited1(map[]), Edit(0, "b", Some(H))) == Edited1(map["b" := H])
    ensures Do(scenes, Edited1(map["b" := H]), Edit(0, "c", Some(H))) == CopiesWorld()
  {
    assert map["a" := H] - {"a"} == map[] && map[]["b" := H] == map["b" := H] && {H} + {H} == {H};
    assert map["b" := H]["c" := H] == map["b" := H, "c" := H];
  }

  lemma {:induction false} More(scenes: Scenes, ws: seq<World>, steps: seq<Step>, step: Step, w: World) returns (us: seq<World>, more: seq<Step>)
    requires Run(scenes, ws, steps) && Enabled(scenes, ws[|steps|], step) && Do(scenes, ws[|steps|], step) == w
    ensures Run(scenes, us, more) && |more| == |steps| + 1 && us[|more|] == w && us[|steps|] == ws[|steps|] && more[|steps|] == step
  {
    RunMore(scenes, ws, steps, step);
    us, more := ws + [w], steps + [step];
  }

  lemma {:induction false} StartsFresh(scenes: Scenes)
    ensures Run(scenes, [Untouched()], [])
  {
  }

  lemma {:induction false} NotePushed(scenes: Scenes) returns (ws: seq<World>, steps: seq<Step>)
    ensures Run(scenes, ws, steps) && |steps| == 2 && ws[2] == FirstPush()
  {
    NoteOut(scenes);
    StartsFresh(scenes);
    ws, steps := More(scenes, [Untouched()], [], Compare(0, {}, NewNote()), Looked1());
    ws, steps := More(scenes, ws, steps, Push(0, {"a"}), FirstPush());
  }

  lemma {:induction false} NoteShared(scenes: Scenes) returns (ws: seq<World>, steps: seq<Step>)
    ensures Run(scenes, ws, steps) && |steps| == 3 && ws[3] == ChangedWorld(Adopted())
  {
    NoteIn(scenes);
    ws, steps := NotePushed(scenes);
    ws, steps := More(scenes, ws, steps, Compare(1, {}, SameNote()), ChangedWorld(Adopted()));
  }

  lemma {:induction false} EditsOut(scenes: Scenes) returns (ws: seq<World>, steps: seq<Step>)
    requires scenes(H) == None && scenes(T) == None
    ensures Run(scenes, ws, steps) && |steps| == 6 && ws[6] == Edited1(map["a" := H])
  {
    NoteEdited(scenes);
    NoteChanged(scenes);
    NotePublished(scenes);
    ws, steps := NoteShared(scenes);
    ws, steps := More(scenes, ws, steps, Edit(1, "a", Some(T)), ChangedWorld(Changed().(saw := Adopted().saw)));
    ws, steps := More(scenes, ws, steps, Compare(1, {}, ChangedNote()), ChangedWorld(Saw1(Changed(), HEAD0, map["a" := H], ChangedNote())));
    ws, steps := More(scenes, ws, steps, Push(1, {"a"}), Edited1(map["a" := H]));
  }

  /**
   * Two devices share a note; one edits it, the other replaces it by two copies. The push of one copy leaves the other
   * alone, so that the conflict nobody asked about is a move now.
   */
  lemma {:induction false} PairingCanResolve(scenes: Scenes) returns (ws: seq<World>, steps: seq<Step>)
    requires scenes(H) == None && scenes(T) == None
    ensures Run(scenes, ws, steps) && |steps| == 11 && steps[10] == Push(0, {"b"}) && Resolves(scenes, ws[10], ws[11])
  {
    ws, steps := EditsOut(scenes);
    NoteCopied(scenes);
    LastPushResolves(scenes);
    ws, steps := More(scenes, ws, steps, Edit(0, "a", None), Edited1(map[]));
    ws, steps := More(scenes, ws, steps, Edit(0, "b", Some(H)), Edited1(map["b" := H]));
    ws, steps := More(scenes, ws, steps, Edit(0, "c", Some(H)), CopiesWorld());
    ws, steps := More(scenes, ws, steps, Compare(0, {}, CopiesFound()), ComparedWorld());
    ws, steps := More(scenes, ws, steps, Push(0, {"b"}), Do(scenes, ComparedWorld(), Push(0, {"b"})));
  }

  // ---- a head that vanishes between two pushes

  const BOTH: Files := map["a" := H, "b" := T]

  function NewFiles(): Sides { Sides(BOTH, map[], map[]) }

  /** With no head, both files are new here, whatever the baseline. */
  function NewFound(): DiffResult
  {
    DiffResult(Lists([ChangeAt(NewFiles(), false, "a"), ChangeAt(NewFiles(), false, "b")], [], [], []), [])
  }

  lemma {:induction false} NewPaired(scenes: Scenes)
    ensures Pairing(NewFound(), scenes, NewFiles(), {"a", "b"})
  {
    var s, paths := NewFiles(), {"a", "b"};
    assert ClassAt(scenes, s, "a") == LocalChange && ClassAt(scenes, s, "b") == LocalChange;
    assert Of(scenes, s, paths, LocalChange) == paths;
    forall m: Move ensures !IsMove(s, paths, m) { assert Gone(s, paths, m.side) == map[]; }
    assert HeldBack(scenes, s, paths) == {} && Carried(scenes, s, paths) == {};
  }

  function At0(baseline: Option<Files>): Device { Device(BOTH, baseline, {H, T}, None) }

  function Saw0(baseline: Option<Files>): Device
  {
    At0(baseline).(saw := Some(Saw(None, {"a", "b"}, Compared(BOTH, map[], map[], NewFound()))))
  }

  lemma {:induction false} OnePushed(baseline: Option<Files>, p: Path)
    requires p in {"a", "b"}
    ensures var c := Saw0(baseline).saw.value.compared;
      PushedPaths(c, {p}) == {p} && Published(c, {p}) == map[p := BOTH[p]] && Delta(c.remote, Published(c, {p})) == {p}
  {
    var changes := NewFound().lists.localChanges;
    assert changes[0].path == "a" && changes[1].path == "b";
    assert PathsIn(changes) == {"a", "b"};
    assert Overlay(map[], BOTH, {p}) == map[p := BOTH[p]];
  }

  /** A push of one file, and the baseline it leads to. */
  lemma {:induction false} PushOne(scenes: Scenes, w: World, baseline: Option<Files>, p: Path, next: Files)
    requires w.head.None? && w.devices == [Saw0(baseline)] && p in {"a", "b"}
    requires next == BaseOf(At0(baseline))[p := BOTH[p]]
    ensures PushedPaths(Saw0(baseline).saw.value.compared, {p}) == {p}
    ensures Do(scenes, w, Push(0, {p})) == World(Some(Manifest(w.next, map[p := BOTH[p]])), [At0(Some(next))], w.next + 1)
  {
    OnePushed(baseline, p);
    assert Overlay(BaseOf(At0(baseline)), map[p := BOTH[p]], {p}) == next;
    assert PushedBy(Saw0(baseline), {p}) == At0(Some(next));
  }

  lemma {:induction false} CompareBoth(scenes: Scenes, w: World, baseline: Option<Files>)
    requires w.head.None? && w.devices == [At0(baseline)] && (baseline.Some? ==> baseline.value.Keys <= {"a"})
    ensures Enabled(scenes, w, Compare(0, {}, NewFound()))
    ensures Do(scenes, w, Compare(0, {}, NewFound())) == w.(devices := [Saw0(baseline)])
  {
    NewPaired(scenes);
    assert SidesNow(w, At0(baseline), BOTH - {}) == NewFiles() && SyncRuns.Looked(w, At0(baseline), {}) == {"a", "b"};
    assert Agreed(NewFound()) == {};
  }

  const ONE: Files := map["a" := H]

  function Pushed1(): World { World(Some(Manifest(0, ONE)), [At0(Some(ONE))], 1) }

  function Vanished(): World { Pushed1().(head := None) }

  function ComparedAgain(): World { Vanished().(devices := [Saw0(Some(ONE))]) }

  function Pushed2(): World { World(Some(Manifest(1, map["b" := T])), [At0(Some(BOTH))], 2) }

  /** A published push this path was not pushed by, and a file new here that comes out as deleted elsewhere. */
  ghost predicate Rereads(scenes: Scenes, w: World, x: World, asked: set<Path>, p: Path)
  {
    && |w.devices| > 0 && |x.devices| > 0 && w.devices[0].saw.Some? && Publishes(w, w.devices[0])
    && p !in PushedPaths(w.devices[0].saw.value.compared, asked)
    && ClassNow(scenes, w, 0, p) == LocalChange && ClassNow(scenes, x, 0, p) == RemoteChange
  }

  lemma {:induction false} LastPushRereads(scenes: Scenes)
    ensures Rereads(scenes, ComparedAgain(), Pushed2(), {"b"}, "a")
  {
    OnePushed(Some(ONE), "b");
  }

  /** A first compare and push, from a world nobody synced in. */
  lemma {:induction false} PushesFirst(scenes: Scenes) returns (ws: seq<World>, steps: seq<Step>)
    ensures Run(scenes, ws, steps) && |steps| == 2 && ws[2] == Pushed1()
  {
    var w0 := World(None, [At0(None)], 0);
    CompareBoth(scenes, w0, None);
    PushOne(scenes, w0.(devices := [Saw0(None)]), None, "a", ONE);
    ws, steps := [w0], [];
    RunMore(scenes, ws, steps, Compare(0, {}, NewFound()));
    ws, steps := ws + [Do(scenes, w0, Compare(0, {}, NewFound()))], steps + [Compare(0, {}, NewFound())];
    RunMore(scenes, ws, steps, Push(0, {"a"}));
    ws, steps := ws + [Do(scenes, ws[1], Push(0, {"a"}))], steps + [Push(0, {"a"})];
  }

  lemma {:induction false} VanishOnce(scenes: Scenes)
    ensures Enabled(scenes, Pushed1(), Vanish(0)) && Do(scenes, Pushed1(), Vanish(0)) == Vanished()
  {
  }

  lemma {:induction false} PushesAgain(scenes: Scenes)
    ensures Enabled(scenes, Vanished(), Compare(0, {}, NewFound())) && Do(scenes, Vanished(), Compare(0, {}, NewFound())) == ComparedAgain()
    ensures Enabled(scenes, ComparedAgain(), Push(0, {"b"})) && Do(scenes, ComparedAgain(), Push(0, {"b"})) == Pushed2()
  {
    CompareBoth(scenes, Vanished(), Some(ONE));
    PushOne(scenes, ComparedAgain(), Some(ONE), "b", BOTH);
  }

  /** A device pushes one file, the storage loses its head, and the device pushes the other: the first then reads as deleted elsewhere. */
  lemma {:induction false} VanishedHeadRereads(scenes: Scenes) returns (ws: seq<World>, steps: seq<Step>)
    ensures Run(scenes, ws, steps) && |steps| == 5 && steps[4] == Push(0, {"b"})
    ensures Rereads(scenes, ws[4], ws[5], {"b"}, "a")
  {
    var compare, push := Compare(0, {}, NewFound()), Push(0, {"b"});
    ws, steps := PushesFirst(scenes);
    VanishOnce(scenes);
    PushesAgain(scenes);
    LastPushRereads(scenes);
    RunMore(scenes, ws, steps, Vanish(0));
    ws, steps := ws + [Do(scenes, ws[2], Vanish(0))], steps + [Vanish(0)];
    RunMore(scenes, ws, steps, compare);
    ws, steps := ws + [Do(scenes, ws[3], compare)], steps + [compare];
    RunMore(scenes, ws, steps, push);
    ws, steps := ws + [Do(scenes, ws[4], push)], steps + [push];
  }
}
