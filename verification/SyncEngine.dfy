/**
 * Push and pull over file maps: packages/plugin/src/sync/engine.ts, packages/plugin/src/sync/pull-moves.ts and
 * packages/plugin/src/sync/baseline.ts.
 */
module SyncEngine {
  import opened Common
  import opened SyncDiff

  /** `base` with what `over` has, or lacks, at the given paths. */
  function Overlay(base: Files, over: Files, paths: set<Path>): Files
  {
    (map p | p in base && p !in paths :: base[p]) + (map p | p in over && p in paths :: over[p])
  }

  lemma {:induction false} OverlayAt(base: Files, over: Files, paths: set<Path>, p: Path)
    ensures At(Overlay(base, over, paths), p) == At(if p in paths then over else base, p)
  {
  }

  lemma {:induction false} SameFiles(x: Files, y: Files)
    requires forall q :: At(x, q) == At(y, q)
    ensures x == y
  {
    forall q ensures (q in x <==> q in y) && (q in x ==> x[q] == y[q]) { assert At(x, q) == At(y, q); }
  }

  lemma {:induction false} OverlayMore(base: Files, over: Files, paths: set<Path>, p: Path)
    ensures var r := Overlay(base, over, paths);
      Overlay(base, over, paths + {p}) == if p in over then r[p := over[p]] else r - {p}
  {
    var r := Overlay(base, over, paths);
    var x, y := Overlay(base, over, paths + {p}), if p in over then r[p := over[p]] else r - {p};
    forall q ensures At(x, q) == At(y, q) {
      OverlayAt(base, over, paths + {p}, q);
      OverlayAt(base, over, paths, q);
    }
    SameFiles(x, y);
  }

  function PathsIn(changes: seq<FileChange>): set<Path>
  {
    set c | c in changes :: c.path
  }

  lemma {:induction false} PathsInMore(changes: seq<FileChange>, i: nat)
    requires i < |changes|
    ensures PathsIn(changes[..i + 1]) == PathsIn(changes[..i]) + {changes[i].path}
  {
    assert changes[..i + 1] == changes[..i] + [changes[i]];
  }

  /** The remote's files with the pushed changes in. */
  method BuildPartialFileMap(base: Files, snapshot: Files, changes: seq<FileChange>) returns (next: Files)
    requires forall i :: 0 <= i < |changes| ==> (changes[i].kind == LocalDelete <==> changes[i].path !in snapshot)
    ensures next == Overlay(base, snapshot, PathsIn(changes))
  {
    next := base;
    assert Overlay(base, snapshot, {}) == base;
    for i := 0 to |changes|
      invariant next == Overlay(base, snapshot, PathsIn(changes[..i]))
    {
      var change := changes[i];
      PathsInMore(changes, i);
      OverlayMore(base, snapshot, PathsIn(changes[..i]), change.path);
      if change.kind == LocalDelete { next := next - {change.path}; } else { next := next[change.path := snapshot[change.path]]; }
    }
    assert changes[..|changes|] == changes;
  }

  /** Only `paths` advance: adopting more would adopt remote changes this device never pulled. */
  method AdvanceBaselineForPaths(previous: Files, published: Files, paths: set<Path>) returns (files: Files)
    ensures files == Overlay(previous, published, paths)
  {
    files := previous;
    var rest := paths;
    ghost var done: set<Path> := {};
    assert Overlay(previous, published, {}) == previous;
    while rest != {}
      invariant done + rest == paths && files == Overlay(previous, published, done)
      decreases |rest|
    {
      var path :| path in rest;
      OverlayMore(previous, published, done, path);
      if path in published { files := files[path := published[path]]; } else { files := files - {path}; }
      rest, done := rest - {path}, done + {path};
    }
    assert done == paths;
  }

  /** The paths two manifests differ at. */
  function Delta(before: Files, after: Files): set<Path>
  {
    set p | p in before.Keys + after.Keys && At(before, p) != At(after, p)
  }

  /** Those among the paths looked at. */
  ghost predicate DeltaOf(before: Files, after: Files, looked: set<Path>, paths: set<Path>)
  {
    forall p :: p in paths <==> p in looked && At(before, p) != At(after, p)
  }

  lemma {:induction false} DeltaMore(before: Files, after: Files, looked: set<Path>, paths: set<Path>, p: Path)
    requires DeltaOf(before, after, looked, paths)
    ensures DeltaOf(before, after, looked + {p}, if At(before, p) != At(after, p) then paths + {p} else paths)
  {
  }

  method PublishedDelta(before: Files, after: Files) returns (paths: set<Path>)
    ensures paths == Delta(before, after)
  {
    paths := {};
    var rest := after.Keys;
    ghost var looked: set<Path> := {};
    while rest != {}
      invariant rest <= after.Keys && looked + rest == after.Keys && DeltaOf(before, after, looked, paths)
      decreases |rest|
    {
      var path :| path in rest;
      DeltaMore(before, after, looked, paths, path);
      if At(before, path) != Some(after[path]) { paths := paths + {path}; }
      rest, looked := rest - {path}, looked + {path};
    }
    paths := AlsoGone(before, after, paths);
  }

  lemma {:induction false} GoneMore(before: Files, after: Files, looked: set<Path>, paths: set<Path>, p: Path)
    requires DeltaOf(before, after, looked, paths) && p in before && after.Keys <= looked
    ensures DeltaOf(before, after, looked + {p}, if p !in after then paths + {p} else paths)
  {
  }

  lemma {:induction false} DeltaDone(before: Files, after: Files, looked: set<Path>, paths: set<Path>)
    requires DeltaOf(before, after, looked, paths) && looked == after.Keys + before.Keys
    ensures paths == Delta(before, after)
  {
  }

  lemma {:induction false} OneMoreLooked(rest: set<Path>, looked: set<Path>, all: set<Path>, path: Path)
    requires looked + rest == all && path in rest
    ensures (looked + {path}) + (rest - {path}) == all && |rest - {path}| < |rest|
  {
  }

  /** And the paths only the first manifest has. */
  method AlsoGone(before: Files, after: Files, changed: set<Path>) returns (paths: set<Path>)
    requires DeltaOf(before, after, after.Keys, changed)
    ensures paths == Delta(before, after)
  {
    paths := changed;
    var rest := before.Keys;
    ghost var looked := after.Keys;
    while rest != {}
      invariant rest <= before.Keys && after.Keys <= looked && looked + rest == after.Keys + before.Keys && DeltaOf(before, after, looked, paths)
      decreases |rest|
    {
      var path :| path in rest;
      OneMoreLooked(rest, looked, after.Keys + before.Keys, path);
      GoneMore(before, after, looked, paths, path);
      if path !in after { paths := paths + {path}; }
      rest, looked := rest - {path}, looked + {path};
    }
    DeltaDone(before, after, looked, paths);
  }

  /** Publishing a push differs from the remote only at pushed paths; the baseline then holds what was published there. */
  lemma {:induction false} DeltaOfOverlay(base: Files, over: Files, paths: set<Path>)
    ensures Delta(base, Overlay(base, over, paths)) <= paths
    ensures forall p :: p in paths && p !in Delta(base, Overlay(base, over, paths)) ==> At(base, p) == At(over, p)
  {
    forall p ensures At(Overlay(base, over, paths), p) == At(if p in paths then over else base, p) { OverlayAt(base, over, paths, p); }
  }
}
