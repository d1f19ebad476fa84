/** Three-way classification of paths over manifests: packages/plugin/src/sync/diff.ts. */
module SyncDiff {
  import opened Common
  import Paths

  type Path = string

  /** A content hash; none is empty. */
  type Hash = h: string | h != "" witness "0"

  /** For a hash that is some drawing's, the fingerprint of the scene in it. */
  type Scenes = Hash -> Option<string>

  type Files = map<Path, Hash>

  function At(files: Files, p: Path): Option<Hash>
  {
    if p in files then Some(files[p]) else None
  }

  /** Equal hashes, or two hashes of drawings whose scenes are the same. */
  predicate SameContent(scenes: Scenes, a: Option<Hash>, b: Option<Hash>)
  {
    if a.None? || b.None? then a == b
    else a == b || (scenes(a.value).Some? && scenes(a.value) == scenes(b.value))
  }

  /** What a file holds as far as a compare can tell; of a drawing, only what it shows. */
  datatype Content = Nothing | Drawing(scene: string) | Bytes(hash: Hash)

  ghost function ContentOf(scenes: Scenes, h: Option<Hash>): Content
  {
    if h.None? then Nothing
    else match scenes(h.value) case Some(scene) => Drawing(scene) case None => Bytes(h.value)
  }

  /** Content is the same exactly where it is one drawing, or one file, or none at all: an equivalence, then. */
  lemma {:induction false} SameContentIsEquivalence(scenes: Scenes, a: Option<Hash>, b: Option<Hash>)
    ensures SameContent(scenes, a, b) <==> ContentOf(scenes, a) == ContentOf(scenes, b)
  {
  }

  /** How a path stands between the disk, the remote and the baseline. */
  datatype Class = Unchanged | LocalChange | RemoteChange | Conflicting | Converged

  function ClassOf(scenes: Scenes, local: Option<Hash>, remote: Option<Hash>, baseline: Option<Hash>): Class
  {
    var localChanged, remoteChanged := !SameContent(scenes, local, baseline), !SameContent(scenes, remote, baseline);
    if !localChanged && !remoteChanged then Unchanged
    else if localChanged && remoteChanged then (if SameContent(scenes, local, remote) then Converged else Conflicting)
    else if localChanged then LocalChange else RemoteChange
  }

  /** Only content counts, and the class says which of the three contents are one. */
  lemma {:induction false} ClassByContent(scenes: Scenes, l: Option<Hash>, r: Option<Hash>, b: Option<Hash>)
    ensures var kind, here, there, before := ClassOf(scenes, l, r, b), ContentOf(scenes, l), ContentOf(scenes, r), ContentOf(scenes, b);
      && (kind == Unchanged <==> here == before == there)
      && (kind == LocalChange <==> here != before == there)
      && (kind == RemoteChange <==> there != before == here)
      && (kind == Converged <==> here == there != before)
      && (kind == Conflicting <==> here != before && there != before && here != there)
  {
  }

  datatype ChangeType = LocalAdd | LocalModify | LocalDelete | RemoteAdd | RemoteModify | RemoteDelete

  function Classify(baseline: Option<Hash>, current: Option<Hash>, remote: bool): ChangeType
  {
    if baseline.None? then (if remote then RemoteAdd else LocalAdd)
    else if current.None? then (if remote then RemoteDelete else LocalDelete)
    else if remote then RemoteModify else LocalModify
  }

  /** A change adds what the baseline lacks, deletes what its own side lacks, and is of the side it happened on. */
  lemma {:induction false} KindTells(baseline: Option<Hash>, current: Option<Hash>, remote: bool)
    ensures var kind := Classify(baseline, current, remote);
      && (kind in {LocalAdd, RemoteAdd} <==> baseline.None?)
      && (kind in {LocalDelete, RemoteDelete} <==> baseline.Some? && current.None?)
      && (kind in {RemoteAdd, RemoteModify, RemoteDelete} <==> remote)
  {
  }

  datatype FileChange = FileChange(path: Path, kind: ChangeType, localHash: Option<Hash>, remoteHash: Option<Hash>)

  /** Hashes are "" where a side has no file. */
  datatype Conflict = Conflict(path: Path, localHash: string, remoteHash: string, baselineHash: Option<Hash>)

  /** The disk, the remote and the baseline, as one compare sees them. */
  datatype Sides = Sides(local: Files, remote: Files, baseline: Files)

  function ClassAt(scenes: Scenes, s: Sides, p: Path): Class
  {
    ClassOf(scenes, At(s.local, p), At(s.remote, p), At(s.baseline, p))
  }

  /** A path's change, as one side's list has it. */
  function ChangeAt(s: Sides, remote: bool, p: Path): FileChange
  {
    FileChange(p, Classify(At(s.baseline, p), At(if remote then s.remote else s.local, p), remote), At(s.local, p), At(s.remote, p))
  }

  function OrNone(h: Option<Hash>): string { if h.Some? then h.value else "" }

  function ConflictAt(s: Sides, p: Path): Conflict
  {
    Conflict(p, OrNone(At(s.local, p)), OrNone(At(s.remote, p)), At(s.baseline, p))
  }

  datatype Lists = Lists(localChanges: seq<FileChange>, remoteChanges: seq<FileChange>, conflicts: seq<Conflict>, converged: seq<Path>)

  ghost predicate ChangesAre(changes: seq<FileChange>, s: Sides, remote: bool, paths: set<Path>)
  {
    && (forall c :: c in changes <==> c.path in paths && c == ChangeAt(s, remote, c.path))
    && (forall i, j :: 0 <= i < j < |changes| ==> changes[i].path != changes[j].path)
  }

  ghost predicate ConflictsAre(conflicts: seq<Conflict>, s: Sides, paths: set<Path>)
  {
    && (forall c :: c in conflicts <==> c.path in paths && c == ConflictAt(s, c.path))
    && (forall i, j :: 0 <= i < j < |conflicts| ==> conflicts[i].path != conflicts[j].path)
  }

  ghost predicate PathsAre(listed: seq<Path>, paths: set<Path>)
  {
    && (forall p :: p in listed <==> p in paths)
    && (forall i, j :: 0 <= i < j < |listed| ==> listed[i] != listed[j])
  }

  /** The paths of one class. */
  function Of(scenes: Scenes, s: Sides, paths: set<Path>, kind: Class): set<Path>
  {
    set p | p in paths && ClassAt(scenes, s, p) == kind
  }

  /** Each path is in the one list its class names, once. */
  ghost predicate ListsAre(lists: Lists, scenes: Scenes, s: Sides, paths: set<Path>)
  {
    && ChangesAre(lists.localChanges, s, false, Of(scenes, s, paths, LocalChange))
    && ChangesAre(lists.remoteChanges, s, true, Of(scenes, s, paths, RemoteChange))
    && ConflictsAre(lists.conflicts, s, Of(scenes, s, paths, Conflicting))
    && PathsAre(lists.converged, Of(scenes, s, paths, Converged))
  }

  /** Inside some entry, and not the entry itself; every path is below the entry "". */
  ghost predicate UnderUnreadable(path: Path, dirs: seq<string>)
  {
    exists i :: 0 <= i < |dirs| && Below(path, dirs[i])
  }

  ghost predicate Below(path: Path, dir: string)
  {
    dir == "" || (Paths.Inside(path, dir) && path != dir)
  }

  method IsUnderUnreadableDir(path: Path, dirs: seq<string>) returns (under: bool)
    ensures under == UnderUnreadable(path, dirs)
  {
    for k := 0 to |dirs|
      invariant forall i :: 0 <= i < k ==> !Below(path, dirs[i])
    {
      if dirs[k] != "" { Paths.InsideIs(path, dirs[k]); }
      if dirs[k] == "" || dirs[k] + "/" <= path { return true; }
    }
    return false;
  }

  /** What a compare looks at: any path of the scanned disk, and those of the manifests in this device's scope. */
  function Seen(s: Sides, includes: Path -> bool): set<Path>
  {
    s.local.Keys + (set p | p in s.remote && includes(p)) + (set p | p in s.baseline && includes(p))
  }

  /** The paths a compare classifies at all. */
  ghost function Considered(s: Sides, includes: Path -> bool, skipped: set<Path>, unreadableDirs: seq<string>): set<Path>
  {
    set p | p in Seen(s, includes) && p !in skipped && !UnderUnreadable(p, unreadableDirs)
  }

  lemma {:induction false} MoreChange(changes: seq<FileChange>, s: Sides, remote: bool, paths: set<Path>, p: Path)
    requires ChangesAre(changes, s, remote, paths) && p !in paths
    ensures ChangesAre(changes + [ChangeAt(s, remote, p)], s, remote, paths + {p})
  {
    var next := changes + [ChangeAt(s, remote, p)];
    forall c ensures c in next <==> c.path in paths + {p} && c == ChangeAt(s, remote, c.path) {
      assert c in next <==> c in changes || c == ChangeAt(s, remote, p);
    }
    forall i | 0 <= i < |changes| ensures changes[i].path != p { assert changes[i] in changes; }
  }

  lemma {:induction false} MoreConflict(conflicts: seq<Conflict>, s: Sides, paths: set<Path>, p: Path)
    requires ConflictsAre(conflicts, s, paths) && p !in paths
    ensures ConflictsAre(conflicts + [ConflictAt(s, p)], s, paths + {p})
  {
    var next := conflicts + [ConflictAt(s, p)];
    forall c ensures c in next <==> c.path in paths + {p} && c == ConflictAt(s, c.path) {
      assert c in next <==> c in conflicts || c == ConflictAt(s, p);
    }
    forall i | 0 <= i < |conflicts| ensures conflicts[i].path != p { assert conflicts[i] in conflicts; }
  }

  lemma {:induction false} MorePath(listed: seq<Path>, paths: set<Path>, p: Path)
    requires PathsAre(listed, paths) && p !in paths
    ensures PathsAre(listed + [p], paths + {p})
  {
    forall q ensures q in listed + [p] <==> q in paths + {p} {
      assert q in listed + [p] <==> q in listed || q == p;
    }
    forall i | 0 <= i < |listed| ensures listed[i] != p { assert listed[i] in listed; }
  }

  /** One more path looked at goes to the one list of its class. */
  lemma {:induction false} MoreOf(scenes: Scenes, s: Sides, paths: set<Path>, p: Path, kind: Class)
    requires p !in paths
    ensures Of(scenes, s, paths + {p}, kind) == if ClassAt(scenes, s, p) == kind then Of(scenes, s, paths, kind) + {p} else Of(scenes, s, paths, kind)
  {
  }

  /** One path put in its list. */
  method Listed(lists: Lists, scenes: Scenes, s: Sides, ghost paths: set<Path>, p: Path) returns (r: Lists)
    requires ListsAre(lists, scenes, s, paths) && p !in paths
    ensures ListsAre(r, scenes, s, paths + {p})
  {
    var local, remote, baseline := At(s.local, p), At(s.remote, p), At(s.baseline, p);
    var localChanged := !SameContent(scenes, local, baseline);
    var remoteChanged := !SameContent(scenes, remote, baseline);
    forall kind: Class ensures Of(scenes, s, paths + {p}, kind) == if ClassAt(scenes, s, p) == kind then Of(scenes, s, paths, kind) + {p} else Of(scenes, s, paths, kind) {
      MoreOf(scenes, s, paths, p, kind);
    }
    if !localChanged && !remoteChanged { return lists; }
    if localChanged && remoteChanged {
      if SameContent(scenes, local, remote) {
        MorePath(lists.converged, Of(scenes, s, paths, Converged), p);
        return lists.(converged := lists.converged + [p]);
      }
      MoreConflict(lists.conflicts, s, Of(scenes, s, paths, Conflicting), p);
      return lists.(conflicts := lists.conflicts + [Conflict(p, OrNone(local), OrNone(remote), baseline)]);
    }
    if localChanged {
      MoreChange(lists.localChanges, s, false, Of(scenes, s, paths, LocalChange), p);
      r := lists.(localChanges := lists.localChanges + [FileChange(p, Classify(baseline, local, false), local, remote)]);
    } else {
      MoreChange(lists.remoteChanges, s, true, Of(scenes, s, paths, RemoteChange), p);
      r := lists.(remoteChanges := lists.remoteChanges + [FileChange(p, Classify(baseline, remote, true), local, remote)]);
    }
  }

  lemma {:induction false} OneLooked(all: set<Path>, seen: set<Path>, rest: set<Path>, p: Path, skip: bool)
    requires p in rest && rest <= seen && all <= seen && (p in all <==> !skip)
    ensures skip ==> all - rest == all - (rest - {p})
    ensures !skip ==> all - rest + {p} == all - (rest - {p})
    ensures p !in all - rest
  {
  }

  lemma {:induction false} NoneListed(scenes: Scenes, s: Sides)
    ensures ListsAre(Lists([], [], [], []), scenes, s, {})
  {
  }

  /** Every path looked at, in the list of its class; the paths come in no set order. */
  method DiffPaths(scenes: Scenes, s: Sides, includes: Path -> bool, skipped: set<Path>, unreadableDirs: seq<string>) returns (lists: Lists)
    ensures ListsAre(lists, scenes, s, Considered(s, includes, skipped, unreadableDirs))
  {
    var rest := Seen(s, includes);
    ghost var all, seen := Considered(s, includes, skipped, unreadableDirs), rest;
    ghost var done := all - rest;
    assert done == {};
    NoneListed(scenes, s);
    lists := Lists([], [], [], []);
    while rest != {}
      invariant rest <= seen && done == all - rest && ListsAre(lists, scenes, s, done)
      decreases |rest|
    {
      var p :| p in rest;
      var under := IsUnderUnreadableDir(p, unreadableDirs);
      OneLooked(all, seen, rest, p, p in skipped || under);
      rest := rest - {p};
      if p in skipped || under { continue; }
      lists := Listed(lists, scenes, s, done, p);
      done := done + {p};
    }
    assert done == all;
  }
}
