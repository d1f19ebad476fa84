/** Which gone and arrived paths pair up as moves: packages/plugin/src/sync/moves.ts. */
module SyncMoves {
  import opened Common
  import opened Paths
  import opened SyncDiff

  /** The hash of the empty file (SHA-256); it pairs nothing. */
  const EMPTY_HASH := "e3b0c44298fc1c149afbf4c8996fb92427ae41e4649b934ca495991b7852b855"

  /** Candidates for a move, their content hash by path. */
  type Candidates = map<Path, string>

  /** The path after its last slash. */
  function NameOf(path: Path): string
  {
    if path == "" then "" else if path[|path| - 1] == '/' then "" else NameOf(path[..|path| - 1]) + [path[|path| - 1]]
  }

  /** It is the last of the path's segments. */
  lemma {:induction false} NameIsLast(path: Path)
    ensures NameOf(path) == LastOf(path) && '/' !in NameOf(path)
    ensures path == NameOf(path) || exists folder :: path == folder + "/" + NameOf(path)
  {
    NameEnds(path);
    if NameOf(path) == path {
      LastBelow("", path);
    } else {
      var folder :| path == folder + "/" + NameOf(path);
      LastBelow(folder, NameOf(path));
    }
  }

  lemma {:induction false} NameEnds(path: Path)
    ensures '/' !in NameOf(path)
    ensures path == NameOf(path) || exists folder :: path == folder + "/" + NameOf(path)
  {
    if path != "" {
      var front, last := path[..|path| - 1], path[|path| - 1];
      if last == '/' {
        assert path == front + "/" + "";
      } else {
        NameEnds(front);
        assert path == front + [last];
        if front != NameOf(front) {
          var folder :| front == folder + "/" + NameOf(front);
          assert path == folder + "/" + NameOf(path);
        }
      }
    }
  }

  function WithHash(c: Candidates, hash: string): set<Path>
  {
    set p | p in c && c[p] == hash
  }

  function WithName(c: Candidates, hash: string, name: string): set<Path>
  {
    set p | p in c && c[p] == hash && NameOf(p) == name
  }

  /** The pair has one content that is no empty file's, and is alone with it, or alone with it and its file name. */
  predicate Paired(gone: Candidates, arrived: Candidates, from: Path, dest: Path)
  {
    && from in gone && dest in arrived && gone[from] == arrived[dest] && gone[from] != "" && gone[from] != EMPTY_HASH
    && ((WithHash(gone, gone[from]) == {from} && WithHash(arrived, gone[from]) == {dest})
        || (NameOf(from) == NameOf(dest)
            && WithName(gone, gone[from], NameOf(from)) == {from} && WithName(arrived, gone[from], NameOf(from)) == {dest}))
  }

  lemma {:induction false} PairedOnce(gone: Candidates, arrived: Candidates, f: Path, t: Path, f2: Path, t2: Path)
    requires Paired(gone, arrived, f, t) && Paired(gone, arrived, f2, t2)
    ensures f == f2 <==> t == t2
  {
    var h := gone[f];
    if f == f2 {
      assert t2 in WithHash(arrived, h) && t in WithHash(arrived, h);
      assert NameOf(t2) == NameOf(f) ==> t2 in WithName(arrived, h, NameOf(f));
      assert NameOf(t) == NameOf(f) ==> t in WithName(arrived, h, NameOf(f));
    }
    if t == t2 {
      assert f2 in WithHash(gone, h) && f in WithHash(gone, h);
      assert NameOf(f2) == NameOf(t) ==> f2 in WithName(gone, h, NameOf(t));
      assert NameOf(f) == NameOf(t) ==> f in WithName(gone, h, NameOf(t));
    }
  }

  method GroupBy(items: set<Path>, key: Path -> string) returns (groups: map<string, set<Path>>)
    ensures forall k :: k in groups ==> groups[k] == (set p | p in items && key(p) == k) && groups[k] != {}
    ensures forall p :: p in items ==> key(p) in groups
  {
    groups := map[];
    var rest := items;
    while rest != {}
      invariant rest <= items
      invariant forall k :: k in groups ==> groups[k] == (set p | p in items - rest && key(p) == k) && groups[k] != {}
      invariant forall p :: p in items - rest ==> key(p) in groups
      decreases |rest|
    {
      var item :| item in rest;
      var k := key(item);
      groups := groups[k := (if k in groups then groups[k] else {}) + {item}];
      rest := rest - {item};
    }
  }

  /** The one member of a group of one. */
  method Single(items: set<Path>) returns (one: Option<Path>)
    ensures one.Some? <==> |items| == 1
    ensures one.Some? ==> items == {one.value}
  {
    if |items| != 1 { return None; }
    var p :| p in items;
    SingleIs(items, p);
    one := Some(p);
  }

  lemma {:induction false} SingleIs(items: set<Path>, p: Path)
    requires p in items
    ensures |items| == 1 <==> items == {p}
  {
    if |items| == 1 { assert |items - {p}| == 0; }
  }

  /** What pairs within one hash, by name. */
  ghost predicate NamedPairs(sources: set<Path>, into: set<Path>, names: set<string>, pairs: set<(Path, Path)>)
  {
    forall f, t :: (f, t) in pairs <==> NameOf(f) in names && NamePaired(sources, into, f, t)
  }

  predicate NamePaired(sources: set<Path>, into: set<Path>, f: Path, t: Path)
  {
    NameOf(f) == NameOf(t) && Named(sources, NameOf(f)) == {f} && Named(into, NameOf(f)) == {t}
  }

  function Named(items: set<Path>, name: string): set<Path>
  {
    set p | p in items && NameOf(p) == name
  }

  /** One to one by name, among files of one content. */
  method PairByName(sources: set<Path>, into: set<Path>) returns (pairs: set<(Path, Path)>)
    ensures forall f, t :: (f, t) in pairs <==> NamePaired(sources, into, f, t)
  {
    var named := GroupBy(into, p => NameOf(p));
    var from := GroupBy(sources, p => NameOf(p));
    pairs := {};
    var rest := from.Keys;
    while rest != {}
      invariant rest <= from.Keys && NamedPairs(sources, into, from.Keys - rest, pairs)
      decreases |rest|
    {
      var name :| name in rest;
      assert from[name] == Named(sources, name);
      assert name in named ==> named[name] == Named(into, name);
      assert name !in named ==> Named(into, name) == {};
      var f := Single(from[name]);
      var t := Single(if name in named then named[name] else {});
      NamedOnce(sources, into, name, f, t);
      if f.Some? && t.Some? { pairs := pairs + {(f.value, t.value)}; }
      rest := rest - {name};
    }
    forall f, t | NamePaired(sources, into, f, t) ensures NameOf(f) in from.Keys {
      assert f in Named(sources, NameOf(f));
    }
  }

  lemma {:induction false} NamedOnce(sources: set<Path>, into: set<Path>, name: string, f: Option<Path>, t: Option<Path>)
    requires f.Some? <==> |Named(sources, name)| == 1
    requires f.Some? ==> Named(sources, name) == {f.value}
    requires t.Some? <==> |Named(into, name)| == 1
    requires t.Some? ==> Named(into, name) == {t.value}
    ensures forall x, y :: NameOf(x) == name && NamePaired(sources, into, x, y) <==> f == Some(x) && t == Some(y)
  {
    forall x, y ensures NameOf(x) == name && NamePaired(sources, into, x, y) <==> f == Some(x) && t == Some(y) {
      if f == Some(x) && t == Some(y) {
        assert x in Named(sources, name) && y in Named(into, name);
      }
    }
  }

  function HashIn(c: Candidates, p: Path): string { if p in c then c[p] else "" }

  /** Among files of one hash, what pairs them is what `Paired` says. */
  lemma {:induction false} PairedWithin(gone: Candidates, arrived: Candidates, h: string, f: Path, t: Path)
    requires h != "" && h != EMPTY_HASH
    ensures var sources, into := WithHash(gone, h), WithHash(arrived, h);
      f in gone && gone[f] == h ==> (Paired(gone, arrived, f, t) <==> (sources == {f} && into == {t}) || NamePaired(sources, into, f, t))
  {
    var sources, into := WithHash(gone, h), WithHash(arrived, h);
    assert Named(sources, NameOf(f)) == WithName(gone, h, NameOf(f));
    assert Named(into, NameOf(f)) == WithName(arrived, h, NameOf(f));
    if sources == {f} && into == {t} { assert f in sources && t in into; }
    if NamePaired(sources, into, f, t) { assert f in Named(sources, NameOf(f)) && t in Named(into, NameOf(f)); }
  }

  /** The pairs of one hash: the only two files with it, else by name. */
  method PairHash(sources: set<Path>, into: set<Path>) returns (pairs: set<(Path, Path)>)
    ensures forall f, t :: (f, t) in pairs <==> (sources == {f} && into == {t}) || NamePaired(sources, into, f, t)
  {
    var f := Single(sources);
    var t := Single(into);
    if f.Some? && t.Some? {
      pairs := {(f.value, t.value)};
      forall x, y | NamePaired(sources, into, x, y) ensures x == f.value && y == t.value {
        assert x in Named(sources, NameOf(x)) && y in Named(into, NameOf(x));
      }
    } else {
      pairs := PairByName(sources, into);
      forall x, y ensures !(sources == {x} && into == {y}) {}
    }
  }

  ghost predicate PairsOf(gone: Candidates, arrived: Candidates, hashes: set<string>, pairs: set<(Path, Path)>)
  {
    forall f, t :: (f, t) in pairs <==> HashIn(gone, f) in hashes && Paired(gone, arrived, f, t)
  }

  /** The paths of each hash. */
  method GroupByHash(c: Candidates) returns (groups: map<string, set<Path>>)
    ensures forall h {:trigger WithHash(c, h)} :: WithHash(c, h) == if h in groups then groups[h] else {}
    ensures forall p :: p in c ==> c[p] in groups
  {
    groups := GroupBy(c.Keys, p => HashIn(c, p));
    forall h ensures WithHash(c, h) == if h in groups then groups[h] else {} {
      forall p | p in c && c[p] == h ensures h in groups { assert HashIn(c, p) in groups; }
    }
    forall p | p in c ensures c[p] in groups { assert HashIn(c, p) in groups; }
  }

  /** The pairs of one hash, if it names its files. */
  method PairGroup(gone: Candidates, arrived: Candidates, hash: string, sources: set<Path>, into: set<Path>) returns (pairs: set<(Path, Path)>)
    requires sources == WithHash(gone, hash) && into == WithHash(arrived, hash)
    ensures PairsOf(gone, arrived, {hash}, pairs)
  {
    pairs := {};
    if hash != "" && hash != EMPTY_HASH && into != {} { pairs := PairHash(sources, into); }
    forall f, t ensures (f, t) in pairs <==> HashIn(gone, f) == hash && Paired(gone, arrived, f, t) {
      if Paired(gone, arrived, f, t) && HashIn(gone, f) == hash {
        assert t in WithHash(arrived, hash);
        PairedWithin(gone, arrived, hash, f, t);
      }
      if (f, t) in pairs {
        InSources(gone, arrived, hash, f, t);
        PairedWithin(gone, arrived, hash, f, t);
      }
    }
  }

  lemma {:induction false} InSources(gone: Candidates, arrived: Candidates, hash: string, f: Path, t: Path)
    requires (WithHash(gone, hash) == {f} && WithHash(arrived, hash) == {t}) || NamePaired(WithHash(gone, hash), WithHash(arrived, hash), f, t)
    ensures f in gone && gone[f] == hash
  {
    if WithHash(gone, hash) == {f} { assert f in WithHash(gone, hash); }
    else { assert f in Named(WithHash(gone, hash), NameOf(f)); }
  }

  lemma {:induction false} MorePairs(gone: Candidates, arrived: Candidates, hashes: set<string>, hash: string, pairs: set<(Path, Path)>, more: set<(Path, Path)>)
    requires PairsOf(gone, arrived, hashes, pairs) && PairsOf(gone, arrived, {hash}, more)
    ensures PairsOf(gone, arrived, hashes + {hash}, pairs + more)
  {
  }

  lemma {:induction false} AllPairs(gone: Candidates, arrived: Candidates, hashes: set<string>, pairs: set<(Path, Path)>)
    requires PairsOf(gone, arrived, hashes, pairs) && forall p :: p in gone ==> gone[p] in hashes
    ensures forall f, t :: (f, t) in pairs <==> Paired(gone, arrived, f, t)
  {
  }

  /** All pairs that `Paired` allows, found content by content. */
  method PairUp(gone: Candidates, arrived: Candidates) returns (pairs: set<(Path, Path)>)
    ensures forall f, t :: (f, t) in pairs <==> Paired(gone, arrived, f, t)
  {
    var targets := GroupByHash(arrived);
    var groups := GroupByHash(gone);
    pairs := {};
    var rest := groups.Keys;
    ghost var done: set<string> := {};
    while rest != {}
      invariant done + rest == groups.Keys && PairsOf(gone, arrived, done, pairs)
      decreases |rest|
    {
      var hash :| hash in rest;
      assert WithHash(gone, hash) == groups[hash];
      var more := PairGroup(gone, arrived, hash, groups[hash], if hash in targets then targets[hash] else {});
      MorePairs(gone, arrived, done, hash, pairs, more);
      pairs, rest, done := pairs + more, rest - {hash}, done + {hash};
    }
    AllPairs(gone, arrived, done, pairs);
  }

  // ---- a folder renamed

  /** Files of one content whose names tell them apart, here and there, are moves from each to its namesake. */
  lemma {:induction false} NamesakesPair(gone: Candidates, arrived: Candidates, f: Path, t: Path)
    requires f in gone && t in arrived && gone[f] == arrived[t] && gone[f] != "" && gone[f] != EMPTY_HASH && LastOf(f) == LastOf(t)
    requires forall p :: p in gone && gone[p] == gone[f] && LastOf(p) == LastOf(f) ==> p == f
    requires forall p :: p in arrived && arrived[p] == gone[f] && LastOf(p) == LastOf(f) ==> p == t
    ensures Paired(gone, arrived, f, t)
  {
    forall p: Path ensures NameOf(p) == LastOf(p) { NameIsLast(p); }
    var h, name := gone[f], NameOf(f);
    assert WithName(gone, h, name) == {f} && WithName(arrived, h, name) == {t};
  }

  /** All the files of one content in a folder, under the same names in another now: each is a move. */
  lemma {:induction false} FolderRenamed(gone: Candidates, arrived: Candidates, h: string, from: string, into: string, names: set<string>)
    requires h != "" && h != EMPTY_HASH && forall name :: name in names ==> '/' !in name
    requires forall p :: p in gone && gone[p] == h <==> exists name :: name in names && p == from + "/" + name
    requires forall p :: p in arrived && arrived[p] == h <==> exists name :: name in names && p == into + "/" + name
    ensures forall name :: name in names ==> Paired(gone, arrived, from + "/" + name, into + "/" + name)
  {
    forall name | name in names ensures Paired(gone, arrived, from + "/" + name, into + "/" + name) {
      var f, t := from + "/" + name, into + "/" + name;
      LastBelow(from, name);
      LastBelow(into, name);
      forall p | p in gone && gone[p] == h && LastOf(p) == name ensures p == f {
        var n :| n in names && p == from + "/" + n;
        LastBelow(from, n);
      }
      forall p | p in arrived && arrived[p] == h && LastOf(p) == name ensures p == t {
        var n :| n in names && p == into + "/" + n;
        LastBelow(into, n);
      }
      NamesakesPair(gone, arrived, f, t);
    }
  }
}
