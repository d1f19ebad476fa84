/**
 * A live document's updates. Yjs merges and applies them so that order and repetition do not matter, so an update
 * is the set of edits it carries: merging is union, and applying one is union with the document.
 */
module Updates {
  import opened Common

  /** One edit of a document, named apart from every other. */
  type Edit = nat
  type Update = set<Edit>

  /** What a log, or any list of updates, holds together. */
  function Union(us: seq<Update>): Update
  {
    if us == [] then {} else Union(us[..|us| - 1]) + us[|us| - 1]
  }

  /** `takeMerged`: nothing for an empty list, else everything in it as one update. */
  function Merged(us: seq<Update>): Option<Update>
  {
    if us == [] then None else Some(Union(us))
  }

  function Carried(u: Option<Update>): Update
  {
    if u.Some? then u.value else {}
  }

  lemma {:induction false} UnionAppend(us: seq<Update>, u: Update)
    ensures Union(us + [u]) == Union(us) + u
  {
    assert (us + [u])[..|us|] == us;
  }

  lemma {:induction false} UnionConcat(us: seq<Update>, vs: seq<Update>)
    ensures Union(us + vs) == Union(us) + Union(vs)
  {
    if vs == [] {
      assert us + vs == us;
    } else {
      var front := vs[..|vs| - 1];
      UnionConcat(us, front);
      assert (us + vs)[..|us + vs| - 1] == us + front;
    }
  }

  lemma {:induction false} UnionSplit(us: seq<Update>, k: nat)
    requires k <= |us|
    ensures Union(us) == Union(us[..k]) + Union(us[k..])
  {
    UnionConcat(us[..k], us[k..]);
    assert us[..k] + us[k..] == us;
  }

  lemma {:induction false} UnionStep(us: seq<Update>, k: nat)
    requires k < |us|
    ensures Union(us[..k + 1]) == Union(us[..k]) + us[k]
  {
    assert us[..k + 1][..k] == us[..k];
  }

  lemma {:induction false} UnionMono(us: seq<Update>, j: nat, k: nat)
    requires j <= k <= |us|
    ensures Union(us[..j]) <= Union(us[..k])
  {
    UnionSplit(us[..k], j);
    assert us[..k][..j] == us[..j];
  }

  lemma {:induction false} UnionHolds(us: seq<Update>, k: nat)
    requires k < |us|
    ensures us[k] <= Union(us)
  {
    UnionStep(us, k);
    UnionMono(us, k + 1, |us|);
    assert us[..|us|] == us;
  }
}
