/** Records of shared folders and their last-writer-wins merge: packages/plugin/src/spaces/record.ts. */
module SpaceRecords {
  import opened Common

  datatype Access = Owner(relayUrl: string) | Participant(relayUrl: string, token: string, readOnly: bool)

  /** One revision of a shared folder; `rev` and `author` rank it among the others of its id. */
  datatype Record = Record(id: string, name: string, root: string, rev: int, author: string, access: Access, closed: bool, paused: bool)

  /** How far a close raises the revision: past any chain of fewer edits than this. */
  const CLOSE_REV_STEP: nat := 1_000_000

  /** String order: by the first character that differs, else the shorter first. */
  predicate Before(a: string, b: string)
  {
    if b == "" then false else if a == "" then true
    else if a[0] != b[0] then a[0] < b[0] else Before(a[1..], b[1..])
  }

  /** One comes before the other where it has the lower character at the first place they differ, or ends there. */
  lemma {:induction false} BeforeIs(a: string, b: string, common: string)
    requires common <= a && common <= b
    ensures |a| == |common| ==> (Before(a, b) <==> |b| > |common|)
    ensures |b| == |common| ==> !Before(a, b)
    ensures |a| > |common| && |b| > |common| && a[|common|] != b[|common|] ==> (Before(a, b) <==> a[|common|] < b[|common|])
  {
    if common != "" {
      assert common[0] == a[0] == b[0] && common[1..] <= a[1..] && common[1..] <= b[1..];
      BeforeIs(a[1..], b[1..], common[1..]);
    }
  }

  lemma {:induction false} BeforeIsOrder(a: string, b: string, c: string)
    ensures !Before(a, a)
    ensures Before(a, b) ==> !Before(b, a)
    ensures a != b ==> Before(a, b) || Before(b, a)
    ensures Before(a, b) && Before(b, c) ==> Before(a, c)
    decreases |a| + |b| + |c|
  {
    if a != "" && b != "" && c != "" {
      BeforeIsOrder(a[1..], b[1..], c[1..]);
      assert a[0] == b[0] && a[1..] == b[1..] ==> a == b;
    } else if a != "" && b != "" {
      BeforeIsOrder(a[1..], b[1..], c);
      assert a[0] == b[0] && a[1..] == b[1..] ==> a == b;
    } else if a != "" {
      BeforeIsOrder(a[1..], b, c);
    }
  }

  /** Which of two revisions stays: the higher number, and among equals the later author by name. */
  predicate IsNewer(a: Record, b: Record)
  {
    if a.rev != b.rev then a.rev > b.rev else Before(b.author, a.author)
  }

  /** The record closed, a whole step of revisions on. */
  function CloseRecord(record: Record, author: string): Record
  {
    record.(rev := record.rev + CLOSE_REV_STEP, author := author, closed := true)
  }

  /** An edit is one revision on, by whichever device. */
  ghost predicate IsEdits(edits: seq<Record>)
  {
    forall i :: 0 < i < |edits| ==> edits[i].id == edits[0].id && edits[i].rev == edits[i - 1].rev + 1
  }

  lemma {:induction false} EditsRise(edits: seq<Record>, n: nat)
    requires IsEdits(edits) && n < |edits|
    ensures edits[n].rev == edits[0].rev + n && edits[n].id == edits[0].id
  {
    if n > 0 { EditsRise(edits, n - 1); }
  }

  /** A close outranks a chain of edits it did not see exactly while the chain is shorter than the step, or ties it and loses on its author. */
  lemma {:induction false} CloseOutranks(edits: seq<Record>, n: nat, author: string)
    requires IsEdits(edits) && n < |edits|
    ensures IsNewer(CloseRecord(edits[0], author), edits[n])
      <==> n < CLOSE_REV_STEP || (n == CLOSE_REV_STEP && Before(edits[n].author, author))
  {
    EditsRise(edits, n);
  }

  /** A revision is named by its id, its number and its author. */
  ghost predicate Named(records: set<Record>)
  {
    forall a, b :: a in records && b in records && a.id == b.id && a.rev == b.rev && a.author == b.author ==> a == b
  }

  lemma {:induction false} NewerIsOrder(a: Record, b: Record, c: Record)
    ensures !IsNewer(a, a) && (IsNewer(a, b) ==> !IsNewer(b, a))
    ensures IsNewer(a, b) && IsNewer(b, c) ==> IsNewer(a, c)
    ensures !IsNewer(a, b) && !IsNewer(b, a) ==> a.rev == b.rev && a.author == b.author
    ensures !IsNewer(b, a) && !IsNewer(c, b) ==> !IsNewer(c, a)
  {
    BeforeIsOrder(a.author, b.author, c.author);
    BeforeIsOrder(c.author, b.author, a.author);
    BeforeIsOrder(c.author, a.author, b.author);
    BeforeIsOrder(b.author, a.author, c.author);
  }

  /** One record an id. */
  type Known = map<string, Record>

  ghost predicate KeyedById(k: Known)
  {
    forall id :: id in k ==> k[id].id == id
  }

  function Put(k: Known, r: Record): Known
  {
    if r.id in k && !IsNewer(r, k[r.id]) then k else k[r.id := r]
  }

  /** What is newest of a list, an earlier one kept where neither is newer. */
  function Newest(records: seq<Record>): Known
  {
    if records == [] then map[] else Put(Newest(records[..|records| - 1]), records[|records| - 1])
  }

  /** The newest of two, id by id. */
  function Join(x: Known, y: Known): Known
  {
    map id | id in x.Keys + y.Keys :: if id !in y then x[id] else if id !in x then y[id] else if IsNewer(y[id], x[id]) then y[id] else x[id]
  }

  function KnownAt(k: Known, id: string): Option<Record> { if id in k then Some(k[id]) else None }

  /** The newer of two, if there are two; the first where neither is. */
  function NewerOf(a: Option<Record>, b: Option<Record>): Option<Record>
  {
    if b.None? then a else if a.None? || IsNewer(b.value, a.value) then b else a
  }

  lemma {:induction false} JoinAt(x: Known, y: Known, id: string)
    ensures KnownAt(Join(x, y), id) == NewerOf(KnownAt(x, id), KnownAt(y, id))
  {
  }

  lemma {:induction false} NewerAssociates(a: Option<Record>, b: Option<Record>, c: Option<Record>)
    ensures NewerOf(NewerOf(a, b), c) == NewerOf(a, NewerOf(b, c))
  {
    if a.Some? && b.Some? && c.Some? {
      NewerIsOrder(a.value, b.value, c.value);
      NewerIsOrder(c.value, b.value, a.value);
      NewerIsOrder(a.value, c.value, b.value);
    }
  }

  lemma {:induction false} SameKnown(x: Known, y: Known)
    requires forall id :: KnownAt(x, id) == KnownAt(y, id)
    ensures x == y
  {
    forall id ensures (id in x <==> id in y) && (id in x ==> x[id] == y[id]) {
      assert KnownAt(x, id) == KnownAt(y, id);
    }
  }

  lemma {:induction false} JoinIdempotent(x: Known)
    ensures Join(x, x) == x
  {
  }

  lemma {:induction false} JoinCommutes(x: Known, y: Known)
    requires KeyedById(x) && KeyedById(y) && Named(x.Values + y.Values)
    ensures Join(x, y) == Join(y, x)
  {
    forall id | id in x && id in y ensures Join(x, y)[id] == Join(y, x)[id] {
      NewerIsOrder(x[id], y[id], y[id]);
      assert x[id] in x.Values + y.Values && y[id] in x.Values + y.Values;
    }
  }

  lemma {:induction false} JoinAssociates(x: Known, y: Known, z: Known)
    ensures Join(Join(x, y), z) == Join(x, Join(y, z))
  {
    var left, right := Join(Join(x, y), z), Join(x, Join(y, z));
    forall id ensures KnownAt(left, id) == KnownAt(right, id) {
      JoinAt(x, y, id);
      JoinAt(Join(x, y), z, id);
      JoinAt(y, z, id);
      JoinAt(x, Join(y, z), id);
      NewerAssociates(KnownAt(x, id), KnownAt(y, id), KnownAt(z, id));
    }
    SameKnown(left, right);
  }

  /** Every record there is, in a world where a revision has one name. */
  ghost predicate Within(k: Known, all: set<Record>)
  {
    KeyedById(k) && k.Values <= all
  }

  lemma {:induction false} JoinWithin(x: Known, y: Known, all: set<Record>)
    requires Within(x, all) && Within(y, all)
    ensures Within(Join(x, y), all)
  {
    var j := Join(x, y);
    forall id | id in j ensures j[id] in all {
      assert id in x ==> x[id] in x.Values;
      assert id in y ==> y[id] in y.Values;
    }
  }

  /** `y` holds everything `x` does, or something newer. */
  ghost predicate Covers(y: Known, x: Known) { Join(x, y) == y }

  lemma {:induction false} JoinCovers(x: Known, y: Known, all: set<Record>)
    requires Named(all) && Within(x, all) && Within(y, all)
    ensures Covers(Join(x, y), x) && Covers(Join(x, y), y)
  {
    JoinAssociates(x, x, y);
    JoinIdempotent(x);
    JoinCommutes(x, y);
    JoinAssociates(y, y, x);
    JoinIdempotent(y);
  }

  lemma {:induction false} CoversTransitive(x: Known, y: Known, z: Known)
    requires Covers(y, x) && Covers(z, y)
    ensures Covers(z, x)
  {
    JoinAssociates(x, y, z);
  }

  lemma {:induction false} CoversBoth(x: Known, y: Known, z: Known)
    requires Covers(z, x) && Covers(z, y)
    ensures Covers(z, Join(x, y))
  {
    JoinAssociates(x, y, z);
  }

  lemma {:induction false} CoversEachOther(x: Known, y: Known, all: set<Record>)
    requires Named(all) && Within(x, all) && Within(y, all) && Covers(x, y) && Covers(y, x)
    ensures x == y
  {
    JoinCommutes(x, y);
  }

  function FlatOf(lists: seq<seq<Record>>): seq<Record>
  {
    if lists == [] then [] else FlatOf(lists[..|lists| - 1]) + lists[|lists| - 1]
  }

  lemma {:induction false} PutIsJoin(k: Known, r: Record)
    ensures Put(k, r) == Join(k, map[r.id := r])
  {
  }

  /** Merging lists is joining what each holds. */
  lemma {:induction false} NewestConcat(a: seq<Record>, b: seq<Record>)
    ensures Newest(a + b) == Join(Newest(a), Newest(b))
  {
    if b == [] {
      assert a + b == a && Join(Newest(a), map[]) == Newest(a);
    } else {
      var n, r := |b| - 1, b[|b| - 1];
      NewestConcat(a, b[..n]);
      assert (a + b)[..|a + b| - 1] == a + b[..n];
      PutIsJoin(Newest(a + b[..n]), r);
      PutIsJoin(Newest(b[..n]), r);
      JoinAssociates(Newest(a), Newest(b[..n]), map[r.id := r]);
    }
  }

  /** The newest of each id, and nothing in the list newer. */
  lemma {:induction false} NewestIs(records: seq<Record>)
    ensures KeyedById(Newest(records))
    ensures forall id :: id in Newest(records) ==> Newest(records)[id] in records
    ensures forall r :: r in records ==> r.id in Newest(records) && !IsNewer(r, Newest(records)[r.id])
  {
    if records != [] {
      var n, last := |records| - 1, records[|records| - 1];
      var before, k := Newest(records[..n]), Newest(records);
      NewestIs(records[..n]);
      assert records == records[..n] + [last];
      forall r | r in records ensures r.id in k && !IsNewer(r, k[r.id]) {
        NewerIsOrder(last, last, last);
        if r in records[..n] { NewerIsOrder(k[r.id], before[r.id], r); }
      }
    }
  }

  /** Sorted by id, each once. */
  ghost predicate SortedById(list: seq<Record>)
  {
    forall i, j :: 0 <= i < j < |list| ==> Before(list[i].id, list[j].id)
  }

  ghost predicate Lists(list: seq<Record>, k: Known)
  {
    && (forall r :: r in list ==> r.id in k && k[r.id] == r)
    && (forall id :: id in k ==> k[id] in list)
  }

  /** The record's place among the sorted ones. */
  method Inserted(list: seq<Record>, r: Record) returns (next: seq<Record>)
    requires SortedById(list) && forall x :: x in list ==> x.id != r.id
    ensures SortedById(next) && forall x :: x in next <==> x in list || x == r
  {
    var i := 0;
    while i < |list| && Before(list[i].id, r.id)
      invariant i <= |list| && forall j :: 0 <= j < i ==> Before(list[j].id, r.id)
    {
      i := i + 1;
    }
    forall j | i <= j < |list| ensures Before(r.id, list[j].id) {
      assert list[j] in list;
      BeforeIsOrder(list[j].id, r.id, list[i].id);
      assert list[i] in list;
      BeforeIsOrder(list[i].id, r.id, list[j].id);
      BeforeIsOrder(r.id, list[i].id, list[j].id);
    }
    next := list[..i] + [r] + list[i..];
    InsertedSorted(list, r, i);
  }

  lemma {:induction false} InsertedSorted(list: seq<Record>, r: Record, i: nat)
    requires SortedById(list) && i <= |list|
    requires (forall j :: 0 <= j < i ==> Before(list[j].id, r.id)) && (forall j :: i <= j < |list| ==> Before(r.id, list[j].id))
    ensures SortedById(list[..i] + [r] + list[i..]) && forall x :: x in list[..i] + [r] + list[i..] <==> x in list || x == r
  {
    var next := list[..i] + [r] + list[i..];
    assert list == list[..i] + list[i..];
    forall x, y | 0 <= x < y < |next| ensures Before(next[x].id, next[y].id) {
      var a, b := if x < i then x else x - 1, if y < i then y else y - 1;
      if x != i && y != i { assert next[x] == list[a] && next[y] == list[b]; }
      else if x == i { assert next[y] == list[b]; } else { assert next[x] == list[a]; }
    }
  }

  /** One loop over all the lists, then a sort. */
  method MergeRecords(lists: seq<seq<Record>>) returns (merged: seq<Record>)
    ensures SortedById(merged) && Lists(merged, Newest(FlatOf(lists)))
  {
    var flat := FlatOf(lists);
    var known: Known := map[];
    for i := 0 to |flat|
      invariant known == Newest(flat[..i])
    {
      assert flat[..i + 1][..i] == flat[..i];
      if flat[i].id !in known || IsNewer(flat[i], known[flat[i].id]) { known := known[flat[i].id := flat[i]]; }
    }
    assert flat[..|flat|] == flat;
    NewestIs(flat);
    merged := Listed(known);
  }

  method Listed(known: Known) returns (list: seq<Record>)
    requires KeyedById(known)
    ensures SortedById(list) && Lists(list, known)
  {
    list := [];
    var rest := known.Keys;
    while rest != {}
      invariant rest <= known.Keys && SortedById(list)
      invariant forall r :: r in list <==> r.id in known.Keys - rest && known[r.id] == r
      decreases |rest|
    {
      var id :| id in rest;
      list := Inserted(list, known[id]);
      rest := rest - {id};
    }
  }
}
