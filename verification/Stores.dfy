/** Document logs in the hub's SQL tables: packages/relay/src/hub/store.ts. */
module Stores {
  import opened Common
  import opened Payloads
  import opened Rows
  import opened CacheKeys

  /** A row of `docs`; the deltas are rows of their own. */
  datatype DocRow = DocRow(snapSeq: nat, snap: Option<Payload>, moved: Option<Pointer>, log: string)

  /** What `row` reads: the row and the last of its deltas. */
  datatype Found = Found(head: nat, row: DocRow)

  datatype Cached = Cached(key: string, pointer: Option<Pointer>)

  const MOVED_CACHE_MAX: nat := 1024

  type Deltas = map<nat, Payload>

  /** Exactly the sequence numbers after the snapshot, without a gap. */
  ghost predicate Contiguous(m: Deltas, snapSeq: nat)
  {
    forall n :: n in m <==> snapSeq < n <= snapSeq + |m|
  }

  function Listed(m: Deltas, snapSeq: nat): seq<Payload>
    requires Contiguous(m, snapSeq)
  {
    seq(|m|, i requires 0 <= i < |m| => m[snapSeq + 1 + i])
  }

  lemma {:induction false} IntervalSize(s: set<nat>, from: nat, upto: nat)
    requires from <= upto && forall n :: n in s <==> from < n <= upto
    ensures |s| == upto - from
    decreases upto
  {
    if from == upto {
      assert s == {};
    } else {
      IntervalSize(s - {upto}, from, upto - 1);
    }
  }

  /** Dropping the deltas a snapshot covers leaves the rest in a row. */
  lemma {:induction false} DroppedContiguous(m: Deltas, snapSeq: nat, covered: nat)
    requires Contiguous(m, snapSeq) && snapSeq <= covered <= snapSeq + |m|
    ensures var r := map n | n in m && n > covered :: m[n];
      Contiguous(r, covered) && Listed(r, covered) == Listed(m, snapSeq)[covered - snapSeq..]
  {
    var r := map n | n in m && n > covered :: m[n];
    IntervalSize(r.Keys, covered, snapSeq + |m|);
    assert |r| == |r.Keys|;
  }

  lemma {:induction false} GrownContiguous(m: Deltas, snapSeq: nat, p: Payload)
    requires Contiguous(m, snapSeq)
    ensures var r := m[snapSeq + |m| + 1 := p]; Contiguous(r, snapSeq) && Listed(r, snapSeq) == Listed(m, snapSeq) + [p]
  {
    var r := m[snapSeq + |m| + 1 := p];
    assert |r| == |m| + 1;
  }

  function RowIn(rows: map<Key, Row>, k: Key): Option<Row> { if k in rows then Some(rows[k]) else None }

  function DeltasIn(deltas: map<Key, Deltas>, k: Key): Deltas { if k in deltas then deltas[k] else map[] }

  ghost predicate TablesOk(docs: map<Key, DocRow>, deltas: map<Key, Deltas>)
  {
    && (forall k :: k in docs ==> Contiguous(DeltasIn(deltas, k), docs[k].snapSeq))
    && (forall k :: k !in docs ==> DeltasIn(deltas, k) == map[])
  }

  ghost function RowFrom(d: DocRow, m: Deltas): Row
    requires Contiguous(m, d.snapSeq)
  {
    Row(d.snapSeq, d.snap, Listed(m, d.snapSeq), d.moved, d.log)
  }

  /** Every document with its deltas, as the log the tables keep for it. */
  ghost function RowsFrom(docs: map<Key, DocRow>, deltas: map<Key, Deltas>): map<Key, Row>
    requires TablesOk(docs, deltas)
  {
    map k | k in docs :: RowFrom(docs[k], DeltasIn(deltas, k))
  }

  /** Writing one document's row and deltas changes that document alone. */
  lemma {:induction false} WriteOne(docs: map<Key, DocRow>, deltas: map<Key, Deltas>, k: Key, d: DocRow, m: Deltas)
    requires TablesOk(docs, deltas) && Contiguous(m, d.snapSeq)
    ensures TablesOk(docs[k := d], deltas[k := m])
    ensures RowsFrom(docs[k := d], deltas[k := m]) == RowsFrom(docs, deltas)[k := RowFrom(d, m)]
  {
    var es, ms := docs[k := d], deltas[k := m];
    assert forall j :: j != k ==> DeltasIn(ms, j) == DeltasIn(deltas, j);
    assert TablesOk(es, ms);
    var x, y := RowsFrom(es, ms), RowsFrom(docs, deltas)[k := RowFrom(d, m)];
    assert x.Keys == y.Keys;
    assert forall j :: j in x ==> x[j] == y[j];
  }

  /** The row one delta longer. */
  lemma {:induction false} RowGrown(docs: map<Key, DocRow>, deltas: map<Key, Deltas>, k: Key, d: DocRow, payload: Payload, drawn: string)
    requires TablesOk(docs, deltas) && d == if k in docs then docs[k] else DocRow(0, None, None, drawn)
    ensures var m := DeltasIn(deltas, k); var more := m[d.snapSeq + |m| + 1 := payload];
      Contiguous(more, d.snapSeq) && RowFrom(d, more) == Appended(RowIn(RowsFrom(docs, deltas), k), payload, drawn)
  {
    GrownContiguous(DeltasIn(deltas, k), d.snapSeq, payload);
  }

  lemma {:induction false} EmptyRow(d: DocRow)
    requires d.snapSeq == 0
    ensures Contiguous(map[], 0) && RowFrom(d, map[]) == Row(0, d.snap, [], d.moved, d.log)
  {
  }

  /** Whatever the cache holds is what the table would answer. */
  ghost predicate CacheOk(moved: seq<Cached>, rows: map<Key, Row>)
  {
    && |moved| <= MOVED_CACHE_MAX
    && forall i, k :: 0 <= i < |moved| && moved[i].key == CacheKey(k) ==> moved[i].pointer == PointerOf(RowIn(rows, k))
  }

  /** A cache stays right while every document keeps its pointer. */
  lemma {:induction false} CacheStays(moved: seq<Cached>, rows: map<Key, Row>, k: Key, row: Row)
    requires CacheOk(moved, rows) && row.moved == PointerOf(RowIn(rows, k))
    ensures CacheOk(moved, rows[k := row])
  {
  }

  /** Right for every document but `k`. */
  ghost predicate CacheBut(moved: seq<Cached>, rows: map<Key, Row>, k: Key)
  {
    && |moved| <= MOVED_CACHE_MAX
    && forall i, j :: 0 <= i < |moved| && moved[i].key == CacheKey(j) && j != k ==> moved[i].pointer == PointerOf(RowIn(rows, j))
  }

  lemma {:induction false} CacheLosesOne(moved: seq<Cached>, rows: map<Key, Row>, k: Key, row: Row)
    requires CacheOk(moved, rows)
    ensures CacheBut(moved, rows[k := row], k) && CacheBut(moved, rows, k)
  {
  }

  class SqlDocStore {
    var docs: map<Key, DocRow>
    var deltas: map<Key, Deltas>
    /** Answers of `movedTo`, oldest first. */
    var moved: seq<Cached>

    ghost predicate Valid()
      reads this
    {
      TablesOk(docs, deltas) && CacheOk(moved, Rows())
    }

    ghost function Rows(): map<Key, Row>
      reads this
      requires TablesOk(docs, deltas)
    {
      RowsFrom(docs, deltas)
    }

    ghost function RowOf(k: Key): Option<Row>
      reads this
      requires TablesOk(docs, deltas)
    {
      RowIn(Rows(), k)
    }

    constructor ()
      ensures Valid() && Rows() == map[]
    {
      docs, deltas, moved := map[], map[], [];
    }

    method Find(k: Key) returns (found: Option<Found>)
      requires Valid()
      ensures (found.Some? <==> k in docs) && (RowOf(k).Some? <==> k in docs)
      ensures found.Some? ==> found.value == Found(RowOf(k).value.Head(), docs[k])
    {
      if k !in docs { return None; }
      var seqs := DeltasIn(deltas, k);
      var snapSeq := docs[k].snapSeq;
      if seqs == map[] {
        return Some(Found(snapSeq, docs[k]));
      }
      assert snapSeq + |seqs| in seqs;
      var last :| last in seqs && forall n :: n in seqs ==> n <= last;
      found := Some(Found(Max(last, snapSeq), docs[k]));
    }

    /** Asked on every frame, so answered from the cache when it can be. */
    method MovedTo(k: Key) returns (pointer: Option<Pointer>)
      requires Valid()
      modifies this`moved
      ensures Valid() && pointer == PointerOf(RowOf(k))
    {
      var key := CacheKey(k);
      var i := 0;
      while i < |moved|
        invariant 0 <= i <= |moved| && moved == old(moved)
      {
        if moved[i].key == key {
          return moved[i].pointer;
        }
        i := i + 1;
      }
      pointer := if k in docs then docs[k].moved else None;
      Remember(k, pointer, Rows());
    }

    /** Sets an answer in place, or adds it after dropping the oldest of a full cache. */
    method Remember(k: Key, pointer: Option<Pointer>, ghost rows: map<Key, Row>)
      requires CacheBut(moved, rows, k) && pointer == PointerOf(RowIn(rows, k))
      modifies this`moved
      ensures CacheOk(moved, rows)
    {
      var key := CacheKey(k);
      forall j | CacheKey(j) == key ensures j == k { CacheKeyInjective(j, k); }
      var held := false;
      var kept: seq<Cached> := [];
      var i := 0;
      while i < |moved|
        invariant 0 <= i <= |moved| && |kept| == i && moved == old(moved)
        invariant forall n, j :: 0 <= n < |kept| && kept[n].key == CacheKey(j) ==> kept[n].pointer == PointerOf(RowIn(rows, j))
      {
        held := held || moved[i].key == key;
        kept := kept + [if moved[i].key == key then Cached(key, pointer) else moved[i]];
        i := i + 1;
      }
      if !held {
        if |kept| >= MOVED_CACHE_MAX { kept := kept[1..]; }
        kept := kept + [Cached(key, pointer)];
      }
      moved := kept;
    }

    method Insert(k: Key, payload: Payload, drawn: string) returns (head: nat)
      requires Valid()
      modifies this`docs, this`deltas
      ensures Valid() && Rows() == old(Rows())[k := Appended(old(RowOf(k)), payload, drawn)]
      ensures head == Rows()[k].Head()
    {
      var found := Find(k);
      head := (if found.Some? then found.value.head else 0) + 1;
      var m := DeltasIn(deltas, k);
      ghost var row := Appended(RowOf(k), payload, drawn);
      ghost var rows := Rows();
      var d := if found.Some? then found.value.row else DocRow(0, None, None, drawn);
      RowGrown(docs, deltas, k, d, payload, drawn);
      assert head == d.snapSeq + |m| + 1;
      WriteOne(docs, deltas, k, d, m[head := payload]);
      CacheStays(moved, rows, k, row);
      if found.None? { docs := docs[k := d]; }
      assert docs == old(docs)[k := d];
      deltas := deltas[k := m[head := payload]];
    }

    method Append(k: Key, payload: Payload, drawn: string) returns (head: nat)
      requires Valid()
      modifies this`docs, this`deltas
      ensures Valid() && Rows() == old(Rows())[k := Appended(old(RowOf(k)), payload, drawn)]
      ensures head == Rows()[k].Head()
    {
      head := Insert(k, payload, drawn);
    }

    /** Creates the row, or answers None if there is one. */
    method Seed(k: Key, payload: Payload, drawn: string) returns (head: Option<nat>)
      requires Valid()
      modifies this`docs, this`deltas
      ensures Valid()
      ensures old(RowOf(k)).Some? ==> head == None && Rows() == old(Rows())
      ensures old(RowOf(k)).None? ==> head == Some(1) && Rows() == old(Rows())[k := Appended(None, payload, drawn)]
    {
      if k in docs { return None; }
      var at := Insert(k, payload, drawn);
      head := Some(at);
    }

    method State(k: Key, since: nat) returns (state: ServerFrame)
      requires Valid()
      ensures state == StateFrom(RowOf(k), since)
    {
      var found := Find(k);
      if found.None? {
        return Frames.State(0, None, [], "");
      }
      var row := found.value.row;
      var m := DeltasIn(deltas, k);
      var at := Max(since, row.snapSeq);
      var out: seq<Payload> := [];
      ghost var from := at - row.snapSeq;
      while at < found.value.head
        invariant row.snapSeq <= at && from == Max(since, row.snapSeq) - row.snapSeq
        invariant from <= |m| ==> at <= row.snapSeq + |m| && out == Listed(m, row.snapSeq)[from..at - row.snapSeq]
        invariant from > |m| ==> out == []
      {
        at := at + 1;
        out := out + [m[at]];
      }
      state := Frames.State(found.value.head, if since < row.snapSeq then row.snap else None, out, row.log);
    }

    method Compact(k: Key, payload: Payload, upto: nat)
      requires Valid()
      modifies this`docs, this`deltas
      ensures Valid()
      ensures Rows() == if old(RowOf(k)).None? then old(Rows())
                        else old(Rows())[k := Compacted(old(RowOf(k)).value, payload, upto)]
    {
      var found := Find(k);
      if found.None? || payload.size == 0 { return; }
      var covered := Min(upto, found.value.head);
      if covered <= found.value.row.snapSeq { return; }
      var m := DeltasIn(deltas, k);
      var rest := map n | n in m && n > covered :: m[n];
      var d := docs[k].(snap := Some(payload), snapSeq := covered);
      DroppedContiguous(m, docs[k].snapSeq, covered);
      ghost var row := Compacted(RowOf(k).value, payload, upto);
      assert RowFrom(d, rest) == row;
      WriteOne(docs, deltas, k, d, rest);
      CacheStays(moved, Rows(), k, row);
      docs := docs[k := d];
      deltas := deltas[k := rest];
    }

    method MarkMoved(k: Key, pointer: Pointer)
      requires Valid()
      modifies this
      ensures Valid() && Rows() == old(Rows())[k := MovedRow(old(RowOf(k)), pointer)]
    {
      var d := DocRow(0, None, Some(pointer), if k in docs then docs[k].log else "");
      ghost var rows := Rows();
      EmptyRow(d);
      WriteOne(docs, deltas, k, d, map[]);
      CacheLosesOne(moved, rows, k, RowFrom(d, map[]));
      docs := docs[k := d];
      deltas := deltas[k := map[]];
      Remember(k, Some(pointer), rows[k := RowFrom(d, map[])]);
    }

    /** Seeds the target and leaves the pointer, or changes nothing. */
    method Rotate(k: Key, pointer: Pointer, upto: nat, payload: Payload, drawn: string) returns (done: bool)
      requires Valid()
      modifies this
      ensures Valid()
      ensures var t := Key(k.channel, pointer.target);
        && done == MayRotate(old(RowOf(k)), upto, old(RowOf(t)))
        && Rows() == if !done then old(Rows())
                     else
                       var rows := old(Rows())[t := Appended(None, payload, drawn)];
                       rows[k := MovedRow(RowIn(rows, k), pointer)]
    {
      var t := Key(k.channel, pointer.target);
      var found := Find(k);
      if found.Some? && found.value.row.moved.Some? { return false; }
      if (if found.Some? then found.value.head else 0) != upto { return false; }
      var seeded := Seed(t, payload, drawn);
      if seeded.None? { return false; }
      MarkMoved(k, pointer);
      done := true;
    }

    /** A closed channel: its documents go, and the cache with them. */
    method Purge(channel: string)
      requires Valid()
      modifies this
      ensures Valid()
      ensures Rows() == map k | k in old(Rows()) && k.channel != channel :: old(Rows())[k]
    {
      var left := map k | k in deltas && k.channel != channel :: deltas[k];
      var kept := map k | k in docs && k.channel != channel :: docs[k];
      PurgeLeaves(docs, deltas, channel);
      deltas := left;
      docs := kept;
      moved := [];
    }
  }

  lemma {:induction false} PurgeLeaves(docs: map<Key, DocRow>, deltas: map<Key, Deltas>, channel: string)
    requires TablesOk(docs, deltas)
    ensures var left := map k | k in deltas && k.channel != channel :: deltas[k];
      var kept := map k | k in docs && k.channel != channel :: docs[k];
      && TablesOk(kept, left)
      && RowsFrom(kept, left) == map k | k in RowsFrom(docs, deltas) && k.channel != channel :: RowsFrom(docs, deltas)[k]
  {
    var left := map k | k in deltas && k.channel != channel :: deltas[k];
    assert forall k: Key :: DeltasIn(left, k) == if k.channel != channel then DeltasIn(deltas, k) else map[];
  }
}
