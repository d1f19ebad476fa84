/**
 * A document's row and deltas as packages/relay/src/hub/store.ts keeps them, and what they stand for: an
 * append-only log of which only a snapshot and the deltas after it are stored.
 */
module Rows {
  import opened Common
  import opened Updates
  import opened Payloads

  /** A moved row's target, with bytes that mean nothing to the hub. */
  datatype Pointer = Pointer(target: Frames.DocId, note: bytes)

  datatype Row = Row(snapSeq: nat, snap: Option<Payload>, deltas: seq<Payload>, moved: Option<Pointer>, log: string)
  {
    function Head(): nat { snapSeq + |deltas| }
  }

  function HeadOf(row: Option<Row>): nat { if row.Some? then row.value.Head() else 0 }

  function PointerOf(row: Option<Row>): Option<Pointer> { if row.Some? then row.value.moved else None }

  /** `drawn` names the log when this is its first row. */
  function Appended(row: Option<Row>, payload: Payload, drawn: string): Row
  {
    var r := if row.Some? then row.value else Row(0, None, [], None, drawn);
    r.(deltas := r.deltas + [payload])
  }

  /** A State from `since` on: a snapshot if that is needed to get there, and then deltas. */
  function StateFrom(row: Option<Row>, since: nat): ServerFrame
  {
    match row
    case None => Frames.State(0, None, [], "")
    case Some(r) =>
      var from := Max(since, r.snapSeq) - r.snapSeq;
      Frames.State(r.Head(),
                   if since < r.snapSeq then r.snap else None,
                   if from <= |r.deltas| then r.deltas[from..] else [],
                   r.log)
  }

  function Compacted(row: Row, payload: Payload, upto: nat): Row
  {
    var covered := Min(upto, row.Head());
    if payload.size == 0 || covered <= row.snapSeq then row
    else row.(snapSeq := covered, snap := Some(payload), deltas := row.deltas[covered - row.snapSeq..])
  }

  function MovedRow(row: Option<Row>, pointer: Pointer): Row
  {
    Row(0, None, [], Some(pointer), if row.Some? then row.value.log else "")
  }

  /** The log still ends where the mover saw it end, and the target has none. */
  predicate MayRotate(row: Option<Row>, upto: nat, target: Option<Row>)
  {
    PointerOf(row) == None && HeadOf(row) == upto && target == None
  }

  // ---- the log a row stands for

  /** What the row and its deltas still hold. */
  function Stored(row: Row): Update
  {
    StateEdits(row.snap, row.deltas)
  }

  ghost predicate Represents(row: Row, hist: seq<Update>)
  {
    && row.moved == None
    && row.snapSeq <= |hist|
    && EditsOf(row.deltas) == hist[row.snapSeq..]
    && (row.snapSeq == 0 ==> row.snap == None)
    && (row.snapSeq > 0 ==> row.snap.Some? && row.snap.value.edits == Union(hist[..row.snapSeq]))
  }

  /** A moved row holds no log and never will. */
  predicate Emptied(row: Row) { row.moved.Some? && row.snapSeq == 0 && row.snap == None && row.deltas == [] }

  ghost predicate RowOk(row: Option<Row>, hist: seq<Update>)
  {
    match row
    case None => hist == []
    case Some(r) => if r.moved.Some? then Emptied(r) else Represents(r, hist)
  }

  lemma {:induction false} HeadIsLength(row: Row, hist: seq<Update>)
    requires Represents(row, hist)
    ensures row.Head() == |hist|
  {
    assert |EditsOf(row.deltas)| == |row.deltas|;
  }

  lemma {:induction false} AppendedRepresents(row: Option<Row>, hist: seq<Update>, payload: Payload, drawn: string)
    requires RowOk(row, hist) && PointerOf(row) == None
    ensures Represents(Appended(row, payload, drawn), hist + [payload.edits])
    ensures Appended(row, payload, drawn).Head() == |hist| + 1
  {
    var r := Appended(row, payload, drawn);
    if row.Some? {
      HeadIsLength(row.value, hist);
      assert EditsOf(r.deltas) == EditsOf(row.value.deltas) + [payload.edits];
      assert (hist + [payload.edits])[..r.snapSeq] == hist[..r.snapSeq];
    }
  }

  /** Compaction forgets deltas, never edits, while the snapshot is what it claims to be. */
  lemma {:induction false} CompactedRepresents(row: Row, hist: seq<Update>, payload: Payload, upto: nat)
    requires Represents(row, hist)
    requires payload.edits == Union(hist[..Min(upto, |hist|)])
    ensures Represents(Compacted(row, payload, upto), hist)
    ensures Compacted(row, payload, upto).Head() == row.Head()
  {
    HeadIsLength(row, hist);
    var covered := Min(upto, |hist|);
    if payload.size != 0 && covered > row.snapSeq {
      EditsOfSplit(row.deltas, covered - row.snapSeq);
      assert hist[row.snapSeq..][covered - row.snapSeq..] == hist[covered..];
    }
  }

  lemma {:induction false} StoredIsAll(row: Row, hist: seq<Update>)
    requires Represents(row, hist)
    ensures Stored(row) == Union(hist)
  {
    UnionSplit(hist, row.snapSeq);
  }

  lemma {:induction false} StateTail(row: Row, hist: seq<Update>, since: nat)
    requires Represents(row, hist) && row.snapSeq <= since <= |hist|
    ensures var f := StateFrom(Some(row), since); StateEdits(f.snapshot, f.deltas) == Union(hist[since..])
  {
    HeadIsLength(row, hist);
    EditsOfSplit(row.deltas, since - row.snapSeq);
    assert hist[row.snapSeq..][since - row.snapSeq..] == hist[since..];
  }

  /** From any `since`, a State turns log[1..since] into the whole log, and carries nothing that is not in it. */
  lemma {:induction false} StateCatchesUp(row: Option<Row>, hist: seq<Update>, since: nat)
    requires RowOk(row, hist) && PointerOf(row) == None
    ensures var f := StateFrom(row, since);
      && f.head == |hist|
      && StateEdits(f.snapshot, f.deltas) <= Union(hist)
      && (since <= |hist| ==> Union(hist[..since]) + StateEdits(f.snapshot, f.deltas) == Union(hist))
  {
    if row.Some? {
      var r := row.value;
      HeadIsLength(r, hist);
      if since < r.snapSeq {
        UnionMono(hist, since, |hist|);
        assert hist[..|hist|] == hist;
        StoredIsAll(r, hist);
        assert r.deltas[0..] == r.deltas;
      } else if since <= |hist| {
        StateTail(r, hist, since);
        UnionSplit(hist, since);
      }
    }
  }

  /** A State from the start or with a snapshot tells how far the snapshot reaches: the client's `compacted`. */
  lemma {:induction false} StateNamesSnapshot(row: Row, hist: seq<Update>, since: nat)
    requires Represents(row, hist)
    requires since == 0 || StateFrom(Some(row), since).snapshot.Some?
    ensures var f := StateFrom(Some(row), since); f.head - |f.deltas| == row.snapSeq
  {
  }

  /** It carries no delta the asker has, and a snapshot only where the deltas start past what the asker has. */
  lemma {:induction false} StateSendsNoMore(row: Row, since: nat)
    requires since <= row.Head()
    ensures var f := StateFrom(Some(row), since);
      && f.log == row.log
      && f.snapshot == (if since < row.snapSeq then row.snap else None)
      && |f.deltas| == row.Head() - Max(since, row.snapSeq)
      && exists older :: row.deltas == older + f.deltas
  {
    var n := Max(since, row.snapSeq) - row.snapSeq;
    assert row.deltas == row.deltas[..n] + StateFrom(Some(row), since).deltas;
  }

  /** A snapshot that reaches past the last one takes its place, and that of the deltas it covers; any other changes nothing. */
  lemma {:induction false} SnapshotReplaces(row: Row, payload: Payload, upto: nat)
    requires upto <= row.Head()
    ensures var r := Compacted(row, payload, upto);
      if upto <= row.snapSeq || payload.size == 0 then r == row
      else
        && r.snap == Some(payload) && r.snapSeq == upto && |r.deltas| == row.Head() - upto
        && (exists covered :: row.deltas == covered + r.deltas)
        && r.log == row.log && r.moved == row.moved
  {
    if upto > row.snapSeq && payload.size != 0 {
      assert row.deltas == row.deltas[..upto - row.snapSeq] + Compacted(row, payload, upto).deltas;
    }
  }
}
