/**
 * What every step of a channel keeps of its documents' meaning: each session's document is its room's log, and a moved
 * room's log is all in the room it points at. A document is opened again only on a socket that is clear.
 */
module WorldProofs {
  import opened Common
  import opened Updates
  import opened Payloads
  import opened Rows
  import opened Docs
  import opened Streams
  import opened SessionProofs
  import opened Links
  import opened Rooms
  import opened World

  /** A document is opened again where nothing sent or owed on the socket moves a session along the log. */
  predicate Heeds(w: World, step: Step)
  {
    step.Reopen? && CanReopen(RoomAt(w, step.doc), step.before, step.sid, step.knownSeq, step.missed) ==>
      var l := RoomAt(w, step.doc).links[step.before]; Clear(l.s.up, l.down[step.missed..])
  }

  predicate AllHeed(w: World, steps: seq<Step>)
  {
    steps == [] || (AllHeed(w, steps[..|steps| - 1]) && Heeds(Run(w, steps[..|steps| - 1]), steps[|steps| - 1]))
  }

  ghost predicate RoomsOk(w: World) { forall d :: d in w.rooms ==> RoomOk(w.rooms[d]) }

  /** Whatever a moved room held, the room it points at holds. */
  ghost predicate PointersCarry(w: World)
  {
    forall d :: PointerAt(w, d).Some? ==> Union(HistAt(w, d)) <= Union(HistAt(w, PointerAt(w, d).value.target))
  }

  ghost predicate WorldOk(w: World) { Shaped(w) && RoomsOk(w) && PointersCarry(w) }

  lemma {:induction false} ExtendsUnion(w: World, x: World, d: DocId)
    requires Extends(w, x)
    ensures Union(HistAt(w, d)) <= Union(HistAt(x, d))
  {
    var h, g := HistAt(w, d), HistAt(x, d);
    assert h <= g;
    assert g[..|h|] == h && g[..|g|] == g;
    UnionMono(g, |h|, |g|);
  }

  /** A step within one room: one that has moved logs nothing. */
  lemma {:induction false} PutOk(w: World, d: DocId, room: Room)
    requires WorldOk(w) && RoomOk(room) && RoomStays(RoomAt(w, d), room)
    requires PointerAt(w, d).Some? ==> room.hist == HistAt(w, d)
    ensures RoomsOk(Put(w, d, room)) && PointersCarry(Put(w, d, room))
  {
    var x := Put(w, d, room);
    PutExtends(w, d, room);
    forall e | PointerAt(x, e).Some?
      ensures Union(HistAt(x, e)) <= Union(HistAt(x, PointerAt(x, e).value.target))
    {
      ExtendsUnion(w, x, PointerAt(w, e).value.target);
      assert HistAt(x, e) == HistAt(w, e);
    }
  }

  lemma {:induction false} UnionOne(u: Update)
    ensures Union([u]) == u
  {
    UnionAppend([], u);
    assert [] + [u] == [u];
  }

  lemma {:induction false} TargetSeeded(w: World, d: DocId, room: Room, f: ClientFrame, drawn: string)
    requires WorldOk(w) && RoomOk(room) && Moving(w, d, room, f) && drawn != ""
    ensures var r := Seeded(RoomAt(w, f.target), f.payload, drawn); RoomOk(r) && Union(r.hist) == f.payload.edits
  {
    var was := RoomAt(w, f.target);
    assert RoomOk(EMPTY_ROOM) && RoomOk(was);
    SeededOk(was, f.payload, drawn);
    assert was.hist + [f.payload.edits] == [f.payload.edits];
    UnionOne(f.payload.edits);
  }

  /** The rooms a rotation leaves: the moved one keeps its log on record, the target holds all of it. */
  lemma {:induction false} HandoverOk(w: World, d: DocId, room: Room, f: ClientFrame, drawn: string)
    requires WorldOk(w) && RoomOk(room) && Moving(w, d, room, f) && drawn != ""
    requires Extends(w, HandedOver(w, d, room, f, drawn)) && f.payload.edits == Union(HistAt(w, d))
    ensures var x := HandedOver(w, d, room, f, drawn); RoomsOk(x) && PointersCarry(x)
  {
    var x := HandedOver(w, d, room, f, drawn);
    TargetSeeded(w, d, room, f, drawn);
    forall e | PointerAt(x, e).Some?
      ensures Union(HistAt(x, e)) <= Union(HistAt(x, PointerAt(x, e).value.target))
    {
      if e != d {
        assert RoomAt(x, e) == RoomAt(w, e);
        ExtendsUnion(w, x, PointerAt(w, e).value.target);
      }
    }
  }

  /** A rotation is taken only while the log ends where its sender saw it end: what seeds the target is all of it. */
  lemma {:induction false} TakenRotation(w: World, d: DocId, ans: Answer, f: ClientFrame, followers: set<nat>, sender: Sender, drawn: string)
    requires WorldOk(w) && Safe(f, TruthOf(RoomAt(w, d)))
    requires ans == Handle(d, RowAt(w, d), followers, sender, TargetRow(w, f), drawn, f) && ans.seeded.Some?
    ensures f.Rotate? && f.payload.edits == Union(HistAt(w, d))
  {
    var hist := HistAt(w, d);
    assert d in w.rooms ==> RoomOk(w.rooms[d]);
    if RowAt(w, d).Some? { HeadIsLength(RowAt(w, d).value, hist); }
    assert hist[..f.upto] == hist;
  }

  /** The hub's answer to one frame, wherever it came from. */
  lemma {:induction false} RotatedOk(w: World, d: DocId, room: Room, ans: Answer, f: ClientFrame, followers: set<nat>, sender: Sender, drawn: string)
    requires WorldOk(w) && RoomOk(room) && RoomShaped(room) && drawn != "" && Safe(f, TruthOf(RoomAt(w, d)))
    requires ans == Handle(d, RowAt(w, d), followers, sender, TargetRow(w, f), drawn, f)
    requires room.row == ans.row
    requires room.hist == if ans.logged.Some? then HistAt(w, d) + [ans.logged.value.edits] else HistAt(w, d)
    ensures WorldOk(Rotated(w, d, room, ans, f, drawn)) && Extends(w, Rotated(w, d, room, ans, f, drawn))
  {
    RotatedShaped(w, d, room, ans, f, followers, sender, drawn);
    TakenMoves(w, d, room, ans, f, followers, sender, drawn);
    if ans.seeded.Some? {
      TakenRotation(w, d, ans, f, followers, sender, drawn);
      HandoverOk(w, d, room, f, drawn);
    } else {
      PutOk(w, d, room);
    }
  }

  lemma {:induction false} ReceiveOk(w: World, d: DocId, sender: Sender, drawn: string)
    requires WorldOk(w)
    ensures WorldOk(Do(w, Receive(d, sender, drawn)))
  {
    var room := RoomAt(w, d);
    assert RoomOk(room) && RoomShaped(room);
    if sender.tag in room.links && room.links[sender.tag].s.up != [] && drawn != "" {
      var l := room.links[sender.tag];
      var f := l.s.up[0];
      assert f in l.s.up;
      WithFrameOk(d, room, sender, TargetRow(w, f), drawn);
      FrameShaped(d, room, sender, TargetRow(w, f), drawn);
      RotatedOk(w, d, WithFrame(d, room, sender, TargetRow(w, f), drawn),
                AnswerTo(d, room, sender, TargetRow(w, f), drawn), f, Followers(room.links), sender, drawn);
    }
  }

  lemma {:induction false} ReceiveLateOk(w: World, d: DocId, sender: Sender, drawn: string, i: nat)
    requires WorldOk(w)
    ensures WorldOk(Do(w, ReceiveLate(d, sender, drawn, i)))
  {
    var room := RoomAt(w, d);
    assert RoomOk(room) && RoomShaped(room);
    if i < |room.orphans| && sender.tag !in room.links && drawn != "" {
      var f := room.orphans[i];
      assert f in room.orphans;
      WithOrphanOk(d, room, i, sender, TargetRow(w, f), drawn);
      OrphanShaped(d, room, i, sender, TargetRow(w, f), drawn);
      RotatedOk(w, d, WithOrphan(d, room, i, sender, TargetRow(w, f), drawn),
                OrphanAnswer(d, room, i, sender, TargetRow(w, f), drawn), f,
                Followers(room.links) + {sender.tag}, sender, drawn);
    }
  }

  lemma {:induction false} SteppingOk(room: Room, w: World, step: Step)
    requires RoomOk(room) && Heeds(w, step) && room == RoomAt(w, step.doc)
    ensures RoomOk(Stepping(room, step))
  {
    match step
    case Open(_, sid, knownSeq, connected) => WithSessionOk(room, sid, knownSeq, connected);
    case Reopen(_, sid, knownSeq, before, missed) => WithReopenedOk(room, before, sid, knownSeq, missed);
    case Client(_, sid, act) => WithActOk(room, sid, act);
    case Drop(_, sid) => WithDropOk(room, sid);
    case Cut(_, sid) => WithCutOk(room, sid);
    case _ =>
  }

  lemma {:induction false} DoOk(w: World, step: Step)
    requires WorldOk(w) && Heeds(w, step)
    ensures WorldOk(Do(w, step)) && Extends(w, Do(w, step))
  {
    DoShaped(w, step);
    match step
    case Receive(d, sender, drawn) => ReceiveOk(w, d, sender, drawn);
    case ReceiveLate(d, sender, drawn, i) => ReceiveLateOk(w, d, sender, drawn, i);
    case _ =>
      var room := RoomAt(w, step.doc);
      assert RoomOk(room) && RoomShaped(room);
      SteppingOk(room, w, step);
      ActsShaped(room, step);
      PutOk(w, step.doc, Stepping(room, step));
  }

  lemma {:induction false} RunOk(w: World, steps: seq<Step>)
    requires WorldOk(w) && AllHeed(w, steps)
    ensures WorldOk(Run(w, steps)) && Extends(w, Run(w, steps))
  {
    RunShaped(w, steps);
    if steps != [] {
      RunOk(w, steps[..|steps| - 1]);
      DoOk(Run(w, steps[..|steps| - 1]), steps[|steps| - 1]);
    }
  }

  // ---- the guard

  /** The session closed there was closed at rest: it had read its State on the socket, and waited for nothing. */
  predicate Rested(w: World, step: Step)
  {
    step.Reopen? && CanReopen(RoomAt(w, step.doc), step.before, step.sid, step.knownSeq, step.missed) ==>
      RoomAt(w, step.doc).links[step.before].rested
  }

  predicate AllRested(w: World, steps: seq<Step>)
  {
    steps == [] || (AllRested(w, steps[..|steps| - 1]) && Rested(Run(w, steps[..|steps| - 1]), steps[|steps| - 1]))
  }

  /** Whatever the hub answered since, the socket of a session closed at rest is clear. */
  lemma {:induction false} RestedHeeds(w: World, step: Step)
    requires WorldOk(w) && Rested(w, step)
    ensures Heeds(w, step)
  {
    var room := RoomAt(w, step.doc);
    assert RoomOk(room);
    if step.Reopen? && CanReopen(room, step.before, step.sid, step.knownSeq, step.missed) {
      var l := room.links[step.before];
      assert LinkOk(l, TruthOf(room));
      var owed := l.down[step.missed..];
      forall i | 0 <= i < |owed| ensures Quiet(owed[i]) || owed[i].Fanout? {
        assert owed[i] == l.down[step.missed + i];
      }
    }
  }

  lemma {:induction false} RestedRunHeeds(w: World, steps: seq<Step>)
    requires WorldOk(w) && AllRested(w, steps)
    ensures AllHeed(w, steps)
  {
    if steps != [] {
      RestedRunHeeds(w, steps[..|steps| - 1]);
      RunOk(w, steps[..|steps| - 1]);
      RestedHeeds(Run(w, steps[..|steps| - 1]), steps[|steps| - 1]);
    }
  }
}
