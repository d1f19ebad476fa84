/**
 * Every room of a channel and every session on them, stepping in any order: edits, flushes, timeouts, sockets lost
 * and regained, documents closed and opened again on one socket, frames dropped by the hub or arriving on abandoned
 * sockets, compactions and rotations. What is proved here holds whatever is sent: rows and logs keep in step, logs
 * only grow, and pointers make no cycle.
 */
module World {
  import opened Common
  import opened Updates
  import opened Payloads
  import opened Rows
  import opened Docs
  import opened Sessions
  import opened Streams
  import opened Links
  import opened AnyFrames
  import opened Rooms

  type DocId = Frames.DocId

  /** `order` records the documents that moved, oldest first. */
  datatype World = World(rooms: map<DocId, Room>, order: seq<DocId>)

  const EMPTY_WORLD := World(map[], [])

  function RoomAt(w: World, d: DocId): Room { if d in w.rooms then w.rooms[d] else EMPTY_ROOM }

  function RowAt(w: World, d: DocId): Option<Row> { RoomAt(w, d).row }

  function PointerAt(w: World, d: DocId): Option<Pointer> { PointerOf(RowAt(w, d)) }

  function HistAt(w: World, d: DocId): seq<Update> { RoomAt(w, d).hist }

  /** `drawn` is the name the store draws for a log it starts. */
  datatype Step =
    | Open(doc: DocId, sid: nat, knownSeq: nat, connected: bool)
    | Reopen(doc: DocId, sid: nat, knownSeq: nat, before: nat, missed: nat)
    | Client(doc: DocId, sid: nat, act: Act)
    | Drop(doc: DocId, sid: nat)
    | Cut(doc: DocId, sid: nat)
    | Receive(doc: DocId, sender: Sender, drawn: string)
    | ReceiveLate(doc: DocId, sender: Sender, drawn: string, i: nat)

  function TargetRow(w: World, f: ClientFrame): Option<Row> { if f.Rotate? then RowAt(w, f.target) else None }

  function Put(w: World, d: DocId, room: Room): World { w.(rooms := w.rooms[d := room]) }

  /** A rotation the hub took: the target is seeded and the document is a pointer now. */
  function Rotated(w: World, d: DocId, room: Room, ans: Answer, f: ClientFrame, drawn: string): World
  {
    if ans.seeded.None? || !f.Rotate? then Put(w, d, room)
    else
      World(w.rooms[d := room][f.target := Seeded(RoomAt(w, f.target), ans.seeded.value, drawn)], w.order + [d])
  }

  /** A step of one room's sessions and sockets, while the hub answers nothing. */
  function Stepping(room: Room, step: Step): Room
  {
    match step
    case Open(_, sid, knownSeq, connected) => WithSession(room, sid, knownSeq, connected)
    case Reopen(_, sid, knownSeq, before, missed) => WithReopened(room, before, sid, knownSeq, missed)
    case Client(_, sid, act) => WithAct(room, sid, act)
    case Drop(_, sid) => WithDrop(room, sid)
    case Cut(_, sid) => WithCut(room, sid)
    case _ => room
  }

  /** A step that is not due changes nothing. */
  function Do(w: World, step: Step): World
  {
    var room := RoomAt(w, step.doc);
    match step
    case Receive(d, sender, drawn) =>
      if sender.tag !in room.links || room.links[sender.tag].s.up == [] || drawn == "" then w
      else
        var f := room.links[sender.tag].s.up[0];
        Rotated(w, d, WithFrame(d, room, sender, TargetRow(w, f), drawn),
                AnswerTo(d, room, sender, TargetRow(w, f), drawn), f, drawn)
    case ReceiveLate(d, sender, drawn, i) =>
      if i >= |room.orphans| || sender.tag in room.links || drawn == "" then w
      else
        var f := room.orphans[i];
        Rotated(w, d, WithOrphan(d, room, i, sender, TargetRow(w, f), drawn),
                OrphanAnswer(d, room, i, sender, TargetRow(w, f), drawn), f, drawn)
    case _ => Put(w, step.doc, Stepping(room, step))
  }

  function Run(w: World, steps: seq<Step>): World
  {
    if steps == [] then w else Do(Run(w, steps[..|steps| - 1]), steps[|steps| - 1])
  }

  // ---- a room

  /** A row ends where the log it is of does, until it is moved; a document without one has no log. */
  ghost predicate RowShaped(room: Room)
  {
    match room.row
    case None => room.hist == [] && room.name == ""
    case Some(r) => if r.moved.Some? then Emptied(r) else r.Head() == |room.hist| && r.log == room.name
  }

  ghost predicate RoomShaped(room: Room)
  {
    RowShaped(room) && forall k :: k in room.links ==> LinkShaped(room.links[k], TruthOf(room))
  }

  ghost predicate RowStays(room: Room, r: Room, ans: Answer)
  {
    && RowShaped(r) && Grows(TruthOf(room), TruthOf(r))
    && (ans.logged.Some? ==> HeadOf(ans.row) == |r.hist|)
  }

  lemma {:induction false} RowStepShaped(room: Room, ans: Answer, drawn: string, f: ClientFrame)
    requires RowShaped(room) && RowStep(room.row, ans, drawn, f) && drawn != ""
    ensures RowStays(room, WithAnswer(room, map[], ans, drawn), ans)
  {
  }

  /** Whatever anybody is told of the log, it is as the log is now. */
  lemma {:induction false} MailTells(doc: DocId, room: Room, followers: set<nat>, sender: Sender, target: Option<Row>, drawn: string, f: ClientFrame, k: nat)
    requires RowShaped(room) && drawn != ""
    ensures var ans := Handle(doc, room.row, followers, sender, target, drawn, f);
      var r := WithAnswer(room, map[], ans, drawn);
      RowStays(room, r, ans) && (k in ans.mail ==> TellsNow(ans.mail[k], TruthOf(r)))
  {
    var ans := Handle(doc, room.row, followers, sender, target, drawn, f);
    RowStepped(doc, room.row, followers, sender, target, drawn, f);
    RowStepShaped(room, ans, drawn, f);
    if k != sender.tag {
      OthersHear(doc, room.row, followers, k, sender, target, drawn, f);
    } else {
      SenderHears(doc, room.row, followers, sender, target, drawn, f);
      if k in ans.mail && ans.mail[k].State? {
        SenderStateIs(doc, room.row, followers, sender, target, drawn, f);
      }
    }
  }

  lemma {:induction false} AnsweredShaped(doc: DocId, room: Room, links: map<nat, Link>, followers: set<nat>, sender: Sender, target: Option<Row>, drawn: string, f: ClientFrame)
    requires RoomShaped(room.(links := links)) && drawn != ""
    ensures var ans := Handle(doc, room.row, followers, sender, target, drawn, f);
      var r := WithAnswer(room, links, ans, drawn);
      RoomShaped(r) && Grows(TruthOf(room), TruthOf(r))
  {
    var ans := Handle(doc, room.row, followers, sender, target, drawn, f);
    var r := WithAnswer(room, links, ans, drawn);
    MailTells(doc, room, followers, sender, target, drawn, f, sender.tag);
    forall k | k in r.links ensures LinkShaped(r.links[k], TruthOf(r)) {
      assert k in room.(links := links).links;
      MailTells(doc, room, followers, sender, target, drawn, f, k);
      MailedShaped(links[k], k, ans, TruthOf(room), TruthOf(r));
    }
  }

  lemma {:induction false} MailedShaped(l: Link, k: nat, ans: Answer, t: Truth, u: Truth)
    requires LinkShaped(l, t) && Grows(t, u) && (k in ans.mail ==> TellsNow(ans.mail[k], u))
    ensures LinkShaped(Mailed(l, k, ans), u)
  {
    LinkGrows(l, t, u);
    if k in ans.mail { ToldShaped(l, ans.mail[k], u); }
  }

  lemma {:induction false} ReopenedRoom(room: Room, before: nat, sid: nat, knownSeq: nat, missed: nat)
    requires RoomShaped(room)
    ensures RoomShaped(WithReopened(room, before, sid, knownSeq, missed))
  {
    if CanReopen(room, before, sid, knownSeq, missed) {
      ReopenedShaped(room.links[before], knownSeq, missed, TruthOf(room));
    }
  }

  lemma {:induction false} ActedRoom(room: Room, sid: nat, a: Act)
    requires RoomShaped(room)
    ensures RoomShaped(WithAct(room, sid, a))
  {
    if sid in room.links { SteppedShaped(room.links[sid], a, TruthOf(room)); }
  }

  lemma {:induction false} SeededShaped(room: Room, payload: Payload, drawn: string)
    requires RoomShaped(room) && room.row == None && drawn != ""
    ensures RoomShaped(Seeded(room, payload, drawn))
  {
    var r := Seeded(room, payload, drawn);
    forall k | k in r.links ensures LinkShaped(r.links[k], TruthOf(r)) {
      LinkGrows(room.links[k], TruthOf(room), TruthOf(r));
    }
  }

  // ---- the channel

  /** A moved document's target has a row. */
  ghost predicate PointersLand(w: World)
  {
    forall d :: PointerAt(w, d).Some? ==> RowAt(w, PointerAt(w, d).value.target).Some?
  }

  function TargetOf(w: World, i: nat): DocId
    requires i < |w.order|
  {
    var p := PointerAt(w, w.order[i]);
    if p.Some? then p.value.target else ""
  }

  /** Each move went to a room that no earlier move left or reached. */
  ghost predicate Ordered(w: World)
  {
    && (forall d :: d in w.order <==> PointerAt(w, d).Some?)
    && (forall i, j :: 0 <= i < j < |w.order| ==> w.order[i] != w.order[j])
    && (forall i, j :: 0 <= i <= j < |w.order| ==> TargetOf(w, j) != w.order[i])
    && (forall i, j :: 0 <= i < j < |w.order| ==> TargetOf(w, i) != TargetOf(w, j))
  }

  ghost predicate RoomsShaped(w: World) { forall d :: d in w.rooms ==> RoomShaped(w.rooms[d]) }

  ghost predicate Shaped(w: World) { RoomsShaped(w) && PointersLand(w) && Ordered(w) }

  /** Rows stay, pointers stay, logs only grow. */
  ghost predicate Extends(w: World, x: World)
  {
    forall d ::
      && (RowAt(w, d).Some? ==> RowAt(x, d).Some?)
      && (PointerAt(w, d).Some? ==> PointerAt(x, d) == PointerAt(w, d))
      && HistAt(w, d) <= HistAt(x, d)
  }

  ghost predicate RoomStays(was: Room, room: Room)
  {
    (was.row.Some? ==> room.row.Some?) && PointerOf(room.row) == PointerOf(was.row) && was.hist <= room.hist
  }

  lemma {:induction false} PutExtends(w: World, d: DocId, room: Room)
    requires RoomStays(RoomAt(w, d), room)
    ensures Extends(w, Put(w, d, room))
    ensures forall e :: PointerAt(Put(w, d, room), e) == PointerAt(w, e)
    ensures forall i :: 0 <= i < |w.order| ==> TargetOf(Put(w, d, room), i) == TargetOf(w, i)
  {
  }

  /** A step within one room. */
  lemma {:induction false} PutShaped(w: World, d: DocId, room: Room)
    requires Shaped(w) && RoomShaped(room) && RoomStays(RoomAt(w, d), room)
    ensures Shaped(Put(w, d, room)) && Extends(w, Put(w, d, room))
  {
    PutExtends(w, d, room);
  }

  /** The rooms a rotation leaves: one that points, and one it points at that had no row. */
  ghost predicate Moving(w: World, d: DocId, room: Room, f: ClientFrame)
  {
    && f.Rotate? && f.target != d && RowAt(w, f.target) == None && PointerAt(w, d) == None
    && room.hist == HistAt(w, d) && PointerOf(room.row) == Some(Pointer(f.target, f.note))
  }

  function HandedOver(w: World, d: DocId, room: Room, f: ClientFrame, drawn: string): World
    requires f.Rotate?
  {
    World(w.rooms[d := room][f.target := Seeded(RoomAt(w, f.target), f.payload, drawn)], w.order + [d])
  }

  lemma {:induction false} MovingRooms(w: World, d: DocId, room: Room, f: ClientFrame, drawn: string)
    requires Shaped(w) && Moving(w, d, room, f) && RoomShaped(room) && drawn != ""
    ensures var x := HandedOver(w, d, room, f, drawn); RoomsShaped(x) && Extends(w, x)
  {
    var x := HandedOver(w, d, room, f, drawn);
    assert RoomShaped(EMPTY_ROOM);
    assert RoomShaped(RoomAt(w, f.target));
    SeededShaped(RoomAt(w, f.target), f.payload, drawn);
    assert HistAt(w, f.target) == [];
  }

  lemma {:induction false} MovingTargets(w: World, d: DocId, x: World, t: DocId)
    requires Shaped(w) && x.order == w.order + [d] && t != d
    requires PointerAt(w, d) == None && RowAt(w, t) == None
    requires forall e :: e != d ==> PointerAt(x, e) == PointerAt(w, e)
    requires PointerAt(x, d).Some? && PointerAt(x, d).value.target == t
    ensures TargetOf(x, |w.order|) == t
    ensures forall i :: 0 <= i < |w.order| ==>
      x.order[i] == w.order[i] && x.order[i] != d && x.order[i] != t && TargetOf(x, i) == TargetOf(w, i) && TargetOf(x, i) != t
  {
    forall i | 0 <= i < |w.order|
      ensures x.order[i] == w.order[i] && x.order[i] != d && x.order[i] != t && TargetOf(x, i) == TargetOf(w, i) && TargetOf(x, i) != t
    {
      assert x.order[i] == w.order[i] && w.order[i] in w.order && PointerAt(w, w.order[i]).Some?;
      assert RowAt(w, TargetOf(w, i)).Some?;
    }
  }

  lemma {:induction false} MovingOrders(w: World, d: DocId, x: World, t: DocId)
    requires Shaped(w) && x.order == w.order + [d] && t != d
    requires PointerAt(w, d) == None && RowAt(w, t) == None
    requires forall e :: e != d ==> PointerAt(x, e) == PointerAt(w, e)
    requires PointerAt(x, d).Some? && PointerAt(x, d).value.target == t
    ensures Ordered(x)
  {
    var n := |w.order|;
    MovingTargets(w, d, x, t);
    forall e ensures e in x.order <==> PointerAt(x, e).Some? {
      if e != d { assert e in x.order <==> e in w.order; } else { assert x.order[n] == d; }
    }
  }

  lemma {:induction false} HandedOverShaped(w: World, d: DocId, room: Room, f: ClientFrame, drawn: string)
    requires Shaped(w) && Moving(w, d, room, f) && RoomShaped(room) && drawn != ""
    ensures var x := HandedOver(w, d, room, f, drawn); Shaped(x) && Extends(w, x)
  {
    var x := HandedOver(w, d, room, f, drawn);
    MovingRooms(w, d, room, f, drawn);
    MovingOrders(w, d, x, f.target);
    forall e | PointerAt(x, e).Some? ensures RowAt(x, PointerAt(x, e).value.target).Some? {
      if e != d { assert PointerAt(x, e) == PointerAt(w, e); }
    }
  }

  /** A rotation the hub takes is to another document without a row, from one that has not moved. */
  lemma {:induction false} TakenMoves(w: World, d: DocId, room: Room, ans: Answer, f: ClientFrame, followers: set<nat>, sender: Sender, drawn: string)
    requires ans == Handle(d, RowAt(w, d), followers, sender, TargetRow(w, f), drawn, f)
    requires room.row == ans.row
    requires room.hist == if ans.logged.Some? then HistAt(w, d) + [ans.logged.value.edits] else HistAt(w, d)
    ensures ans.seeded.Some? ==> f.Rotate? && ans.seeded.value == f.payload && Moving(w, d, room, f)
    ensures ans.seeded.None? ==> RoomStays(RoomAt(w, d), room) && (PointerAt(w, d).Some? ==> ans.logged == None)
  {
  }

  /** The hub's answer to one frame, wherever it came from. */
  lemma {:induction false} RotatedShaped(w: World, d: DocId, room: Room, ans: Answer, f: ClientFrame, followers: set<nat>, sender: Sender, drawn: string)
    requires Shaped(w) && RoomShaped(room) && drawn != ""
    requires ans == Handle(d, RowAt(w, d), followers, sender, TargetRow(w, f), drawn, f)
    requires room.row == ans.row
    requires room.hist == if ans.logged.Some? then HistAt(w, d) + [ans.logged.value.edits] else HistAt(w, d)
    ensures Shaped(Rotated(w, d, room, ans, f, drawn)) && Extends(w, Rotated(w, d, room, ans, f, drawn))
  {
    TakenMoves(w, d, room, ans, f, followers, sender, drawn);
    if ans.seeded.Some? {
      HandedOverShaped(w, d, room, f, drawn);
    } else {
      PutShaped(w, d, room);
    }
  }

  lemma {:induction false} FrameShaped(d: DocId, room: Room, sender: Sender, target: Option<Row>, drawn: string)
    requires RoomShaped(room) && sender.tag in room.links && room.links[sender.tag].s.up != [] && drawn != ""
    ensures RoomShaped(WithFrame(d, room, sender, target, drawn))
  {
    var l := room.links[sender.tag];
    var links := room.links[sender.tag := Taken(l)];
    assert LinkShaped(Taken(l), TruthOf(room));
    AnsweredShaped(d, room, links, Followers(room.links), sender, target, drawn, l.s.up[0]);
  }

  lemma {:induction false} OrphanShaped(d: DocId, room: Room, i: nat, sender: Sender, target: Option<Row>, drawn: string)
    requires RoomShaped(room) && i < |room.orphans| && drawn != ""
    ensures RoomShaped(WithOrphan(d, room, i, sender, target, drawn))
  {
    AnsweredShaped(d, room, room.links, Followers(room.links) + {sender.tag}, sender, target, drawn, room.orphans[i]);
  }

  lemma {:induction false} ReceivedShaped(w: World, d: DocId, sender: Sender, drawn: string)
    requires Shaped(w)
    ensures var x := Do(w, Receive(d, sender, drawn)); Shaped(x) && Extends(w, x)
  {
    var room := RoomAt(w, d);
    if sender.tag in room.links && room.links[sender.tag].s.up != [] && drawn != "" {
      var f := room.links[sender.tag].s.up[0];
      FrameShaped(d, room, sender, TargetRow(w, f), drawn);
      RotatedShaped(w, d, WithFrame(d, room, sender, TargetRow(w, f), drawn),
                    AnswerTo(d, room, sender, TargetRow(w, f), drawn), f, Followers(room.links), sender, drawn);
    }
  }

  lemma {:induction false} LateShaped(w: World, d: DocId, sender: Sender, drawn: string, i: nat)
    requires Shaped(w)
    ensures var x := Do(w, ReceiveLate(d, sender, drawn, i)); Shaped(x) && Extends(w, x)
  {
    var room := RoomAt(w, d);
    if i < |room.orphans| && sender.tag !in room.links && drawn != "" {
      var f := room.orphans[i];
      OrphanShaped(d, room, i, sender, TargetRow(w, f), drawn);
      RotatedShaped(w, d, WithOrphan(d, room, i, sender, TargetRow(w, f), drawn),
                    OrphanAnswer(d, room, i, sender, TargetRow(w, f), drawn), f,
                    Followers(room.links) + {sender.tag}, sender, drawn);
    }
  }

  lemma {:induction false} SteppingRow(room: Room, step: Step)
    ensures var r := Stepping(room, step); r.row == room.row && r.hist == room.hist && r.name == room.name
  {
  }

  lemma {:induction false} ActsShaped(room: Room, step: Step)
    requires RoomShaped(room)
    ensures RoomShaped(Stepping(room, step)) && RoomStays(room, Stepping(room, step)) && Stepping(room, step).hist == room.hist
  {
    SteppingRow(room, step);
    match step
    case Reopen(_, sid, knownSeq, before, missed) => ReopenedRoom(room, before, sid, knownSeq, missed);
    case Client(_, sid, act) => ActedRoom(room, sid, act);
    case Open(_, sid, knownSeq, connected) => OpenedRoom(room, sid, knownSeq, connected);
    case Drop(_, sid) => CutRoom(room, sid);
    case Cut(_, sid) => CutRoom(room, sid);
    case _ =>
  }

  lemma {:induction false} OpenedRoom(room: Room, sid: nat, knownSeq: nat, connected: bool)
    requires RoomShaped(room)
    ensures RoomShaped(WithSession(room, sid, knownSeq, connected))
  {
  }

  lemma {:induction false} CutRoom(room: Room, sid: nat)
    requires RoomShaped(room)
    ensures RoomShaped(WithDrop(room, sid)) && RoomShaped(WithCut(room, sid))
  {
  }

  lemma {:induction false} DoShaped(w: World, step: Step)
    requires Shaped(w)
    ensures Shaped(Do(w, step)) && Extends(w, Do(w, step))
  {
    var d := step.doc;
    var room := RoomAt(w, d);
    match step
    case Receive(_, sender, drawn) => ReceivedShaped(w, d, sender, drawn);
    case ReceiveLate(_, sender, drawn, i) => LateShaped(w, d, sender, drawn, i);
    case _ =>
      assert RoomShaped(room);
      ActsShaped(room, step);
      PutShaped(w, d, Stepping(room, step));
  }

  lemma {:induction false} RunShaped(w: World, steps: seq<Step>)
    requires Shaped(w)
    ensures Shaped(Run(w, steps)) && Extends(w, Run(w, steps))
  {
    if steps != [] {
      var x := Run(w, steps[..|steps| - 1]);
      RunShaped(w, steps[..|steps| - 1]);
      DoShaped(x, steps[|steps| - 1]);
      ExtendsTransitive(w, x, Run(w, steps));
    }
  }

  lemma {:induction false} ExtendsTransitive(w: World, x: World, y: World)
    requires Extends(w, x) && Extends(x, y)
    ensures Extends(w, y)
  {
    forall d ensures HistAt(w, d) <= HistAt(y, d) {
      assert HistAt(w, d) <= HistAt(x, d) <= HistAt(y, d);
    }
  }
}
