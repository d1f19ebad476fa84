/** What holds in every state a run of the hub and its sessions can reach, from a channel with no documents. */
module LiveRuns {
  import opened Common
  import opened Updates
  import opened Payloads
  import opened Rows
  import opened Docs
  import opened Sessions
  import opened Streams
  import opened SessionProofs
  import opened Links
  import opened AnyFrames
  import opened Rooms
  import opened World
  import opened WorldProofs

  /** By any run. */
  ghost predicate Reachable(w: World) { exists steps :: w == Run(EMPTY_WORLD, steps) }

  /** By a run that opens a document again only on a clear socket, as that of a session closed at rest is. */
  ghost predicate Heeded(w: World) { exists steps :: AllHeed(EMPTY_WORLD, steps) && w == Run(EMPTY_WORLD, steps) }

  lemma {:induction false} ReachableShaped(w: World)
    requires Reachable(w)
    ensures Shaped(w)
  {
    var steps :| w == Run(EMPTY_WORLD, steps);
    RunShaped(EMPTY_WORLD, steps);
  }

  lemma {:induction false} EmptyOk()
    ensures WorldOk(EMPTY_WORLD)
  {
  }

  lemma {:induction false} HeededOk(w: World)
    requires Heeded(w)
    ensures WorldOk(w)
  {
    var steps :| AllHeed(EMPTY_WORLD, steps) && w == Run(EMPTY_WORLD, steps);
    EmptyOk();
    RunOk(EMPTY_WORLD, steps);
  }

  lemma {:induction false} ReachableLink(w: World, d: DocId, sid: nat)
    requires Reachable(w) && sid in RoomAt(w, d).links
    ensures LinkShaped(RoomAt(w, d).links[sid], TruthOf(RoomAt(w, d)))
  {
    ReachableShaped(w);
    assert RoomShaped(w.rooms[d]);
  }

  lemma {:induction false} HeededLink(w: World, d: DocId, sid: nat)
    requires Heeded(w) && sid in RoomAt(w, d).links
    ensures LinkOk(RoomAt(w, d).links[sid], TruthOf(RoomAt(w, d)))
  {
    HeededOk(w);
    assert RoomOk(w.rooms[d]);
  }

  /** Runs whose reopened documents were closed at rest reach no other worlds. */
  lemma {:induction false} RestedIsHeeded(steps: seq<Step>)
    requires AllRested(EMPTY_WORLD, steps)
    ensures Heeded(Run(EMPTY_WORLD, steps))
  {
    EmptyOk();
    RestedRunHeeds(EMPTY_WORLD, steps);
  }

  function SessionAt(w: World, d: DocId, sid: nat): Session
    requires sid in RoomAt(w, d).links
  {
    RoomAt(w, d).links[sid].s
  }

  lemma {:induction false} GoodIsRoom(s: Session, t: Truth)
    requires Good(s, t)
    ensures s.log.at <= |t.hist| && s.doc == Union(t.hist[..s.log.at]) + s.box.Outstanding()
    ensures s.Settled() ==> s.box.Outstanding() == {}
    ensures forall a :: a in s.agreed ==> a.at <= |t.hist| && a.content == Union(t.hist[..a.at])
  {
  }

  /**
   * A session's document is the room's log up to where it stands plus the edits it still waits on; with none waiting
   * it is the room itself, and so is everything it ever reported as agreed.
   */
  lemma {:induction false} SessionIsRoom(w: World, d: DocId, sid: nat)
    requires Heeded(w) && sid in RoomAt(w, d).links
    ensures var s := SessionAt(w, d, sid);
      && s.log.at <= |HistAt(w, d)|
      && s.doc == Union(HistAt(w, d)[..s.log.at]) + s.box.Outstanding()
      && (s.Settled() ==> s.doc == Union(HistAt(w, d)[..s.log.at]))
      && forall a :: a in s.agreed ==> a.at <= |HistAt(w, d)| && a.content == Union(HistAt(w, d)[..a.at])
  {
    var room := RoomAt(w, d);
    HeededLink(w, d, sid);
    GoodIsRoom(room.links[sid].s, TruthOf(room));
  }

  /** Two settled sessions that stand at one seq hold one text. */
  lemma {:induction false} SettledAgree(w: World, d: DocId, a: nat, b: nat)
    requires Heeded(w) && a in RoomAt(w, d).links && b in RoomAt(w, d).links
    requires SessionAt(w, d, a).Settled() && SessionAt(w, d, b).Settled()
    requires SessionAt(w, d, a).log.at == SessionAt(w, d, b).log.at
    ensures SessionAt(w, d, a).doc == SessionAt(w, d, b).doc
  {
    SessionIsRoom(w, d, a);
    SessionIsRoom(w, d, b);
  }

  /** Once it has read what is under way, a joined session the hub still serves stands at the head of the log. */
  lemma {:induction false} CaughtUp(w: World, d: DocId, sid: nat)
    requires Heeded(w) && sid in RoomAt(w, d).links
    requires var l := RoomAt(w, d).links[sid]; l.follows && l.down == [] && l.s.joined && !l.s.disposed
    ensures var s := SessionAt(w, d, sid); s.log.at == |HistAt(w, d)| && s.doc == Union(HistAt(w, d)) + s.box.Outstanding()
  {
    HeededLink(w, d, sid);
    assert HistAt(w, d)[..|HistAt(w, d)|] == HistAt(w, d);
  }

  /** A healthy room never looks like one that lost its log. */
  lemma {:induction false} NeverLost(w: World, d: DocId, sid: nat)
    requires Reachable(w) && sid in RoomAt(w, d).links
    requires var l := RoomAt(w, d).links[sid]; !l.s.disposed && l.down != [] && l.down[0].State?
    ensures var l := RoomAt(w, d).links[sid]; !l.s.log.Lost(l.down[0].head, l.down[0].log) && l.s.log.left == None
  {
    ReachableLink(w, d, sid);
    NotLost(RoomAt(w, d).links[sid], TruthOf(RoomAt(w, d)));
  }

  /** An edit that waits on nothing armed does not exist: a flush, a timeout or the next State will carry it. */
  lemma {:induction false} NothingStranded(w: World, d: DocId, sid: nat)
    requires Reachable(w) && sid in RoomAt(w, d).links
    requires var s := SessionAt(w, d, sid); s.online && !s.disposed && !s.box.Idle()
    ensures var b := SessionAt(w, d, sid).box; b.timer || b.flushes > 0 || b.ackTimer || b.timeouts > 0
  {
    ReachableLink(w, d, sid);
  }

  /** Nothing is on its way to the session, and nothing of its own is due to be sent again. */
  predicate Quiesced(l: Link)
  {
    && l.follows && l.down == [] && l.s.online && !l.s.disposed
    && !l.s.box.timer && l.s.box.flushes == 0 && !l.s.box.ackTimer && l.s.box.timeouts == 0
  }

  /** A session with nothing under way and nothing due waits on no edit and holds the whole log. */
  lemma {:induction false} QuiescedIsRoom(w: World, d: DocId, sid: nat)
    requires Heeded(w) && sid in RoomAt(w, d).links && Quiesced(RoomAt(w, d).links[sid])
    ensures var s := SessionAt(w, d, sid); s.box.Idle() && s.log.at == |HistAt(w, d)| && s.doc == Union(HistAt(w, d))
  {
    HeededLink(w, d, sid);
    if !SessionAt(w, d, sid).box.Idle() { NothingStranded(w, d, sid); }
    CaughtUp(w, d, sid);
  }

  /** So any two such sessions of a document hold one text, whatever run led there. */
  lemma {:induction false} Converges(w: World, d: DocId, a: nat, b: nat)
    requires Heeded(w) && a in RoomAt(w, d).links && b in RoomAt(w, d).links
    requires Quiesced(RoomAt(w, d).links[a]) && Quiesced(RoomAt(w, d).links[b])
    ensures SessionAt(w, d, a).doc == SessionAt(w, d, b).doc
  {
    QuiescedIsRoom(w, d, a);
    QuiescedIsRoom(w, d, b);
  }

  // ---- no edit is taken back

  lemma {:induction false} SendKeepsDoc(s: Session, u: Option<Update>, leads: bool)
    ensures s.SendMaybe(u).doc == s.doc && s.Settle(leads).doc == s.doc && s.GoOnline().doc == s.doc
  {
  }

  lemma {:induction false} JoinKeepsDoc(q: Session, disk: Disk, leads: bool)
    ensures var t := if q.joined then q else q.Reconciled(disk);
      q.doc <= (if t.online then t.(rotating := false) else t.GoOnline()).Settle(leads).doc
  {
    var t := if q.joined then q else q.Reconciled(disk);
    SendKeepsDoc(t, None, leads);
    SendKeepsDoc(if t.online then t.(rotating := false) else t.GoOnline(), None, leads);
  }

  lemma {:induction false} StateKeepsDoc(s: Session, f: ServerFrame, disk: Disk, leads: bool)
    requires f.State?
    ensures s.doc <= s.OnState(f.head, f.snapshot, f.deltas, f.log, disk, leads).doc
  {
    var q := s.Caught(f.head, f.snapshot, f.deltas, f.log);
    assert q.OfferSeed(disk).doc == q.doc;
    JoinKeepsDoc(q, disk, leads);
  }

  lemma {:induction false} EchoKeepsDoc(s: Session, at: nat, n: nat, leads: bool)
    ensures s.doc <= s.OnEcho(at, n, leads).doc
  {
    var q := s.(log := s.log.(at := at));
    if s.joined {
      var (b, dropped) := s.box.Ack(n);
      SendKeepsDoc(q.(box := b), dropped, leads);
      SendKeepsDoc(q.(box := b).SendMaybe(dropped), None, leads);
    } else if s.seed.Some? {
      var j := q.(doc := s.doc + s.seed.value, seed := None, joined := true);
      SendKeepsDoc(j, None, leads);
      SendKeepsDoc(j.GoOnline(), None, leads);
    } else {
      SendKeepsDoc(q, None, leads);
    }
  }

  lemma {:induction false} HandleKeepsDoc(s: Session, f: ServerFrame, disk: Disk, leads: bool)
    ensures s.doc <= s.Handle(f, disk, leads).doc
  {
    match f
    case State(_, _, _, _) => StateKeepsDoc(s, f, disk, leads);
    case Echo(at, n) => EchoKeepsDoc(s, at, n, leads);
    case Fanout(at, _, payload) =>
      SendKeepsDoc(s.(doc := s.doc + payload.edits, log := s.log.(at := at)), None, leads);
    case _ =>
  }

  lemma {:induction false} FlushKeepsDoc(s: Session, leads: bool)
    ensures s.doc <= Acted(s, Flush(leads)).doc
  {
    var (b, merged) := s.box.FlushStarted().TakePending();
    SendKeepsDoc(s.(box := b), merged, leads);
  }

  lemma {:induction false} TimeoutKeepsDoc(s: Session)
    ensures s.doc <= Acted(s, Timeout).doc
  {
    var (b, all) := s.box.TimeoutStarted().TakeUnacked();
    SendKeepsDoc(s.(box := b), all, false);
  }

  lemma {:induction false} DisposeKeepsDoc(s: Session)
    ensures s.doc <= Acted(s, Dispose).doc
  {
    if !s.disposed {
      var drained := s.(doc := s.doc + Union(s.box.staged), box := s.box.Drained());
      var (b, rest) := drained.box.StopTimers().TakePending();
      SendKeepsDoc(drained.(disposed := true, rotating := false, box := b), rest, false);
    }
  }

  lemma {:induction false} ActedKeepsDoc(s: Session, a: Act)
    ensures s.doc <= Acted(s, a).doc
  {
    match a
    case Flush(leads) => FlushKeepsDoc(s, leads);
    case Timeout => TimeoutKeepsDoc(s);
    case Dispose => DisposeKeepsDoc(s);
    case _ =>
  }

  lemma {:induction false} StepKeepsDoc(l: Link, a: Act)
    ensures l.s.doc <= Stepped(l, a).s.doc
  {
    if a.Read? {
      if l.down != [] { HandleKeepsDoc(l.s, l.down[0], a.disk, a.leads); }
    } else if !a.Socket? {
      ActedKeepsDoc(l.s, a);
    }
  }

  /** The hub's answers leave every document alone. */
  lemma {:induction false} FrameKeepsDocs(doc: DocId, room: Room, sender: Sender, target: Option<Row>, drawn: string, k: nat)
    requires sender.tag in room.links && room.links[sender.tag].s.up != [] && k in room.links
    ensures var r := WithFrame(doc, room, sender, target, drawn); k in r.links && r.links[k].s.doc == room.links[k].s.doc
  {
  }

  lemma {:induction false} LateKeepsDocs(doc: DocId, room: Room, i: nat, sender: Sender, target: Option<Row>, drawn: string, k: nat)
    requires i < |room.orphans| && k in room.links
    ensures var r := WithOrphan(doc, room, i, sender, target, drawn); k in r.links && r.links[k].s.doc == room.links[k].s.doc
  {
  }

  lemma {:induction false} RotatedKeepsDocs(w: World, d: DocId, room: Room, ans: Answer, f: ClientFrame, drawn: string, e: DocId, k: nat)
    requires k in RoomAt(w, e).links && (ans.seeded.Some? && f.Rotate? ==> f.target != d)
    requires e == d ==> k in room.links && room.links[k].s.doc == RoomAt(w, d).links[k].s.doc
    ensures var x := Rotated(w, d, room, ans, f, drawn); k in RoomAt(x, e).links && SessionAt(x, e, k).doc == SessionAt(w, e, k).doc
  {
  }

  lemma {:induction false} ReceiveKeepsDoc(w: World, e: DocId, sender: Sender, drawn: string, d: DocId, sid: nat)
    requires sid in RoomAt(w, d).links
    ensures var x := Do(w, Receive(e, sender, drawn)); sid in RoomAt(x, d).links && SessionAt(x, d, sid).doc == SessionAt(w, d, sid).doc
  {
    var room := RoomAt(w, e);
    if sender.tag in room.links && room.links[sender.tag].s.up != [] {
      var f := room.links[sender.tag].s.up[0];
      if e == d { FrameKeepsDocs(e, room, sender, TargetRow(w, f), drawn, sid); }
      RotatedKeepsDocs(w, e, WithFrame(e, room, sender, TargetRow(w, f), drawn),
                       AnswerTo(e, room, sender, TargetRow(w, f), drawn), f, drawn, d, sid);
    }
  }

  lemma {:induction false} LateKeepsDoc(w: World, e: DocId, sender: Sender, drawn: string, i: nat, d: DocId, sid: nat)
    requires sid in RoomAt(w, d).links
    ensures var x := Do(w, ReceiveLate(e, sender, drawn, i)); sid in RoomAt(x, d).links && SessionAt(x, d, sid).doc == SessionAt(w, d, sid).doc
  {
    var room := RoomAt(w, e);
    if i < |room.orphans| {
      var f := room.orphans[i];
      if e == d { LateKeepsDocs(e, room, i, sender, TargetRow(w, f), drawn, sid); }
      RotatedKeepsDocs(w, e, WithOrphan(e, room, i, sender, TargetRow(w, f), drawn),
                       OrphanAnswer(e, room, i, sender, TargetRow(w, f), drawn), f, drawn, d, sid);
    }
  }

  lemma {:induction false} DoKeepsDoc(w: World, step: Step, d: DocId, sid: nat)
    requires sid in RoomAt(w, d).links
    ensures sid in RoomAt(Do(w, step), d).links && SessionAt(w, d, sid).doc <= SessionAt(Do(w, step), d, sid).doc
  {
    if step.Receive? {
      ReceiveKeepsDoc(w, step.doc, step.sender, step.drawn, d, sid);
    } else if step.ReceiveLate? {
      LateKeepsDoc(w, step.doc, step.sender, step.drawn, step.i, d, sid);
    } else if step.Client? && step.doc == d && step.sid == sid {
      StepKeepsDoc(RoomAt(w, d).links[sid], step.act);
    }
  }

  lemma {:induction false} RunKeepsDoc(w: World, steps: seq<Step>, d: DocId, sid: nat)
    requires sid in RoomAt(w, d).links
    ensures sid in RoomAt(Run(w, steps), d).links && SessionAt(w, d, sid).doc <= SessionAt(Run(w, steps), d, sid).doc
  {
    if steps != [] {
      var front := steps[..|steps| - 1];
      RunKeepsDoc(w, front, d, sid);
      DoKeepsDoc(Run(w, front), steps[|steps| - 1], d, sid);
    }
  }

  lemma {:induction false} RunJoins(w: World, a: seq<Step>, b: seq<Step>)
    ensures Run(w, a + b) == Run(Run(w, a), b)
  {
    if b == [] {
      assert a + b == a;
    } else {
      assert (a + b)[..|a + b| - 1] == a + b[..|b| - 1];
      RunJoins(w, a, b[..|b| - 1]);
    }
  }

  lemma {:induction false} HeedJoins(w: World, a: seq<Step>, b: seq<Step>)
    requires AllHeed(w, a) && AllHeed(Run(w, a), b)
    ensures AllHeed(w, a + b)
  {
    if b == [] {
      assert a + b == a;
    } else {
      assert (a + b)[..|a + b| - 1] == a + b[..|b| - 1];
      RunJoins(w, a, b[..|b| - 1]);
      HeedJoins(w, a, b[..|b| - 1]);
    }
  }

  lemma {:induction false} RunStaysHeeded(w: World, steps: seq<Step>)
    requires Heeded(w) && AllHeed(w, steps)
    ensures Heeded(Run(w, steps))
  {
    var before :| AllHeed(EMPTY_WORLD, before) && w == Run(EMPTY_WORLD, before);
    RunJoins(EMPTY_WORLD, before, steps);
    HeedJoins(EMPTY_WORLD, before, steps);
  }

  /** An edit once in a session's document is, however the run goes on, in the room's log or still on its way out. */
  lemma {:induction false} EditSurvives(w: World, steps: seq<Step>, d: DocId, sid: nat, e: Edit)
    requires Heeded(w) && AllHeed(w, steps) && sid in RoomAt(w, d).links && e in SessionAt(w, d, sid).doc
    ensures var x := Run(w, steps);
      && sid in RoomAt(x, d).links
      && (e in Union(HistAt(x, d)[..Min(SessionAt(x, d, sid).log.at, |HistAt(x, d)|)]) || e in SessionAt(x, d, sid).box.Outstanding())
  {
    RunStaysHeeded(w, steps);
    RunKeepsDoc(w, steps, d, sid);
    SessionIsRoom(Run(w, steps), d, sid);
  }

  // ---- pointers

  function IndexIn(d: DocId, order: seq<DocId>): (k: nat)
    requires d in order
    ensures k < |order| && order[k] == d
  {
    if order[0] == d then 0 else 1 + IndexIn(d, order[1..])
  }

  /** How many moves are left to follow at most. */
  ghost function MovesLeft(w: World, d: DocId): nat
  {
    if d in w.order then |w.order| - IndexIn(d, w.order) else 0
  }

  lemma {:induction false} MovesLeftDrops(w: World, d: DocId)
    requires Shaped(w) && PointerAt(w, d).Some?
    ensures MovesLeft(w, PointerAt(w, d).value.target) < MovesLeft(w, d)
  {
    var k := IndexIn(d, w.order);
    var t := PointerAt(w, d).value.target;
    assert TargetOf(w, k) == t;
    if t in w.order {
      var j := IndexIn(t, w.order);
      assert j > k;
    }
  }

  /** Where a document's notes are now. */
  ghost function Follow(w: World, d: DocId): (r: DocId)
    requires WorldOk(w)
    ensures PointerAt(w, r) == None
    ensures Union(HistAt(w, d)) <= Union(HistAt(w, r))
    ensures RowAt(w, d).Some? ==> RowAt(w, r).Some?
    decreases MovesLeft(w, d)
  {
    if PointerAt(w, d).None? then d
    else
      MovesLeftDrops(w, d);
      Follow(w, PointerAt(w, d).value.target)
  }

  function Hops(w: World, d: DocId, k: nat): DocId
    decreases k
  {
    if k == 0 || PointerAt(w, d).None? then d else Hops(w, PointerAt(w, d).value.target, k - 1)
  }

  lemma {:induction false} HopsDrop(w: World, d: DocId, k: nat)
    requires Shaped(w)
    ensures MovesLeft(w, Hops(w, d, k)) <= MovesLeft(w, d)
    ensures k > 0 && PointerAt(w, d).Some? ==> MovesLeft(w, Hops(w, d, k)) < MovesLeft(w, d)
    decreases k
  {
    if k > 0 && PointerAt(w, d).Some? {
      MovesLeftDrops(w, d);
      HopsDrop(w, PointerAt(w, d).value.target, k - 1);
    }
  }

  /** No run makes a pointer cycle, and no room is the target of two pointers. */
  lemma {:induction false} PointersAreChains(w: World)
    requires Reachable(w)
    ensures forall d, k: nat :: k > 0 && PointerAt(w, d).Some? ==> Hops(w, d, k) != d
    ensures forall d, e :: PointerAt(w, d).Some? && PointerAt(w, e).Some? && d != e ==>
              PointerAt(w, d).value.target != PointerAt(w, e).value.target
  {
    ReachableShaped(w);
    forall d, k: nat | k > 0 && PointerAt(w, d).Some? ensures Hops(w, d, k) != d {
      HopsDrop(w, d, k);
    }
    forall d, e | PointerAt(w, d).Some? && PointerAt(w, e).Some? && d != e
      ensures PointerAt(w, d).value.target != PointerAt(w, e).value.target
    {
      var i, j := IndexIn(d, w.order), IndexIn(e, w.order);
      assert TargetOf(w, i) == PointerAt(w, d).value.target && TargetOf(w, j) == PointerAt(w, e).value.target;
    }
  }

  /** A room once moved keeps its pointer for good and never holds log again. */
  lemma {:induction false} MovedStaysEmpty(w: World, steps: seq<Step>, d: DocId)
    requires Reachable(w) && PointerAt(w, d).Some?
    ensures var x := Run(w, steps);
      PointerAt(x, d) == PointerAt(w, d) && Stored(RowAt(x, d).value) == {} && RowAt(x, d).value.Head() == 0
  {
    ReachableShaped(w);
    RunShaped(w, steps);
    assert RoomShaped(Run(w, steps).rooms[d]);
  }

  /**
   * An update the hub has logged, and so echoed, is never lost: whatever happens after, it is in the snapshot and
   * deltas stored for the room the document's pointers lead to.
   */
  lemma {:induction false} NothingLoggedIsLost(w: World, steps: seq<Step>, d: DocId, at: nat)
    requires Heeded(w) && AllHeed(w, steps) && at < |HistAt(w, d)|
    ensures var x := Run(w, steps);
      && WorldOk(x) && RowAt(x, Follow(x, d)).Some?
      && HistAt(w, d)[at] <= Stored(RowAt(x, Follow(x, d)).value)
  {
    HeededOk(w);
    RunOk(w, steps);
    var x := Run(w, steps);
    assert HistAt(w, d) <= HistAt(x, d);
    assert HistAt(x, d)[at] == HistAt(w, d)[at];
    UnionHolds(HistAt(x, d), at);
    assert RoomOk(x.rooms[d]);
    assert RowAt(x, d).Some?;
    var r := Follow(x, d);
    assert RoomOk(x.rooms[r]);
    StoredIsAll(RowAt(x, r).value, HistAt(x, r));
  }

  /** Every echo under way names an update of the log. */
  lemma {:induction false} EchoesAreLogged(w: World, d: DocId, sid: nat)
    requires Heeded(w) && sid in RoomAt(w, d).links
    requires var l := RoomAt(w, d).links[sid]; !l.s.disposed && l.down != [] && l.down[0].Echo?
    ensures var l := RoomAt(w, d).links[sid];
      && 0 < l.down[0].at <= |HistAt(w, d)|
      && (l.s.joined ==> HistAt(w, d)[l.down[0].at - 1] <= l.s.doc && Acks(l.s.box, l.down[0].n, HistAt(w, d)[l.down[0].at - 1]))
  {
    HeededLink(w, d, sid);
  }
}
