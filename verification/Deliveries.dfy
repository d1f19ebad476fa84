/**
 * What gets through: what a session puts on its socket and when, what the hub makes of it, and what a run of both
 * leaves in the log; and what no run of read-only sockets does.
 */
module Deliveries {
  import opened Common
  import opened Updates
  import opened Outboxes
  import opened Payloads
  import opened Rows
  import opened Docs
  import opened Answers
  import opened Sessions
  import opened Streams
  import opened SessionProofs
  import opened Flights
  import opened Links
  import opened Rooms
  import opened World
  import opened WorldProofs
  import opened LiveRuns
  import opened Reopenings

  // ---- what a session sends

  /** One frame more is on the socket: an update of exactly `u`, under a counter past all earlier ones, and it waits behind `kept`. */
  ghost predicate Ships(s: Session, r: Session, u: Update, kept: seq<Sent>)
  {
    && |r.up| == |s.up| + 1 && s.up <= r.up && r.online
    && var f := r.up[|s.up|];
    && f.Update? && f.payload.edits == u && f.n > s.box.sent && r.box.sent == f.n
    && r.box.unacked == kept + [Sent(f.n, u)]
  }

  /** Past the limit nothing goes out, and the session is offline; the update waits all the same. */
  ghost predicate Stalls(s: Session, r: Session, u: Update, kept: seq<Sent>)
  {
    && r.up == s.up && !r.online
    && |r.box.unacked| == |kept| + 1 && kept <= r.box.unacked
    && r.box.unacked[|kept|].update == u && r.box.unacked[|kept|].n > s.box.sent
  }

  ghost predicate ShipsIfFits(s: Session, r: Session, u: Update, kept: seq<Sent>)
  {
    if Sealed(u).size <= MAX_PAYLOAD_BYTES then Ships(s, r, u, kept) else Stalls(s, r, u, kept)
  }

  lemma {:induction false} SendShips(s: Session, u: Update)
    requires s.online && s.connected
    ensures ShipsIfFits(s, s.SendUpdate(u), u, s.box.unacked)
    ensures s.SendUpdate(u).box.pending == s.box.pending
  {
  }

  /** A due timeout puts all that was unacked on the socket again, as one. */
  lemma {:induction false} TimeoutShips(s: Session)
    requires s.box.timeouts > 0 && s.online && s.connected && !s.disposed && s.box.unacked != []
    ensures ShipsIfFits(s, Acted(s, Timeout), Union(UpdatesOf(s.box.unacked)), [])
  {
    assert |UpdatesOf(s.box.unacked)| > 0;
    var q := s.(box := s.box.TimeoutStarted().TakeUnacked().0);
    SendShips(q, Union(UpdatesOf(s.box.unacked)));
  }

  /** A due flush puts all that was pending on the socket; offline it only numbers it. */
  lemma {:induction false} FlushShips(s: Session, leads: bool)
    requires s.box.flushes > 0 && s.box.pending != []
    ensures var r := Acted(s, Flush(leads));
      && r.box.pending == []
      && (s.online && s.connected ==> ShipsIfFits(s, r, Union(s.box.pending), s.box.unacked))
      && (!s.online ==> Stalls(s, r, Union(s.box.pending), s.box.unacked))
  {
    var q := s.(box := s.box.FlushStarted().TakePending().0);
    if s.online && s.connected { SendShips(q, Union(s.box.pending)); }
  }

  /** Going online puts all that was unacked on the new socket, as one. */
  lemma {:induction false} OnlineShips(s: Session)
    requires s.connected
    ensures s.box.unacked == [] ==> s.GoOnline().up == s.up && s.GoOnline().online && s.GoOnline().box.unacked == []
    ensures s.box.unacked != [] ==> ShipsIfFits(s, s.GoOnline(), Union(UpdatesOf(s.box.unacked)), [])
  {
    if s.box.unacked != [] {
      assert |UpdatesOf(s.box.unacked)| > 0;
      SendShips(s.(online := true, box := s.box.TakeUnacked().0), Union(UpdatesOf(s.box.unacked)));
    }
  }

  lemma {:induction false} BusySettlesNothing(s: Session, leads: bool)
    requires s.box.unacked != []
    ensures s.Settle(leads) == s
  {
  }

  /** An echo of the update at `k` puts what was sent before it on the socket again, as one; of the first, nothing. */
  lemma {:induction false} EchoShips(s: Session, at: nat, k: nat, leads: bool)
    requires s.joined && s.online && s.connected && s.box.Valid() && 0 < k < |s.box.unacked|
    ensures ShipsIfFits(s, s.OnEcho(at, s.box.unacked[k].n, leads), Union(UpdatesOf(s.box.unacked[..k])), s.box.unacked[k + 1..])
  {
    AckAt(s.box, k);
    var u := Union(UpdatesOf(s.box.unacked[..k]));
    assert |UpdatesOf(s.box.unacked[..k])| > 0;
    var q := s.(log := s.log.(at := at), box := s.box.Ack(s.box.unacked[k].n).0);
    SendShips(q, u);
    BusySettlesNothing(q.SendUpdate(u), leads);
  }

  /** The first State read on a socket puts what earlier ones left unacked on it. */
  lemma {:induction false} StateShips(s: Session, f: ServerFrame, disk: Disk, leads: bool)
    requires f.State? && !s.log.Lost(f.head, f.log) && s.joined && !s.online && s.connected && s.box.unacked != []
    ensures ShipsIfFits(s, s.Handle(f, disk, leads), Union(UpdatesOf(s.box.unacked)), [])
  {
    var c := s.Caught(f.head, f.snapshot, f.deltas, f.log);
    OnlineShips(c);
    BusySettlesNothing(c.GoOnline(), leads);
  }

  /** A socket regained asks for the log from where the session stands; one lost carries nothing. */
  lemma {:induction false} SocketAsks(s: Session, now: bool)
    requires !s.disposed
    ensures s.ConnectionChanged(now).up == (if now then [Frames.Sub(s.log.at)] else []) && !s.ConnectionChanged(now).online
  {
  }

  /** Joined, open and where the note is, and nothing made here is still on its way. */
  ghost predicate AllIn(s: Session)
  {
    s.joined && !s.disposed && s.moved == None && s.box.staged == [] && s.box.pending == [] && s.box.unacked == []
  }

  /** With nothing outstanding and the log grown by 200 since the last one, the leader's snapshot of the document goes out. */
  lemma {:induction false} LeaderCompacts(s: Session)
    requires AllIn(s) && s.online && s.connected && s.log.at >= s.log.compacted + 200 && Sealed(s.doc).size <= MAX_PAYLOAD_BYTES
    ensures var r := s.Settle(true);
      && |r.up| == |s.up| + 1 && s.up <= r.up && r.up[|s.up|].Snapshot?
      && r.up[|s.up|].upto == s.log.at && r.up[|s.up|].payload.edits == s.doc && r.log.compacted == s.log.at
    ensures s.Settle(false).up == s.up
  {
  }

  /** Settled, the document is reported as the room's text there; otherwise nothing is. */
  lemma {:induction false} SettledReports(s: Session, leads: bool)
    ensures var r := s.Settle(leads);
      if AllIn(s) then
        |r.agreed| == |s.agreed| + 1 && s.agreed <= r.agreed && r.agreed[|s.agreed|].at == s.log.at && r.agreed[|s.agreed|].content == s.doc
      else r == s
  {
  }

  /** A rotation is asked for once at a time, by a session with nothing outstanding, with its whole document. */
  lemma {:induction false} RotationGoesOut(s: Session, target: Frames.DocId, note: bytes)
    requires s.connected && Sealed(s.doc).size <= MAX_PAYLOAD_BYTES
    ensures var r := s.AskRotation(target, note);
      if AllIn(s) && s.online && !s.rotating then
        && r.rotating && |r.up| == |s.up| + 1 && s.up <= r.up && r.up[|s.up|].Rotate?
        && r.up[|s.up|].target == target && r.up[|s.up|].note == note && r.up[|s.up|].upto == s.log.at && r.up[|s.up|].payload.edits == s.doc
      else r == s
  {
  }

  /** An Unsub is the last thing a closed session sends, after what was staged and pending if it is online. */
  lemma {:induction false} ClosingShips(s: Session)
    requires !s.disposed && s.connected
    ensures var r := s.Disposed();
      && s.up <= r.up && |r.up| > |s.up| && r.up[|r.up| - 1] == Frames.Unsub
      && (s.online && s.box.staged + s.box.pending != [] && Sealed(Union(s.box.pending + s.box.staged)).size <= MAX_PAYLOAD_BYTES ==>
            |r.up| == |s.up| + 2 && r.up[|s.up|].Update? && r.up[|s.up|].payload.edits == Union(s.box.pending) + Union(s.box.staged))
  {
    var (b, rest) := s.box.Drained().StopTimers().TakePending();
    var q := s.(doc := s.doc + Union(s.box.staged), disposed := true, rotating := false, box := b);
    assert s.Disposed() == q.SendMaybe(rest).Send(Frames.Unsub);
    DrainedPending(s.box);
    MaybePosts(q, rest);
  }

  lemma {:induction false} DrainedPending(box: Box)
    ensures var rest := box.Drained().StopTimers().TakePending().1; var all := Union(box.pending) + Union(box.staged);
      && Union(box.pending + box.staged) == all
      && rest == if box.staged + box.pending == [] then None else Some(all)
  {
    if box.staged == [] { assert box.pending + box.staged == box.pending; }
    UnionConcat(box.pending, box.staged);
  }

  lemma {:induction false} MaybePosts(s: Session, u: Option<Update>)
    requires s.connected
    ensures var r := s.SendMaybe(u).Send(Frames.Unsub);
      && s.up <= r.up && |r.up| > |s.up| && r.up[|r.up| - 1] == Frames.Unsub
      && (s.online && u.Some? && Sealed(u.value).size <= MAX_PAYLOAD_BYTES ==>
            |r.up| == |s.up| + 2 && r.up[|s.up|].Update? && r.up[|s.up|].payload.edits == u.value)
  {
    var q := s.SendMaybe(u);
    assert q.connected && s.up <= q.up;
  }

  // ---- edits, and what the disk brings

  /** Typed, an edit is in the document and waits with a flush armed. */
  lemma {:induction false} EditsWait(s: Session, u: Update)
    requires !s.disposed
    ensures var r := Acted(s, Edit(u)); r.doc == s.doc + u && r.box.pending == s.box.pending + [u] && r.box.timer && r.up == s.up
    ensures var r := Acted(s, Stage(u)); r.doc == s.doc && r.box.staged == s.box.staged + [u] && r.box.timer && r.up == s.up
  {
  }

  /** The flush brings it and all else that was staged or pending to the socket. */
  lemma {:induction false} FlushBringsAll(s: Session, leads: bool)
    requires s.box.timer && s.online && s.connected && s.box.pending + s.box.staged != []
    ensures var r := Acted(Acted(s, FlushFires), Flush(leads));
      && ShipsIfFits(s, r, Union(s.box.pending) + Union(s.box.staged), s.box.unacked)
      && r.doc == s.doc + Union(s.box.staged) && r.box.pending == [] && r.box.staged == []
  {
    if s.box.staged == [] { assert s.box.pending + s.box.staged == s.box.pending; }
    UnionConcat(s.box.pending, s.box.staged);
    FlushShips(Acted(s, FlushFires), leads);
  }

  /** An unanswered update is resent when its timer fires. */
  lemma {:induction false} TimerResends(s: Session)
    requires s.box.ackTimer && s.online && s.connected && !s.disposed && s.box.unacked != []
    ensures ShipsIfFits(s, Acted(Acted(s, AckFires), Timeout), Union(UpdatesOf(s.box.unacked)), [])
  {
    TimeoutShips(Acted(s, AckFires));
  }

  /** A version edited outside the room is folded in after what was staged, and waits like an edit. */
  lemma {:induction false} AbsorbedWaits(s: Session, u: Update)
    requires !s.disposed
    ensures var r := Acted(s, Absorb(Some(u)));
      && r.doc == s.doc + Union(s.box.staged) + u && r.box.staged == [] && r.box.timer
      && Union(r.box.pending) == Union(s.box.pending) + Union(s.box.staged) + u
  {
    UnionConcat(s.box.pending, s.box.staged);
    UnionConcat(s.box.pending + s.box.staged, [u]);
    if s.box.staged == [] { assert s.box.pending + s.box.staged == s.box.pending; }
  }

  // ---- joining

  /** A State of an empty room makes a session that has not joined offer the disk's text, as update 0. */
  lemma {:induction false} SeedGoesOut(s: Session, f: ServerFrame, disk: Disk, leads: bool)
    requires f.State? && f.head == 0 && f.snapshot == None && f.deltas == [] && !s.log.Lost(0, f.log)
    requires !s.joined && s.connected && Sealed(disk.seed).size <= MAX_PAYLOAD_BYTES
    ensures var r := s.Handle(f, disk, leads);
      && |r.up| == |s.up| + 1 && s.up <= r.up && r.up[|s.up|].Seed? && r.up[|s.up|].n == 0 && r.up[|s.up|].payload.edits == disk.seed
      && !r.joined && r.seed == Some(disk.seed) && r.doc == s.doc
  {
  }

  /** The Echo of its seed makes it join with that text, online. */
  lemma {:induction false} SeedJoins(s: Session, seed: Update, at: nat, n: nat, disk: Disk, leads: bool)
    requires !s.joined && s.seed == Some(seed) && s.connected && s.box.unacked == []
    ensures var r := s.Handle(Frames.Echo(at, n), disk, leads); r.joined && r.online && r.doc == s.doc + seed && r.log.at == at && r.seed == None
  {
  }

  /** A State of a room with a log makes it join there: the room's edits, and the disk's as pending ones, with no seed. */
  lemma {:induction false} StateJoins(s: Session, f: ServerFrame, disk: Disk, leads: bool)
    requires f.State? && f.head > 0 && !s.log.Lost(f.head, f.log) && !s.joined && s.connected && s.box.unacked == []
    ensures var r, room, own := s.Handle(f, disk, leads), StateEdits(f.snapshot, f.deltas), if disk.merged.Some? then [disk.merged.value] else [];
      && r.joined && r.online && r.seed == None && r.log.at == f.head
      && r.doc == s.doc + room + Union(own) && r.box.pending == s.box.pending + own && (own != [] ==> r.box.timer)
  {
    var c := s.Caught(f.head, f.snapshot, f.deltas, f.log);
    ReconciledTakes(c, disk);
    var t := c.Reconciled(disk);
    var q := if t.online then t.(rotating := false) else t.GoOnline();
    OnlineShips(t);
    SettleKeeps(q, leads);
  }

  lemma {:induction false} ReconciledTakes(s: Session, disk: Disk)
    ensures var r, own := s.Reconciled(disk), if disk.merged.Some? then [disk.merged.value] else [];
      && r.joined && r.seed == None && r.log == s.log && r.online == s.online && r.connected == s.connected && r.box.unacked == s.box.unacked
      && r.doc == s.doc + Union(own) && r.box.pending == s.box.pending + own && (own != [] ==> r.box.timer)
  {
    if disk.merged.Some? { UnionOne(disk.merged.value); }
  }

  lemma {:induction false} SettleKeeps(s: Session, leads: bool)
    ensures var r := s.Settle(leads);
      r.joined == s.joined && r.online == s.online && r.seed == s.seed && r.log.at == s.log.at && r.doc == s.doc && r.box == s.box
  {
  }

  // ---- moved, refused

  /** A Moved frame tells the session its new document; it settles nothing here any more. */
  lemma {:induction false} MovedIsKnown(s: Session, target: Frames.DocId, note: bytes, disk: Disk, leads: bool)
    ensures var r := s.Handle(Frames.Moved(target, note), disk, leads);
      && r.moved == Some(target) && r.doc == s.doc && r.box == s.box && r.up == s.up && !AllIn(r)
  {
  }

  /** Refused, a session keeps all it holds and sends no update until a State brings it online again. */
  lemma {:induction false} RefusedHolds(s: Session, reason: Frames.Refusal, disk: Disk, leads: bool, a: Act)
    requires a.Flush? || a.Timeout? || a.FlushFires? || a.AckFires? || a.Edit? || a.Stage?
    ensures var r := s.Handle(Frames.Refused(reason), disk, leads);
      && !r.online && r.doc == s.doc && r.box == s.box && r.up == s.up && Acted(r, a).up == s.up
  {
  }

  // ---- a log that was lost

  /** A State of another log, or of one that ends before this device knew it to: the session reads none of it and is offline. */
  lemma {:induction false} LostGoesOffline(s: Session, f: ServerFrame, disk: Disk, leads: bool)
    requires f.State?
    requires (f.log != "" && s.log.name.Some? && s.log.name.value != f.log) || f.head < s.log.at || f.head < s.log.knownSeq
    ensures var r := s.Handle(f, disk, leads);
      && r.doc == s.doc && r.log.at == s.log.at && r.box == s.box && r.up == s.up && r.agreed == s.agreed && !r.online
    ensures var r := s.Handle(f, disk, leads);
      forall at, from, payload :: r.Handle(Frames.Fanout(at, from, payload), disk, leads) == r
  {
  }

  // ---- what the hub makes of it

  /** An update at the front of a follower's socket is the log's next entry, unless the room moved or the socket may not write. */
  lemma {:induction false} FrontIsLogged(w: World, d: DocId, sender: Sender, drawn: string)
    requires sender.tag in RoomAt(w, d).links && !sender.readOnly && drawn != "" && PointerAt(w, d) == None
    requires var l := RoomAt(w, d).links[sender.tag]; l.follows && l.s.up != [] && l.s.up[0].Update?
    ensures var l, x := RoomAt(w, d).links[sender.tag], Do(w, Receive(d, sender, drawn));
      && HistAt(x, d) == HistAt(w, d) + [l.s.up[0].payload.edits]
      && sender.tag in RoomAt(x, d).links
      && RoomAt(x, d).links[sender.tag] == Told(Taken(l), Frames.Echo(HeadOf(RowAt(w, d)) + 1, l.s.up[0].n))
  {
    var room := RoomAt(w, d);
    var f := room.links[sender.tag].s.up[0];
    WritersAreLogged(d, room.row, Followers(room.links), sender, None, drawn, f);
  }

  // ---- resent, logged, and read back

  lemma {:induction false} OneStep(w: World, a: Step)
    ensures Run(w, [a]) == Do(w, a)
  {
    assert [a][..0] == [] && Run(w, []) == w;
  }

  lemma {:induction false} TwoSteps(w: World, a: Step, b: Step)
    ensures Run(w, [a, b]) == Do(Do(w, a), b)
  {
    OneStep(w, a);
    assert [a, b][..1] == [a];
  }

  /** The timer of an online session fired with something unacked. */
  ghost predicate Due(s: Session)
  {
    && s.box.timeouts > 0 && s.online && s.connected && !s.disposed && s.box.unacked != []
    && Sealed(Union(UpdatesOf(s.box.unacked))).size <= MAX_PAYLOAD_BYTES
  }

  /** What waited waits as one now, and its echo is the last frame under way. */
  ghost predicate Answered(l: Link, m: Link, at: nat)
  {
    && m.s.online && !m.s.disposed && m.s.connected && m.s.joined && m.follows
    && |m.s.box.unacked| == 1 && m.s.box.unacked[0].update == Union(UpdatesOf(l.s.box.unacked))
    && m.down == l.down + [Frames.Echo(at, m.s.box.unacked[0].n)]
  }

  lemma {:induction false} TimesOut(w: World, d: DocId, sid: nat)
    requires sid in RoomAt(w, d).links
    ensures var room, x := RoomAt(w, d), Do(w, Client(d, sid, Timeout));
      && RoomAt(x, d).links == room.links[sid := room.links[sid].(s := Acted(room.links[sid].s, Timeout))]
      && RoomAt(x, d).row == room.row && RoomAt(x, d).hist == room.hist
  {
  }

  lemma {:induction false} TimeoutKeeps(s: Session)
    ensures var r := Acted(s, Timeout); r.joined == s.joined && r.disposed == s.disposed && r.connected == s.connected
  {
  }

  /** A joined follower with an empty socket and a due timeout, on a socket that may write to a room that has not moved. */
  ghost predicate MayDeliver(w: World, d: DocId, sender: Sender, drawn: string)
  {
    && sender.tag in RoomAt(w, d).links && !sender.readOnly && drawn != "" && PointerAt(w, d) == None
    && var l := RoomAt(w, d).links[sender.tag];
       l.follows && l.s.up == [] && l.s.joined && Due(l.s)
  }

  function Delivery(d: DocId, sender: Sender, drawn: string): seq<Step>
  {
    [Client(d, sender.tag, Timeout), Receive(d, sender, drawn)]
  }

  lemma {:induction false} TimedOutSends(w: World, d: DocId, sid: nat)
    requires sid in RoomAt(w, d).links && Due(RoomAt(w, d).links[sid].s) && RoomAt(w, d).links[sid].s.up == []
    ensures var l, y := RoomAt(w, d).links[sid], Do(w, Client(d, sid, Timeout));
      var m := l.(s := Acted(l.s, Timeout));
      && sid in RoomAt(y, d).links && RoomAt(y, d).links[sid] == m && RowAt(y, d) == RowAt(w, d) && HistAt(y, d) == HistAt(w, d)
      && m.s.up != [] && m.s.up[0].Update? && m.s.up[0].payload.edits == Union(UpdatesOf(l.s.box.unacked))
  {
    TimesOut(w, d, sid);
    TimeoutShips(RoomAt(w, d).links[sid].s);
  }

  lemma {:induction false} ReceivedIsLogged(w: World, y: World, d: DocId, sender: Sender, drawn: string)
    requires MayDeliver(w, d, sender, drawn) && y == Do(w, Client(d, sender.tag, Timeout))
    ensures var l, x := RoomAt(w, d).links[sender.tag], Do(y, Receive(d, sender, drawn));
      && HistAt(x, d) == HistAt(w, d) + [Union(UpdatesOf(l.s.box.unacked))]
      && sender.tag in RoomAt(x, d).links && Answered(l, RoomAt(x, d).links[sender.tag], HeadOf(RowAt(w, d)) + 1)
  {
    var l := RoomAt(w, d).links[sender.tag];
    TimedOutSends(w, d, sender.tag);
    assert PointerAt(y, d) == None;
    FrontIsLogged(y, d, sender, drawn);
    TimeoutAnswered(l, RoomAt(Do(y, Receive(d, sender, drawn)), d).links[sender.tag], HeadOf(RowAt(w, d)) + 1);
  }

  lemma {:induction false} TimeoutAnswered(l: Link, m: Link, at: nat)
    requires Due(l.s) && l.s.up == [] && l.s.joined && l.follows
    requires var q := l.(s := Acted(l.s, Timeout)); q.s.up != [] && q.s.up[0].Update? && m == Told(Taken(q), Frames.Echo(at, q.s.up[0].n))
    ensures Answered(l, m, at)
  {
    TimeoutShips(l.s);
    TimeoutKeeps(l.s);
  }

  /** A resend of a joined follower with an empty socket, once received, has every edit that waited in the log. */
  lemma {:induction false} ResentIsLogged(w: World, d: DocId, sender: Sender, drawn: string)
    requires MayDeliver(w, d, sender, drawn)
    ensures var l, x := RoomAt(w, d).links[sender.tag], Run(w, Delivery(d, sender, drawn));
      && HistAt(x, d) == HistAt(w, d) + [Union(UpdatesOf(l.s.box.unacked))]
      && sender.tag in RoomAt(x, d).links && Answered(l, RoomAt(x, d).links[sender.tag], HeadOf(RowAt(w, d)) + 1)
  {
    TwoSteps(w, Client(d, sender.tag, Timeout), Receive(d, sender, drawn));
    ReceivedIsLogged(w, Do(w, Client(d, sender.tag, Timeout)), d, sender, drawn);
  }

  // ---- and read back

  /** The link after its session read some frames. */
  function ReadOn(l: Link, readings: seq<Reading>): Link
  {
    if readings == [] then l
    else
      var last := readings[|readings| - 1];
      Stepped(ReadOn(l, readings[..|readings| - 1]), Read(last.disk, last.leads))
  }

  function ReadSteps(d: DocId, sid: nat, readings: seq<Reading>): seq<Step>
  {
    seq(|readings|, i requires 0 <= i < |readings| => Client(d, sid, Read(readings[i].disk, readings[i].leads)))
  }

  lemma {:induction false} RunReads(w: World, d: DocId, sid: nat, readings: seq<Reading>)
    requires sid in RoomAt(w, d).links
    ensures var room, x := RoomAt(w, d), Run(w, ReadSteps(d, sid, readings));
      && sid in RoomAt(x, d).links && RoomAt(x, d).links[sid] == ReadOn(room.links[sid], readings)
      && RoomAt(x, d).hist == room.hist
  {
    if readings != [] {
      var front := readings[..|readings| - 1];
      RunReads(w, d, sid, front);
      assert ReadSteps(d, sid, readings)[..|readings| - 1] == ReadSteps(d, sid, front);
    }
  }

  /** The one update unacked waits for the last frame under way, and no frame before it acks it or takes the session offline. */
  ghost predicate Awaits(l: Link, n: nat, u: Update)
  {
    && l.s.online && l.s.joined && !l.s.disposed && l.s.connected && l.s.log.left == None && l.s.box.unacked == [Sent(n, u)]
    && l.down != [] && l.down[|l.down| - 1].Echo? && l.down[|l.down| - 1].n == n
    && forall i :: 0 <= i < |l.down| - 1 ==> !l.down[i].Refused? && (l.down[i].Echo? ==> l.down[i].n != n)
  }

  lemma {:induction false} StrangeAck(box: Box, n: nat, u: Update, m: nat)
    requires box.unacked == [Sent(n, u)] && m != n
    ensures box.Ack(m) == (box, None)
  {
  }

  lemma {:induction false} OwnAck(box: Box, n: nat, u: Update)
    requires box.unacked == [Sent(n, u)]
    ensures box.Ack(n) == (box.(unacked := [], ackTimer := false), None)
  {
    SplitAt(box.unacked, 0);
    assert box.Names(n) && box.unacked[..0] == [] && box.unacked[1..] == [];
    assert UpdatesOf([]) == [];
  }

  /** Any other frame leaves what waits waiting. */
  lemma {:induction false} ReadsPast(l: Link, n: nat, u: Update, disk: Disk, leads: bool, t: Truth)
    requires Awaits(l, n, u) && |l.down| > 1 && LinkOk(l, t)
    ensures Awaits(Stepped(l, Read(disk, leads)), n, u)
  {
    var f, rest := l.down[0], l.down[1..];
    assert forall i :: 0 <= i < |rest| ==> rest[i] == l.down[i + 1];
    if f.State? {
      StateKeepsWaiting(l, disk, leads, t);
    } else {
      OtherKeepsWaiting(l.s, f, n, u, disk, leads);
    }
  }

  /** Online in a room of the log it stands in, the session waits for the same updates. */
  ghost predicate StillWaits(s: Session, r: Session)
  {
    r.online && r.joined && !r.disposed && r.connected && r.log.left == None && r.box.unacked == s.box.unacked
  }

  lemma {:induction false} StateKeepsWaiting(l: Link, disk: Disk, leads: bool, t: Truth)
    requires LinkOk(l, t) && StillWaits(l.s, l.s) && l.s.box.unacked != [] && l.down != [] && l.down[0].State?
    ensures StillWaits(l.s, l.s.Handle(l.down[0], disk, leads))
  {
    var f := l.down[0];
    AheadOk(l, t);
    var c := l.s.Caught(f.head, f.snapshot, f.deltas, f.log);
    CaughtGood(l.s, Start(l), f.head, f.snapshot, f.deltas, f.log, t);
    BusySettlesNothing(c.(rotating := false), leads);
  }

  lemma {:induction false} OtherKeepsWaiting(s: Session, f: ServerFrame, n: nat, u: Update, disk: Disk, leads: bool)
    requires StillWaits(s, s) && s.box.unacked == [Sent(n, u)] && !f.State? && !f.Refused? && (f.Echo? ==> f.n != n)
    ensures StillWaits(s, s.Handle(f, disk, leads))
  {
    if f.Echo? {
      StrangeAck(s.box, n, u, f.n);
      BusySettlesNothing(s.(log := s.log.(at := f.at)), leads);
    } else if f.Fanout? {
      BusySettlesNothing(s.(doc := s.doc + f.payload.edits, log := s.log.(at := f.at)), leads);
    }
  }

  lemma {:induction false} ReadsUpTo(l: Link, n: nat, u: Update, readings: seq<Reading>, t: Truth)
    requires Awaits(l, n, u) && LinkOk(l, t) && |readings| < |l.down|
    ensures var m := ReadOn(l, readings);
      Awaits(m, n, u) && LinkOk(m, t) && m.down == l.down[|readings|..] && m.follows == l.follows
  {
    if readings != [] {
      var k := |readings| - 1;
      ReadsUpTo(l, n, u, readings[..k], t);
      var m := ReadOn(l, readings[..k]);
      ReadsPast(m, n, u, readings[k].disk, readings[k].leads, t);
      SteppedOk(m, Read(readings[k].disk, readings[k].leads), t);
      assert l.down[k..][1..] == l.down[k + 1..];
    }
  }

  /** The echo read, nothing is unacked. */
  lemma {:induction false} ReadsEcho(l: Link, n: nat, u: Update, disk: Disk, leads: bool)
    requires Awaits(l, n, u) && |l.down| == 1
    ensures var m := Stepped(l, Read(disk, leads));
      m.s.box.unacked == [] && m.down == [] && m.s.joined && !m.s.disposed && m.follows == l.follows
  {
    OwnAck(l.s.box, n, u);
  }

  lemma {:induction false} ReadsAll(l: Link, n: nat, u: Update, readings: seq<Reading>, t: Truth)
    requires Awaits(l, n, u) && LinkOk(l, t) && |readings| == |l.down|
    ensures var m := ReadOn(l, readings);
      LinkOk(m, t) && m.s.box.unacked == [] && m.down == [] && m.s.joined && !m.s.disposed && m.follows == l.follows
  {
    var k := |readings| - 1;
    ReadsUpTo(l, n, u, readings[..k], t);
    var m := ReadOn(l, readings[..k]);
    assert |m.down| == 1;
    ReadsEcho(m, n, u, readings[k].disk, readings[k].leads);
    SteppedOk(m, Read(readings[k].disk, readings[k].leads), t);
  }

  /** Counters under way rise, so the last one is no other's. */
  lemma {:induction false} LastIsAlone(l: Link, before: seq<ServerFrame>, at: nat, n: nat, t: Truth)
    requires LinkOk(l, t) && l.s.joined && l.down == before + [Frames.Echo(at, n)]
    ensures forall i :: 0 <= i < |before| && before[i].Echo? ==> before[i].n != n
  {
    EchoAppended(before, Frames.Echo(at, n));
    var ns, all := EchoNs(before), EchoNs(l.down) + UpdateNs(l.s.up);
    forall i | 0 <= i < |before| && before[i].Echo? ensures before[i].n != n {
      var k := EchoPlace(before, i);
      assert all[k] == before[i].n && all[|ns|] == n;
    }
  }

  lemma {:induction false} EchoPlace(down: seq<ServerFrame>, i: nat) returns (k: nat)
    requires i < |down| && down[i].Echo?
    ensures k < |EchoNs(down)| && EchoNs(down)[k] == down[i].n
  {
    if i == 0 {
      k := 0;
    } else {
      var j := EchoPlace(down[1..], i - 1);
      k := j + if down[0].Echo? then 1 else 0;
    }
  }

  lemma {:induction false} DeliveryOk(w: World, d: DocId, sender: Sender, drawn: string)
    requires WorldOk(w)
    ensures WorldOk(Run(w, Delivery(d, sender, drawn)))
  {
    var a, b := Client(d, sender.tag, Timeout), Receive(d, sender, drawn);
    TwoSteps(w, a, b);
    DoOk(w, a);
    DoOk(Do(w, a), b);
  }

  /** From the answer on, whatever the session's disk and its leader say. */
  lemma {:induction false} AnswerIsRead(l: Link, m: Link, at: nat, readings: seq<Reading>, t: Truth)
    requires Answered(l, m, at) && LinkOk(m, t) && |readings| == |l.down| + 1 && forall f :: f in l.down ==> !f.Refused?
    ensures var s := ReadOn(m, readings).s;
      s.box.unacked == [] && s.log.at == |t.hist| && s.doc == Union(t.hist) + Union(s.box.pending)
  {
    var n, u := m.s.box.unacked[0].n, m.s.box.unacked[0].update;
    LastIsAlone(m, l.down, at, n, t);
    assert Awaits(m, n, u);
    ReadsAll(m, n, u, readings, t);
    StandsAtHead(ReadOn(m, readings), t);
  }

  /**
   * A timeout, its update received and everything under way read: each edit that waited is in the log, the session waits
   * on none of them, and its document is the whole log and what is pending.
   */
  lemma {:induction false} ResendGetsThrough(w: World, d: DocId, sender: Sender, drawn: string, readings: seq<Reading>)
    requires Heeded(w) && MayDeliver(w, d, sender, drawn)
    requires var l := RoomAt(w, d).links[sender.tag]; |readings| == |l.down| + 1 && forall f :: f in l.down ==> !f.Refused?
    ensures var l, y := RoomAt(w, d).links[sender.tag], Run(Run(w, Delivery(d, sender, drawn)), ReadSteps(d, sender.tag, readings));
      && HistAt(y, d) == HistAt(w, d) + [Union(UpdatesOf(l.s.box.unacked))]
      && sender.tag in RoomAt(y, d).links
      && var s := SessionAt(y, d, sender.tag);
         s.box.unacked == [] && s.log.at == |HistAt(y, d)| && s.doc == Union(HistAt(y, d)) + Union(s.box.pending)
  {
    var sid := sender.tag;
    var l, x := RoomAt(w, d).links[sid], Run(w, Delivery(d, sender, drawn));
    HeededOk(w);
    DeliveryOk(w, d, sender, drawn);
    ResentIsLogged(w, d, sender, drawn);
    RunReads(x, d, sid, readings);
    var room := RoomAt(x, d);
    assert RoomOk(room);
    AnswerIsRead(l, room.links[sid], HeadOf(RowAt(w, d)) + 1, readings, TruthOf(room));
  }

  lemma {:induction false} StandsAtHead(l: Link, t: Truth)
    requires LinkOk(l, t) && l.follows && l.down == [] && l.s.joined && l.s.box.unacked == []
    ensures l.s.log.at == |t.hist| && l.s.doc == Union(t.hist) + Union(l.s.box.pending)
  {
    assert t.hist[..|t.hist|] == t.hist && UpdatesOf(l.s.box.unacked) == [];
  }

  // ---- read-only sockets

  predicate FromReader(step: Step)
  {
    match step
    case Receive(_, sender, _) => sender.readOnly
    case ReceiveLate(_, sender, _, _) => sender.readOnly
    case _ => true
  }

  /** Nothing the hub stores or has logged is another. */
  ghost predicate StoredAlike(w: World, x: World)
  {
    forall d :: RowAt(x, d) == RowAt(w, d) && HistAt(x, d) == HistAt(w, d) && RoomAt(x, d).name == RoomAt(w, d).name
  }

  lemma {:induction false} ReaderStep(w: World, step: Step)
    requires FromReader(step)
    ensures StoredAlike(w, Do(w, step))
  {
    var d := step.doc;
    var room := RoomAt(w, d);
    match step
    case Receive(_, sender, drawn) =>
      if sender.tag in room.links && room.links[sender.tag].s.up != [] && drawn != "" {
        var f := room.links[sender.tag].s.up[0];
        ReadersWriteNothing(d, room.row, Followers(room.links), sender, TargetRow(w, f), drawn, f);
      }
    case ReceiveLate(_, sender, drawn, i) =>
      if i < |room.orphans| && sender.tag !in room.links && drawn != "" {
        var f := room.orphans[i];
        ReadersWriteNothing(d, room.row, Followers(room.links) + {sender.tag}, sender, TargetRow(w, f), drawn, f);
      }
    case _ => SteppingRow(room, step);
  }

  /** Over a run in which only read-only sockets are heard, no log grows, no row changes and no pointer moves. */
  lemma {:induction false} ReadersChangeNothing(w: World, steps: seq<Step>)
    requires forall step :: step in steps ==> FromReader(step)
    ensures StoredAlike(w, Run(w, steps))
  {
    if steps != [] {
      var n := |steps| - 1;
      assert forall step :: step in steps[..n] ==> step in steps;
      ReadersChangeNothing(w, steps[..n]);
      ReaderStep(Run(w, steps[..n]), steps[n]);
    }
  }
}
