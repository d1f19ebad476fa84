/** Two runs in which a note closed and reopened at once does not show its room. */
module ReopenRuns {
  import opened Common
  import opened Updates
  import opened Outboxes
  import opened RoomLogs
  import opened Payloads
  import opened Rows
  import opened Docs
  import opened Sessions
  import opened Streams
  import opened Flights
  import opened Links
  import opened Rooms
  import opened World
  import opened LiveRuns

  const NOTE: DocId := "note"
  const NAME := "log"

  /** A channel with one document. */
  function One(room: Room): World { World(map[NOTE := room], []) }

  function From(tag: nat): Sender { Sender(tag, false, "", "", 0) }

  ghost predicate Reached(room: Room) { Reachable(One(room)) }

  lemma {:induction false} Then(room: Room, step: Step, r: Room)
    requires Reached(room) && Do(One(room), step) == One(r)
    ensures Reached(r)
  {
    var steps :| One(room) == Run(EMPTY_WORLD, steps);
    assert (steps + [step])[..|steps|] == steps;
    assert One(r) == Run(EMPTY_WORLD, steps + [step]);
  }

  lemma {:induction false} Acts(room: Room, sid: nat, a: Act)
    requires Reached(room) && sid in room.links
    ensures Reached(room.(links := room.links[sid := Stepped(room.links[sid], a)],
                          orphans := room.orphans + Abandoned(room.links[sid], a)))
  {
    var r := WithAct(room, sid, a);
    assert One(room).rooms[NOTE := r] == map[NOTE := r];
    Then(room, Client(NOTE, sid, a), r);
  }

  // ---- the hub's answers while one session follows

  predicate Alone(room: Room, tag: nat)
  {
    && tag in room.links && room.links[tag].s.up != [] && PointerOf(room.row) == None
    && forall k :: k in room.links && k != tag ==> !room.links[k].follows
  }

  /** What the hub's answer leaves. */
  function Answered(room: Room, tag: nat): Room
    requires Alone(room, tag)
  {
    var l := room.links[tag];
    var m := Taken(l);
    match l.s.up[0]
    case Sub(since) => room.(links := room.links[tag := Told(m.(follows := true), StateFrom(room.row, since))])
    case Unsub => room.(links := room.links[tag := m.(follows := false)])
    case Update(n, payload) => Grown(room, tag, m, n, payload)
    case Seed(n, payload) => Grown(room, tag, m, n, payload)
    case Snapshot(upto, payload) =>
      room.(row := if room.row.Some? then Some(Compacted(room.row.value, payload, upto)) else None,
            links := room.links[tag := m])
    case _ => room
  }

  function Grown(room: Room, tag: nat, m: Link, n: nat, payload: Payload): Room
  {
    var row := Appended(room.row, payload, NAME);
    Room(Some(row), room.hist + [payload.edits], if room.row.None? then NAME else room.name,
         room.links[tag := Told(m, Frames.Echo(row.Head(), n))], room.orphans)
  }

  predicate Plain(room: Room, tag: nat)
    requires Alone(room, tag)
  {
    var l := room.links[tag];
    var f := l.s.up[0];
    f.Sub? || (l.follows && (f.Unsub? || f.Update? || f.Snapshot? || (f.Seed? && room.row.None?)))
  }

  lemma {:induction false} AnswerIs(room: Room, tag: nat)
    requires Alone(room, tag) && Plain(room, tag)
    ensures WithFrame(NOTE, room, From(tag), None, NAME) == Answered(room, tag)
    ensures AnswerTo(NOTE, room, From(tag), None, NAME).seeded == None
  {
    var r := WithFrame(NOTE, room, From(tag), None, NAME);
    var ans := AnswerTo(NOTE, room, From(tag), None, NAME);
    forall k | k in room.links && k != tag ensures k !in ans.followers && k !in ans.mail {
    }
    assert r.links == Answered(room, tag).links;
  }

  lemma {:induction false} Receives(room: Room, tag: nat)
    requires Reached(room) && Alone(room, tag) && Plain(room, tag)
    ensures Reached(Answered(room, tag))
  {
    var r := Answered(room, tag);
    AnswerIs(room, tag);
    assert One(room).rooms[NOTE := r] == map[NOTE := r];
    Then(room, Receive(NOTE, From(tag), NAME), r);
  }

  lemma {:induction false} Reopens(room: Room, knownSeq: nat)
    requires Reached(room) && CanReopen(room, 0, 1, knownSeq, 0)
    ensures var l := room.links[0];
      Reached(room.(links := room.links[0 := HandedOn(l)][1 := Reopened(l, knownSeq, 0)]))
  {
    var r := WithReopened(room, 0, 1, knownSeq, 0);
    assert One(room).rooms[NOTE := r] == map[NOTE := r];
    Then(room, Reopen(NOTE, 1, knownSeq, 0, 0), r);
  }

  // ---- a session that sends one update after another

  /** Nothing is on its way, and the session stands at `n`. */
  predicate Rests(l: Link, n: nat)
  {
    && l.follows && l.down == [] && !l.rested && l.s.up == []
    && l.s.joined && l.s.online && l.s.connected && l.s.moved == None && !l.s.disposed && !l.s.rotating
    && l.s.box.Idle() && l.s.log.at == n && l.s.log.left == None
  }

  /** One update is on the socket. */
  predicate Waits(l: Link, n: nat, u: Update)
  {
    && l.follows && l.down == [] && !l.rested && l.s.up == [Frames.Update(l.s.box.sent, Sealed(u))]
    && l.s.joined && l.s.online && l.s.connected && l.s.moved == None && !l.s.disposed && !l.s.rotating
    && l.s.box.staged == [] && l.s.box.pending == [] && l.s.box.unacked == [Sent(l.s.box.sent, u)]
    && l.s.log.at == n && l.s.log.left == None
  }

  /** The room of a log of which nothing was compacted. */
  predicate Whole(room: Room, l: Link, n: nat)
  {
    && room.links == map[0 := l] && room.orphans == [] && room.name == NAME
    && n > 0 && |room.hist| == n && room.hist[0] == {1}
    && room.row.Some? && room.row.value.moved == None && room.row.value.log == NAME
    && room.row.value.snapSeq == 0 && room.row.value.snap == None && |room.row.value.deltas| == n
  }

  function Typed(l: Link, u: Update): Link
  {
    Stepped(Stepped(Stepped(l, Edit(u)), FlushFires), Flush(false))
  }

  lemma {:induction false} EditPends(l: Link, n: nat, u: Update)
    requires Rests(l, n)
    ensures var m := Stepped(Stepped(l, Edit(u)), FlushFires);
      && m == l.(s := m.s) && m.s == l.s.(doc := m.s.doc, box := m.s.box)
      && m.s.box.staged == [] && m.s.box.pending == [u] && m.s.box.unacked == [] && m.s.box.flushes > 0
  {
    assert [] + [u] == [u];
  }

  lemma {:induction false} TypedWaits(l: Link, n: nat, u: Update)
    requires Rests(l, n) && |u| <= 1
    ensures Waits(Typed(l, u), n, u)
  {
    EditPends(l, n, u);
    UnionAppend([], u);
    var m := Stepped(Stepped(l, Edit(u)), FlushFires);
    assert m.s.box.pending == [] + [u];
    assert m.s.box.FlushStarted().TakePending().1 == Some(u);
  }

  function Solo(room: Room, l: Link): Room { room.(links := map[0 := l]) }

  lemma {:induction false} ActsSolo(room: Room, l: Link, a: Act)
    requires Reached(Solo(room, l)) && !a.Socket? && room.orphans == []
    ensures Reached(Solo(room, Stepped(l, a)))
  {
    var q, m := Solo(room, l), Stepped(l, a);
    Acts(q, 0, a);
    var r := q.(links := q.links[0 := m], orphans := q.orphans + []);
    assert r.links == map[0 := m] && r.orphans == room.orphans;
    assert r == Solo(room, m);
  }

  lemma {:induction false} Types(room: Room, l: Link, u: Update)
    requires Reached(Solo(room, l)) && room.orphans == []
    ensures Reached(Solo(room, Typed(l, u)))
  {
    var a := Stepped(l, Edit(u));
    var b := Stepped(a, FlushFires);
    var c := Typed(l, u);
    assert c == Stepped(b, Flush(false));
    ActsSolo(room, l, Edit(u));
    ActsSolo(room, a, FlushFires);
    ActsSolo(room, b, Flush(false));
    assert Reached(Solo(room, c));
  }

  // ---- a note nobody shared yet

  const UNREAD := Disk({}, None)
  const SEEDED := Disk({1}, None)

  function Opening(): Link { Link(Opened(0, true), false, false, [], false) }

  function Subscribed(): Link
  {
    Stepped(Told(Taken(Opening()).(follows := true), Frames.State(0, None, [], "")), Read(SEEDED, false))
  }

  lemma {:induction false} SubscribedIs()
    ensures Opening().s.up == [Frames.Sub(0)]
    ensures var l := Subscribed();
      && l.follows && l.down == [] && !l.rested && l.s.up == [Frames.Seed(0, Sealed({1}))] && l.s.seed == Some({1})
      && !l.s.joined && l.s.connected && l.s.moved == None && !l.s.disposed && !l.s.rotating && l.s.box == EMPTY_BOX
      && l.s.log.left == None && l.s.log.at == 0 && l.s.doc == {}
  {
  }

  lemma {:induction false} SeededRests(l: Link)
    requires l == Subscribed()
    ensures l.s.up != [] && Rests(Stepped(Told(Taken(l), Frames.Echo(1, 0)), Read(UNREAD, false)), 1)
  {
    SubscribedIs();
    var f := Frames.Echo(1, 0);
    var m := Told(Taken(l), f);
    assert m.down == [f] && m.down[1..] == [];
    assert UpdatesOf([]) == [];
  }

  /** Opened, seeded from the disk, and echoed. */
  lemma {:induction false} Begins() returns (room: Room, l: Link)
    ensures Reached(room) && Whole(room, l, 1) && Rests(l, 1)
  {
    var a := Offers();
    var b := Subscribed();
    var echoed := Told(Taken(b), Frames.Echo(1, 0));
    var c := SeedLogged(a, b);
    SeededRests(b);
    ActsSolo(c, echoed, Read(UNREAD, false));
    l := Stepped(echoed, Read(UNREAD, false));
    room := Solo(c, l);
  }

  lemma {:induction false} SeedLogged(a: Room, b: Link) returns (c: Room)
    requires a == Room(None, [], "", map[0 := Opening()], []) && b == Subscribed() && Reached(Solo(a, b))
    ensures b.s.up != [] && Whole(c, Told(Taken(b), Frames.Echo(1, 0)), 1)
    ensures Reached(Solo(c, Told(Taken(b), Frames.Echo(1, 0))))
  {
    SubscribedIs();
    var m := Told(Taken(b), Frames.Echo(1, 0));
    c := Room(Some(Row(0, None, [Sealed({1})], None, NAME)), [{1}], NAME, map[0 := m], []);
    SeedAnswered(Solo(a, b), b, c, m);
    Receives(Solo(a, b), 0);
    assert c == Solo(c, m);
  }

  lemma {:induction false} SeedAnswered(before: Room, b: Link, c: Room, m: Link)
    requires before == Room(None, [], "", map[0 := b], []) && b.s.up == [Frames.Seed(0, Sealed({1}))] && b.follows
    requires m == Told(Taken(b), Frames.Echo(1, 0))
    requires c == Room(Some(Row(0, None, [Sealed({1})], None, NAME)), [{1}], NAME, map[0 := m], [])
    ensures Alone(before, 0) && Plain(before, 0) && Answered(before, 0) == c
  {
    assert Appended(None, Sealed({1}), NAME) == c.row.value by { assert [] + [Sealed({1})] == [Sealed({1})]; }
    assert map[0 := b][0 := m] == map[0 := m] && [] + [{1}] == [{1}];
  }

  lemma {:induction false} Offers() returns (room: Room)
    ensures room == Room(None, [], "", map[0 := Opening()], []) && Reached(Solo(room, Subscribed()))
  {
    var o := Opening();
    room := Room(None, [], "", map[0 := o], []);
    OpensAlone();
    SubscribedIs();
    Receives(room, 0);
    var told := Told(Taken(o).(follows := true), Frames.State(0, None, [], ""));
    assert Answered(room, 0) == Solo(room, told);
    ActsSolo(room, told, Read(SEEDED, false));
  }

  lemma {:induction false} OpensAlone()
    ensures Reached(Room(None, [], "", map[0 := Opening()], []))
  {
    var steps := [Open(NOTE, 0, 0, true)];
    assert steps[..0] == [];
    assert Run(EMPTY_WORLD, []) == EMPTY_WORLD;
    var room := WithSession(EMPTY_ROOM, 0, 0, true);
    assert room.links == map[0 := Opening()];
    assert map[][NOTE := room] == map[NOTE := room];
    assert One(room) == Run(EMPTY_WORLD, steps);
  }

  // ---- the log grows to any length

  /** The echo settles it. */
  function Echoed(l: Link, at: nat): Link
    requires l.s.up != [] && l.s.up[0].Update?
  {
    Stepped(Told(Taken(l), Frames.Echo(at, l.s.up[0].n)), Read(UNREAD, false))
  }

  lemma {:induction false} EchoedRests(l: Link, n: nat, u: Update)
    requires Waits(l, n, u)
    ensures Rests(Echoed(l, n + 1), n + 1)
  {
    var f := Frames.Echo(n + 1, l.s.box.sent);
    var m := Told(Taken(l), f);
    assert m.down == [f] && m.down[1..] == [];
    OnlyOneAcked(l.s.box);
  }

  lemma {:induction false} OnlyOneAcked(box: Box)
    requires |box.unacked| == 1 && box.unacked[0].n == box.sent
    ensures box.Ack(box.sent) == (box.(unacked := [], ackTimer := false), None)
  {
    SplitAt(box.unacked, 0);
    assert box.Names(box.sent) && box.unacked[..0] == [] && box.unacked[1..] == [];
    assert UpdatesOf([]) == [];
  }

  lemma {:induction false} Logs(room: Room, l: Link, n: nat, u: Update) returns (r: Room)
    requires Reached(Solo(room, l)) && Whole(Solo(room, l), l, n) && Waits(l, n, u)
    ensures r.links == map[0 := Told(Taken(l), Frames.Echo(n + 1, l.s.box.sent))] && Reached(r)
    ensures Whole(r, r.links[0], n + 1) && r.hist == room.hist + [u]
    ensures r.row == Some(Appended(room.row, Sealed(u), NAME))
  {
    var before := Solo(room, l);
    Receives(before, 0);
    r := Answered(before, 0);
    assert map[0 := l][0 := r.links[0]] == map[0 := r.links[0]];
  }

  lemma {:induction false} OneMore(room: Room, l: Link, n: nat) returns (r: Room, m: Link)
    requires Reached(room) && Whole(room, l, n) && Rests(l, n)
    ensures Reached(r) && Whole(r, m, n + 1) && Rests(m, n + 1)
  {
    assert room == Solo(room, l);
    Types(room, l, {});
    TypedWaits(l, n, {});
    var w := Typed(l, {});
    var q := Logs(room, w, n, {});
    var t := q.links[0];
    assert q == Solo(q, t);
    ActsSolo(q, t, Read(UNREAD, false));
    EchoedRests(w, n, {});
    m := Echoed(w, n + 1);
    r := Solo(q, m);
  }

  lemma {:induction false} GrowsTo(room: Room, l: Link, n: nat, k: nat) returns (r: Room, m: Link)
    requires Reached(room) && Whole(room, l, n) && Rests(l, n) && n <= k
    ensures Reached(r) && Whole(r, m, k) && Rests(m, k)
    decreases k - n
  {
    if n == k {
      r, m := room, l;
    } else {
      var q, p := OneMore(room, l, n);
      r, m := GrowsTo(q, p, n + 1, k);
    }
  }

  // ---- a State that lacks the start of the log

  /** Offline since its update was logged, it subscribed from 1 on a new socket and was closed. */
  predicate Resubscribed(l: Link)
  {
    && l.s.up == [Frames.Sub(1), Frames.Unsub] && !l.follows && l.down == [] && !l.rested
    && l.s.disposed && l.s.connected && l.s.log.at == 1
  }

  function Closed(l: Link): Link { Stepped(Stepped(l, Socket(true)), Dispose) }

  lemma {:induction false} ClosedResubscribed(l: Link, u: Update)
    requires Waits(l, 1, u)
    ensures Resubscribed(Closed(Told(Taken(l), Frames.Echo(2, l.s.box.sent))))
  {
    var t := Told(Taken(l), Frames.Echo(2, l.s.box.sent));
    var m := Stepped(t, Socket(true));
    assert m.s.up == [Frames.Sub(1)] && m.s.box.Drained() == m.s.box && !AtRest(m.s);
  }

  lemma {:induction false} Reconnects(room: Room, l: Link)
    requires Reached(Solo(room, l)) && room.orphans == [] && l.s.up == [] && !l.s.disposed
    ensures Reached(Solo(room, Closed(l)))
  {
    var q, m := Solo(room, l), Stepped(l, Socket(true));
    Acts(q, 0, Socket(true));
    var r := q.(links := q.links[0 := m], orphans := q.orphans + []);
    assert r.links == map[0 := m] && r.orphans == room.orphans;
    assert r == Solo(room, m);
    ActsSolo(room, m, Dispose);
  }

  lemma {:induction false} SubTaken(room: Room, l: Link)
    requires Reached(Solo(room, l)) && PointerOf(room.row) == None && Resubscribed(l)
    ensures Reached(Solo(room, l.(s := l.s.(up := [Frames.Unsub]), follows := true, down := [StateFrom(room.row, 1)])))
  {
    var a := Solo(room, l);
    Receives(a, 0);
    var m := l.(s := l.s.(up := [Frames.Unsub]), follows := true, down := [StateFrom(room.row, 1)]);
    assert Told(Taken(l).(follows := true), StateFrom(room.row, 1)) == m;
    assert Answered(a, 0).links == map[0 := m];
    assert Answered(a, 0) == Solo(room, m);
  }

  lemma {:induction false} UnsubTaken(room: Room, l: Link)
    requires Reached(Solo(room, l)) && PointerOf(room.row) == None && l.follows && l.s.up == [Frames.Unsub]
    ensures Reached(Solo(room, l.(s := l.s.(up := []), follows := false)))
  {
    var a, m := Solo(room, l), l.(s := l.s.(up := []), follows := false);
    Receives(a, 0);
    assert Taken(l).(follows := false) == m;
    assert Answered(a, 0).links == map[0 := m];
    assert Answered(a, 0) == Solo(room, m);
  }

  /** What a note just opened makes of a State, where its disk adds nothing. */
  function Joined(s: Session, f: ServerFrame): Session
    requires f.State?
  {
    s.Caught(f.head, f.snapshot, f.deltas, f.log).(seed := None, joined := true, online := true)
  }

  lemma {:induction false} Joins(s: Session, f: ServerFrame, leads: bool)
    requires f.State? && f.head > 0 && !s.log.Lost(f.head, f.log) && !s.joined && !s.online && s.box == EMPTY_BOX
    ensures s.Handle(f, UNREAD, leads) == Joined(s, f).Settle(leads)
  {
    var t := s.Caught(f.head, f.snapshot, f.deltas, f.log).Reconciled(UNREAD);
    assert t == s.Caught(f.head, f.snapshot, f.deltas, f.log).(seed := None, joined := true);
    assert t.box.TakeUnacked() == (EMPTY_BOX, None);
    assert t.GoOnline() == Joined(s, f);
  }

  lemma {:induction false} PartEdits(u: Update)
    ensures {} + StateEdits(None, [Sealed(u)]) == u
  {
    assert EditsOf([Sealed(u)]) == [] + [u];
    UnionAppend([], u);
  }

  lemma {:induction false} JoinsPart(l: Link, f: ServerFrame, u: Update)
    requires l.down == [f] && f == Frames.State(2, None, [Sealed(u)], NAME)
    ensures var s := Stepped(Reopened(l, 1, 0), Read(UNREAD, false)).s;
      s.Settled() && s.log.at == 2 && s.doc == u && s.agreed == [Agreement(2, u)]
  {
    var r := Reopened(l, 1, 0);
    assert r.down == [f];
    PartSettles(r.s, f, u);
  }

  lemma {:induction false} PartSettles(s: Session, f: ServerFrame, u: Update)
    requires s == Opened(1, true).(up := s.up) && f == Frames.State(2, None, [Sealed(u)], NAME)
    ensures var r := s.Handle(f, UNREAD, false);
      r.Settled() && r.log.at == 2 && r.doc == u && r.agreed == [Agreement(2, u)]
  {
    Joins(s, f, false);
    PartEdits(u);
    var j := Joined(s, f);
    assert j.Settled() && j.doc == u && j.agreed == [] && [] + [Agreement(2, u)] == [Agreement(2, u)];
  }

  /** A note is closed while a State asked for from 1 is on its way to it. */
  predicate PartOwed(room: Room, l: Link, u: Update)
  {
    && l.down == [Frames.State(2, None, [Sealed(u)], NAME)] && l.s.up == [] && !l.follows
    && l.s.disposed && l.s.connected && l.s.log.at == 1 && room.hist == [{1}, u] && room.orphans == []
  }

  lemma {:induction false} LeavesPart(q: Room, e: Link, u: Update)
    requires Reached(Solo(q, e)) && Whole(Solo(q, e), e, 2) && q.hist == [{1}, u]
    requires StateFrom(q.row, 1) == Frames.State(2, None, [Sealed(u)], NAME)
    requires e.s.up == [] && !e.s.disposed && Resubscribed(Closed(e))
    ensures var c := Closed(e).(s := Closed(e).s.(up := []), down := [StateFrom(q.row, 1)]);
      Reached(Solo(q, c)) && PartOwed(q, c, u)
  {
    Reconnects(q, e);
    var c := Closed(e);
    SubTaken(q, c);
    var m := c.(s := c.s.(up := [Frames.Unsub]), follows := true, down := [StateFrom(q.row, 1)]);
    UnsubTaken(q, m);
    assert m.(s := m.s.(up := []), follows := false) == c.(s := c.s.(up := []), down := [StateFrom(q.row, 1)]);
  }

  lemma {:induction false} ClosesOnPart() returns (room: Room, l: Link)
    ensures Reached(Solo(room, l)) && PartOwed(room, l, {2})
  {
    var e: Link;
    room, e := SecondLogged();
    LeavesPart(room, e, {2});
    l := Closed(e).(s := Closed(e).s.(up := []), down := [StateFrom(room.row, 1)]);
  }

  lemma {:induction false} StateOfSecond(row: Row, u: Update)
    requires row.snapSeq == 0 && |row.deltas| == 1 && row.log == NAME
    ensures StateFrom(Some(Appended(Some(row), Sealed(u), NAME)), 1) == Frames.State(2, None, [Sealed(u)], NAME)
  {
    assert (row.deltas + [Sealed(u)])[1..] == [Sealed(u)];
  }

  lemma {:induction false} SecondTyped() returns (room: Room, t: Link)
    ensures Reached(Solo(room, t)) && Whole(Solo(room, t), t, 1) && Waits(t, 1, {2}) && room.hist == [{1}]
  {
    var r;
    room, r := Begins();
    assert room == Solo(room, r) && room.hist == [room.hist[0]];
    Types(room, r, {2});
    TypedWaits(r, 1, {2});
    t := Typed(r, {2});
  }

  lemma {:induction false} SecondLogged() returns (room: Room, e: Link)
    ensures Reached(Solo(room, e)) && Whole(Solo(room, e), e, 2) && room.hist == [{1}, {2}]
    ensures StateFrom(room.row, 1) == Frames.State(2, None, [Sealed({2})], NAME)
    ensures e.s.up == [] && !e.s.disposed && Resubscribed(Closed(e))
  {
    var first, t := SecondTyped();
    room := Logs(first, t, 1, {2});
    e := room.links[0];
    assert room == Solo(room, e) && [{1}] + [{2}] == [{1}, {2}];
    StateOfSecond(first.row.value, {2});
    ClosedResubscribed(t, {2});
  }

  /**
   * Reopened at once after its socket came back, a note joins on the State asked for by the session closed: it shows
   * the last update only, has it agreed as the whole room's text, and waits for nothing.
   */
  lemma {:induction false} ReopenedOnPart() returns (w: World)
    ensures Reachable(w) && 1 in RoomAt(w, NOTE).links && HistAt(w, NOTE) == [{1}, {2}]
    ensures var s := SessionAt(w, NOTE, 1);
      s.Settled() && s.log.at == 2 && s.doc == {2} && Agreement(2, {2}) in s.agreed
  {
    var room, c := ClosesOnPart();
    var r := Solo(room, c);
    Reopens(r, 1);
    var p := r.(links := r.links[0 := HandedOn(c)][1 := Reopened(c, 1, 0)]);
    Acts(p, 1, Read(UNREAD, false));
    JoinsPart(c, c.down[0], {2});
    w := One(p.(links := p.links[1 := Stepped(p.links[1], Read(UNREAD, false))],
                orphans := p.orphans + Abandoned(p.links[1], Read(UNREAD, false))));
  }

  // ---- an Echo of the session closed

  const HEAD := COMPACT_AFTER + 1

  /** A note is closed while the echo of its last update is on its way to it. */
  predicate EchoOwed(room: Room, l: Link)
  {
    && l.s.up == [] && !l.follows && |l.down| == 1 && l.down[0].Echo? && l.down[0].at == HEAD
    && l.s.disposed && l.s.connected && l.s.log.at == COMPACT_AFTER && Whole(Solo(room, l), l, HEAD)
  }

  lemma {:induction false} ClosedWaiting(l: Link, u: Update)
    requires Waits(l, COMPACT_AFTER, u)
    ensures var m := Stepped(l, Dispose);
      && m.s.up == [Frames.Update(l.s.box.sent, Sealed(u)), Frames.Unsub] && m.follows && m.down == [] && !m.rested
      && m.s.disposed && m.s.connected && m.s.log.at == COMPACT_AFTER
  {
    assert l.s.box.Drained() == l.s.box && !AtRest(l.s);
    assert l.s.up + [Frames.Unsub] == [Frames.Update(l.s.box.sent, Sealed(u)), Frames.Unsub];
  }

  lemma {:induction false} LogsLast(room: Room, l: Link, n: nat, k: nat, u: Update) returns (r: Room, m: Link)
    requires Reached(Solo(room, l)) && Whole(Solo(room, l), l, n) && l.follows
    requires l.s.up == [Frames.Update(k, Sealed(u)), Frames.Unsub]
    ensures Reached(Solo(r, m)) && Whole(Solo(r, m), m, n + 1)
    ensures m == l.(s := l.s.(up := []), follows := false, down := l.down + [Frames.Echo(n + 1, k)])
  {
    var before := Solo(room, l);
    Receives(before, 0);
    r := Answered(before, 0);
    var e := Told(Taken(l), Frames.Echo(n + 1, k));
    assert r.links == map[0 := e];
    assert r == Solo(r, e) && e.s.up == [Frames.Unsub];
    UnsubTaken(r, e);
    m := e.(s := e.s.(up := []), follows := false);
  }

  lemma {:induction false} ClosesOnEcho() returns (room: Room, l: Link)
    ensures Reached(Solo(room, l)) && EchoOwed(room, l)
  {
    var first, a := Begins();
    var grown, r := GrowsTo(first, a, 1, COMPACT_AFTER);
    assert grown == Solo(grown, r);
    Types(grown, r, {2});
    TypedWaits(r, COMPACT_AFTER, {2});
    var t := Typed(r, {2});
    ActsSolo(grown, t, Dispose);
    ClosedWaiting(t, {2});
    var c := Stepped(t, Dispose);
    room, l := LogsLast(grown, c, COMPACT_AFTER, t.s.box.sent, {2});
  }

  /** The note opened again, which reads that echo and then loses its socket. */
  function Strayed(l: Link): Link
  {
    Stepped(Stepped(Reopened(l, COMPACT_AFTER, 0), Read(UNREAD, false)), Socket(true))
  }

  lemma {:induction false} StrayedAsks(room: Room, l: Link)
    requires EchoOwed(room, l)
    ensures var n := Strayed(l);
      && n.s.up == [Frames.Sub(HEAD)] && !n.follows && n.down == [] && n.s.connected && !n.s.disposed
      && n.s == Opened(COMPACT_AFTER, true).(up := n.s.up, log := Log(HEAD, 0, None, None, COMPACT_AFTER))
  {
    var r := Reopened(l, COMPACT_AFTER, 0);
    assert r.down == l.down && r.down[1..] == [];
    var e := Stepped(r, Read(UNREAD, false));
    assert e.s == r.s.(log := r.s.log.(at := HEAD)) && e.down == [];
  }

  /** The State it asked for makes it join with nothing, and replace the log by nothing. */
  lemma {:induction false} StrayedSettles(n: Link)
    requires n.s == Opened(COMPACT_AFTER, true).(up := [Frames.Sub(HEAD)], log := Log(HEAD, 0, None, None, COMPACT_AFTER))
    requires n.down == []
    ensures var m := Stepped(Told(Taken(n).(follows := true), Frames.State(HEAD, None, [], NAME)), Read(UNREAD, true));
      && m.follows && m.s.up == [Frames.Snapshot(HEAD, Sealed({}))]
      && m.s.Settled() && m.s.log.at == HEAD && m.s.doc == {} && m.s.agreed == [Agreement(HEAD, {})]
  {
    var f := Frames.State(HEAD, None, [], NAME);
    var t := Told(Taken(n).(follows := true), f);
    assert t.down == [f] && t.s.up == [] && !t.s.log.Lost(HEAD, NAME);
    Joins(t.s, f, true);
    assert StateEdits(None, []) == {};
    var j := Joined(t.s, f);
    assert j.Settled() && j.log.CompactionDue() && j.doc == {};
    assert [] + [Agreement(HEAD, {})] == [Agreement(HEAD, {})];
    assert [] + [Frames.Snapshot(HEAD, Sealed({}))] == [Frames.Snapshot(HEAD, Sealed({}))];
  }

  function Duo(room: Room, h: Link, n: Link, orphans: seq<ClientFrame>): Room
  {
    room.(links := map[0 := h, 1 := n], orphans := orphans)
  }

  lemma {:induction false} ActsDuo(room: Room, h: Link, n: Link, orphans: seq<ClientFrame>, a: Act)
    requires Reached(Duo(room, h, n, orphans))
    ensures Reached(Duo(room, h, Stepped(n, a), orphans + Abandoned(n, a)))
  {
    var q, m := Duo(room, h, n, orphans), Stepped(n, a);
    Acts(q, 1, a);
    assert q.links[1 := m] == map[0 := h, 1 := m];
    assert q.(links := q.links[1 := m], orphans := q.orphans + Abandoned(n, a)) == Duo(room, h, m, orphans + Abandoned(n, a));
  }

  lemma {:induction false} SubDuo(room: Room, h: Link, n: Link, orphans: seq<ClientFrame>)
    requires Reached(Duo(room, h, n, orphans)) && PointerOf(room.row) == None && !h.follows
    requires n.s.up == [Frames.Sub(HEAD)]
    ensures Reached(Duo(room, h, Told(Taken(n).(follows := true), StateFrom(room.row, HEAD)), orphans))
  {
    var q, m := Duo(room, h, n, orphans), Told(Taken(n).(follows := true), StateFrom(room.row, HEAD));
    Receives(q, 1);
    assert q.links[1 := m] == map[0 := h, 1 := m];
    assert Answered(q, 1) == Duo(room, h, m, orphans);
  }

  lemma {:induction false} SnapshotDuo(room: Room, h: Link, n: Link, orphans: seq<ClientFrame>)
    requires Reached(Duo(room, h, n, orphans)) && PointerOf(room.row) == None && !h.follows && room.row.Some?
    requires n.follows && n.s.up == [Frames.Snapshot(HEAD, Sealed({}))]
    ensures Reached(Duo(room.(row := Some(Compacted(room.row.value, Sealed({}), HEAD))), h, Taken(n), orphans))
  {
    var q, m := Duo(room, h, n, orphans), Taken(n);
    Receives(q, 1);
    assert q.links[1 := m] == map[0 := h, 1 := m];
    assert Answered(q, 1) == Duo(room.(row := Some(Compacted(room.row.value, Sealed({}), HEAD))), h, m, orphans);
  }

  /** From the echo owed to the snapshot on its way. */
  lemma {:induction false} Strays(room: Room, c: Link) returns (h: Link, n: Link, orphans: seq<ClientFrame>)
    requires Reached(Solo(room, c)) && EchoOwed(room, c)
    ensures Reached(Duo(room, h, n, orphans)) && !h.follows && n.follows && n.s.up == [Frames.Snapshot(HEAD, Sealed({}))]
    ensures n.s.Settled() && n.s.log.at == HEAD && n.s.doc == {} && n.s.agreed == [Agreement(HEAD, {})]
  {
    var r := Solo(room, c);
    h := HandedOn(c);
    var p := Reopened(c, COMPACT_AFTER, 0);
    Reopens(r, COMPACT_AFTER);
    assert r.links[0 := h][1 := p] == map[0 := h, 1 := p];
    assert r.(links := r.links[0 := h][1 := p]) == Duo(room, h, p, room.orphans);
    var e := Stepped(p, Read(UNREAD, false));
    ActsDuo(room, h, p, room.orphans, Read(UNREAD, false));
    ActsDuo(room, h, e, room.orphans + [], Socket(true));
    orphans := room.orphans + [] + Abandoned(e, Socket(true));
    var a := Strayed(c);
    StrayedAsks(room, c);
    SubDuo(room, h, a, orphans);
    StateOfHead(room, c);
    StrayedSettles(a);
    var t := Told(Taken(a).(follows := true), StateFrom(room.row, HEAD));
    ActsDuo(room, h, t, orphans, Read(UNREAD, true));
    orphans := orphans + [];
    n := Stepped(t, Read(UNREAD, true));
  }

  lemma {:induction false} StateOfHead(room: Room, l: Link)
    requires Whole(Solo(room, l), l, HEAD)
    ensures StateFrom(room.row, HEAD) == Frames.State(HEAD, None, [], NAME)
    ensures Stored(Compacted(room.row.value, Sealed({}), HEAD)) == {}
  {
  }

  /**
   * Reopened at once after a last edit, a note reads the echo of it, loses its socket, and asks for the log from there
   * on: it joins empty, has that agreed as the whole room's text, and as the leader compacts the log to nothing.
   */
  lemma {:induction false} ReopenedOnEcho() returns (w: World)
    ensures Reachable(w) && 1 in RoomAt(w, NOTE).links && |HistAt(w, NOTE)| == HEAD && HistAt(w, NOTE)[0] == {1}
    ensures var s := SessionAt(w, NOTE, 1);
      s.Settled() && s.log.at == HEAD && s.doc == {} && Agreement(HEAD, {}) in s.agreed
    ensures RowAt(w, NOTE).Some? && PointerAt(w, NOTE) == None && Stored(RowAt(w, NOTE).value) == {}
  {
    var room, c := ClosesOnEcho();
    var h, n, orphans := Strays(room, c);
    SnapshotDuo(room, h, n, orphans);
    StateOfHead(room, c);
    w := One(Duo(room.(row := Some(Compacted(room.row.value, Sealed({}), HEAD))), h, Taken(n), orphans));
  }
}
