/** One document at the hub with every session on it: the row, the whole log it stands for, and the sockets. */
module Rooms {
  import opened Common
  import opened Updates
  import opened Payloads
  import opened Rows
  import opened Docs
  import opened Sessions
  import opened Streams
  import opened Flights
  import opened SessionProofs
  import opened Links

  /** `hist` and `name` record the whole log; `orphans` are frames on sockets their session has left. */
  datatype Room = Room(row: Option<Row>, hist: seq<Update>, name: string, links: map<nat, Link>, orphans: seq<ClientFrame>)

  const EMPTY_ROOM := Room(None, [], "", map[], [])

  function TruthOf(room: Room): Truth { Truth(room.hist, room.name) }

  function Followers(links: map<nat, Link>): set<nat> { set k | k in links && links[k].follows }

  ghost predicate NameOk(room: Room)
  {
    && (room.row.Some? && room.row.value.moved == None ==> room.row.value.log == room.name)
    && (room.row.None? ==> room.name == "")
  }

  ghost predicate RoomOk(room: Room)
  {
    && RowOk(room.row, room.hist) && NameOk(room)
    && (forall k :: k in room.links ==> LinkOk(room.links[k], TruthOf(room)))
    && (forall f :: f in room.orphans ==> Safe(f, TruthOf(room)))
  }

  // ---- steps

  /** A session is opened on a room at least as long as this device knew it. */
  function WithSession(room: Room, sid: nat, knownSeq: nat, connected: bool): Room
  {
    if sid in room.links || knownSeq > |room.hist| then room
    else room.(links := room.links[sid := Link(Opened(knownSeq, connected), false, false, [], false)])
  }

  function WithAct(room: Room, sid: nat, a: Act): Room
  {
    if sid !in room.links then room
    else room.(links := room.links[sid := Stepped(room.links[sid], a)],
               orphans := room.orphans + Abandoned(room.links[sid], a))
  }

  /**
   * The document is opened again on the socket of a session just closed, which stays as one without a socket. What
   * this device knew of the log is what that session knew, or came to know; `missed` frames came while nobody listened.
   */
  predicate CanReopen(room: Room, before: nat, sid: nat, knownSeq: nat, missed: nat)
  {
    before in room.links && sid !in room.links &&
    var l := room.links[before];
    l.s.disposed && l.s.connected && knownSeq <= Max(l.s.log.at, l.s.log.knownSeq) && missed <= |l.down|
  }

  function WithReopened(room: Room, before: nat, sid: nat, knownSeq: nat, missed: nat): Room
  {
    if !CanReopen(room, before, sid, knownSeq, missed) then room
    else
      var l := room.links[before];
      room.(links := room.links[before := HandedOn(l)][sid := Reopened(l, knownSeq, missed)])
  }

  /** The hub drops a frame past its rate. */
  function WithDrop(room: Room, sid: nat): Room
  {
    if sid !in room.links || room.links[sid].s.up == [] then room
    else room.(links := room.links[sid := Taken(room.links[sid])])
  }

  /** The hub lets a socket go, before its session knows. */
  function WithCut(room: Room, sid: nat): Room
  {
    if sid !in room.links then room else room.(links := room.links[sid := room.links[sid].(follows := false)])
  }

  function Mailed(l: Link, k: nat, ans: Answer): Link
  {
    l.(follows := k in ans.followers, down := if k in ans.mail then l.down + [ans.mail[k]] else l.down)
  }

  function WithAnswer(room: Room, links: map<nat, Link>, ans: Answer, drawn: string): Room
  {
    Room(ans.row,
         if ans.logged.Some? then room.hist + [ans.logged.value.edits] else room.hist,
         if ans.logged.Some? && room.row.None? then drawn else room.name,
         map k | k in links :: Mailed(links[k], k, ans),
         room.orphans)
  }

  /** The hub answers the oldest frame of a socket. */
  function AnswerTo(doc: Frames.DocId, room: Room, sender: Sender, target: Option<Row>, drawn: string): Answer
    requires sender.tag in room.links && room.links[sender.tag].s.up != []
  {
    Handle(doc, room.row, Followers(room.links), sender, target, drawn, room.links[sender.tag].s.up[0])
  }

  function WithFrame(doc: Frames.DocId, room: Room, sender: Sender, target: Option<Row>, drawn: string): Room
    requires sender.tag in room.links && room.links[sender.tag].s.up != []
  {
    WithAnswer(room, room.links[sender.tag := Taken(room.links[sender.tag])],
               AnswerTo(doc, room, sender, target, drawn), drawn)
  }

  /** A frame still coming in on a socket nobody reads. */
  function OrphanAnswer(doc: Frames.DocId, room: Room, i: nat, sender: Sender, target: Option<Row>, drawn: string): Answer
    requires i < |room.orphans|
  {
    Handle(doc, room.row, Followers(room.links) + {sender.tag}, sender, target, drawn, room.orphans[i])
  }

  function WithOrphan(doc: Frames.DocId, room: Room, i: nat, sender: Sender, target: Option<Row>, drawn: string): Room
    requires i < |room.orphans|
  {
    WithAnswer(room, room.links, OrphanAnswer(doc, room, i, sender, target, drawn), drawn)
  }

  /** Another room's rotation seeds this one; its followers are told nothing. */
  function Seeded(room: Room, payload: Payload, drawn: string): Room
  {
    room.(row := Some(Appended(room.row, payload, drawn)), hist := room.hist + [payload.edits], name := drawn)
  }

  // ---- what they keep

  /** One link changed for another that is in order. */
  lemma {:induction false} WithLinkOk(room: Room, sid: nat, l: Link)
    requires RoomOk(room) && LinkOk(l, TruthOf(room))
    ensures RoomOk(room.(links := room.links[sid := l]))
  {
  }

  lemma {:induction false} OpenedTracked(knownSeq: nat, connected: bool)
    ensures var s := Opened(knownSeq, connected);
      s.up == (if connected then [Frames.Sub(0)] else []) && Tracked(s, [], 0)
  {
    var q: seq<ClientFrame> := [];
    UpAppended(q, Frames.Sub(0));
    assert q + [Frames.Sub(0)] == [Frames.Sub(0)];
  }

  lemma {:induction false} OpenedGood(knownSeq: nat, connected: bool, t: Truth)
    requires knownSeq <= |t.hist|
    ensures Good(Opened(knownSeq, connected), t)
  {
    assert Opened(knownSeq, connected).up == if connected then [Frames.Sub(0)] else [];
  }

  /** Nothing but a Sub is on the socket. */
  lemma {:induction false} QuietLive(l: Link, t: Truth)
    requires l.down == [] && !l.follows && !l.heard && !l.rested && !l.s.disposed && Tracked(l.s, [], 0)
    requires l.s.up == [] || l.s.up == [Frames.Sub(l.s.log.at)]
    ensures Live(l, t) && ClosedOk(l)
  {
    assert EchoNs(l.down) == [] && Answers(l) == 0;
  }

  lemma {:induction false} OpenedOk(room: Room, knownSeq: nat, connected: bool)
    requires knownSeq <= |room.hist|
    ensures LinkOk(Link(Opened(knownSeq, connected), false, false, [], false), TruthOf(room))
  {
    var s := Opened(knownSeq, connected);
    var l := Link(s, false, false, [], false);
    OpenedTracked(knownSeq, connected);
    OpenedGood(knownSeq, connected, TruthOf(room));
    assert s.log.at == 0 && !s.disposed;
    QuietLive(l, TruthOf(room));
  }

  lemma {:induction false} WithSessionOk(room: Room, sid: nat, knownSeq: nat, connected: bool)
    requires RoomOk(room)
    ensures RoomOk(WithSession(room, sid, knownSeq, connected))
  {
    if sid !in room.links && knownSeq <= |room.hist| {
      OpenedOk(room, knownSeq, connected);
      WithLinkOk(room, sid, Link(Opened(knownSeq, connected), false, false, [], false));
    }
  }

  lemma {:induction false} WithReopenedOk(room: Room, before: nat, sid: nat, knownSeq: nat, missed: nat)
    requires RoomOk(room)
    requires CanReopen(room, before, sid, knownSeq, missed) ==>
      Clear(room.links[before].s.up, room.links[before].down[missed..])
    ensures RoomOk(WithReopened(room, before, sid, knownSeq, missed))
  {
    if CanReopen(room, before, sid, knownSeq, missed) {
      var l := room.links[before];
      HandedOnOk(l, TruthOf(room));
      ReopenedOk(l, knownSeq, missed, TruthOf(room));
      WithLinkOk(room, before, HandedOn(l));
      WithLinkOk(room.(links := room.links[before := HandedOn(l)]), sid, Reopened(l, knownSeq, missed));
    }
  }

  lemma {:induction false} OrphansOk(room: Room, fs: seq<ClientFrame>)
    requires RoomOk(room) && forall f :: f in fs ==> Safe(f, TruthOf(room))
    ensures RoomOk(room.(orphans := room.orphans + fs))
  {
  }

  lemma {:induction false} WithActOk(room: Room, sid: nat, a: Act)
    requires RoomOk(room)
    ensures RoomOk(WithAct(room, sid, a))
  {
    if sid in room.links {
      var l := room.links[sid];
      SteppedOk(l, a, TruthOf(room));
      WithLinkOk(room, sid, Stepped(l, a));
      OrphansOk(room.(links := room.links[sid := Stepped(l, a)]), Abandoned(l, a));
    }
  }

  lemma {:induction false} WithDropOk(room: Room, sid: nat)
    requires RoomOk(room)
    ensures RoomOk(WithDrop(room, sid))
  {
    if sid in room.links && room.links[sid].s.up != [] {
      TakenOk(room.links[sid], TruthOf(room));
      WithLinkOk(room, sid, Taken(room.links[sid]));
    }
  }

  lemma {:induction false} WithCutOk(room: Room, sid: nat)
    requires RoomOk(room)
    ensures RoomOk(WithCut(room, sid))
  {
    if sid in room.links {
      UnfollowedOk(room.links[sid], TruthOf(room));
      WithLinkOk(room, sid, room.links[sid].(follows := false));
    }
  }

  ghost predicate AnswerOk(room: Room, ans: Answer, f: ClientFrame)
  {
    ans.logged.Some? ==>
      && (f.Update? || (f.Seed? && room.row.None?)) && ans.logged.value == f.payload
      && PointerOf(room.row) == None
  }

  /** What an answer may do to the row: leave it, write to it, compact it, or make it a pointer. */
  ghost predicate RowStep(row: Option<Row>, ans: Answer, drawn: string, f: ClientFrame)
  {
    || (ans.row == row && ans.logged == None)
    || (PointerOf(row) == None &&
        (|| ((f.Update? || (f.Seed? && row.None?)) && ans.logged == Some(f.payload) && ans.row == Some(Appended(row, f.payload, drawn)))
         || (f.Snapshot? && row.Some? && ans.logged == None && ans.row == Some(Compacted(row.value, f.payload, f.upto)))
         || (f.Rotate? && ans.logged == None && ans.row == Some(MovedRow(row, Pointer(f.target, f.note))))))
  }

  lemma {:induction false} RowStepped(doc: Frames.DocId, row: Option<Row>, followers: set<nat>, sender: Sender, target: Option<Row>, drawn: string, f: ClientFrame)
    ensures RowStep(row, Handle(doc, row, followers, sender, target, drawn, f), drawn, f)
  {
  }

  ghost predicate RowAnswered(room: Room, ans: Answer, drawn: string)
  {
    var r := WithAnswer(room, map[], ans, drawn);
    && RowOk(r.row, r.hist) && NameOk(r) && Grows(TruthOf(room), TruthOf(r))
    && (ans.logged.Some? ==> r.row.value.Head() == |r.hist|)
  }

  lemma {:induction false} WritesRow(room: Room, ans: Answer, drawn: string, payload: Payload)
    requires RowOk(room.row, room.hist) && NameOk(room) && drawn != "" && PointerOf(room.row) == None
    requires ans.logged == Some(payload) && ans.row == Some(Appended(room.row, payload, drawn))
    ensures RowAnswered(room, ans, drawn)
  {
    AppendedRepresents(room.row, room.hist, payload, drawn);
  }

  lemma {:induction false} CompactsRow(room: Room, ans: Answer, drawn: string, payload: Payload, upto: nat)
    requires RowOk(room.row, room.hist) && NameOk(room) && PointerOf(room.row) == None && room.row.Some?
    requires payload.size > 0 && Covers(payload, upto, TruthOf(room))
    requires ans.logged == None && ans.row == Some(Compacted(room.row.value, payload, upto))
    ensures RowAnswered(room, ans, drawn)
  {
    CompactedRepresents(room.row.value, room.hist, payload, upto);
  }

  lemma {:induction false} MovesRow(room: Room, ans: Answer, drawn: string, pointer: Pointer)
    requires RowOk(room.row, room.hist) && NameOk(room) && PointerOf(room.row) == None
    requires ans.logged == None && ans.row == Some(MovedRow(room.row, pointer))
    ensures RowAnswered(room, ans, drawn)
  {
  }

  lemma {:induction false} AnswerRowOk(doc: Frames.DocId, room: Room, followers: set<nat>, sender: Sender, target: Option<Row>, drawn: string, f: ClientFrame)
    requires RowOk(room.row, room.hist) && NameOk(room) && Safe(f, TruthOf(room)) && drawn != ""
    ensures var ans := Handle(doc, room.row, followers, sender, target, drawn, f);
      var r := WithAnswer(room, map[], ans, drawn);
      && AnswerOk(room, ans, f)
      && RowOk(r.row, r.hist) && NameOk(r) && Grows(TruthOf(room), TruthOf(r))
      && (ans.logged.Some? ==> r.row.value.Head() == |r.hist|)
  {
    var ans := Handle(doc, room.row, followers, sender, target, drawn, f);
    RowStepped(doc, room.row, followers, sender, target, drawn, f);
    assert RowAnswered(room, ans, drawn) by {
      if ans.logged.Some? { WritesRow(room, ans, drawn, f.payload); }
      else if ans.row != room.row {
        if f.Snapshot? { CompactsRow(room, ans, drawn, f.payload, f.upto); } else { MovesRow(room, ans, drawn, Pointer(f.target, f.note)); }
      }
    }
  }

  /** Everyone but the sender keeps following or not, and hears of the log or something quiet. */
  lemma {:induction false} OthersHear(doc: Frames.DocId, row: Option<Row>, followers: set<nat>, k: nat, sender: Sender, target: Option<Row>, drawn: string, f: ClientFrame)
    requires k != sender.tag
    ensures var ans := Handle(doc, row, followers, sender, target, drawn, f);
      && (k in ans.followers <==> k in followers)
      && (if ans.logged.Some? then
            && (k in ans.mail <==> k in followers)
            && (k in followers ==> ans.mail[k] == Frames.Fanout(HeadOf(ans.row), sender.tag, ans.logged.value))
          else k in ans.mail ==> Quiet(ans.mail[k]))
  {
  }

  /** The sender hears the echo of what was logged, or a State, or something quiet. */
  lemma {:induction false} SenderHears(doc: Frames.DocId, row: Option<Row>, followers: set<nat>, sender: Sender, target: Option<Row>, drawn: string, f: ClientFrame)
    ensures var ans := Handle(doc, row, followers, sender, target, drawn, f);
      if ans.logged.Some? then
        && sender.tag in followers && sender.tag in ans.followers
        && sender.tag in ans.mail && ans.mail[sender.tag] == Frames.Echo(HeadOf(ans.row), f.n)
      else
        sender.tag in ans.mail ==> ans.mail[sender.tag].State? || Quiet(ans.mail[sender.tag])
    ensures var ans := Handle(doc, row, followers, sender, target, drawn, f);
      sender.tag in ans.followers ==> sender.tag in followers || (sender.tag in ans.mail && ans.mail[sender.tag].State?)
  {
  }

  /** What the answer brings to a session other than the sender. */
  lemma {:induction false} OtherLinkOk(doc: Frames.DocId, room: Room, followers: set<nat>, k: nat, sender: Sender, target: Option<Row>, drawn: string, f: ClientFrame)
    requires RoomOk(room) && k in room.links && k != sender.tag && Safe(f, TruthOf(room)) && drawn != ""
    requires k in followers <==> room.links[k].follows
    ensures var ans := Handle(doc, room.row, followers, sender, target, drawn, f);
      LinkOk(Mailed(room.links[k], k, ans), TruthOf(WithAnswer(room, map[], ans, drawn)))
  {
    var ans := Handle(doc, room.row, followers, sender, target, drawn, f);
    AnswerRowOk(doc, room, followers, sender, target, drawn, f);
    OthersHear(doc, room.row, followers, k, sender, target, drawn, f);
    MailOk(room, room.links[k], k, sender.tag, ans, drawn);
  }

  lemma {:induction false} MailOk(room: Room, l: Link, k: nat, from: nat, ans: Answer, drawn: string)
    requires LinkOk(l, TruthOf(room)) && (k in ans.followers <==> l.follows)
    requires var r := WithAnswer(room, map[], ans, drawn);
      Grows(TruthOf(room), TruthOf(r)) && (ans.logged.Some? ==> HeadOf(ans.row) == |r.hist|)
    requires if ans.logged.Some? then
        && (k in ans.mail <==> l.follows)
        && (l.follows ==> ans.mail[k] == Frames.Fanout(HeadOf(ans.row), from, ans.logged.value))
      else k in ans.mail ==> Quiet(ans.mail[k])
    ensures LinkOk(Mailed(l, k, ans), TruthOf(WithAnswer(room, map[], ans, drawn)))
  {
    var t, u := TruthOf(room), TruthOf(WithAnswer(room, map[], ans, drawn));
    if ans.logged.Some? {
      if l.follows {
        ToldFanoutOk(l, t, u, from, ans.logged.value);
        assert Mailed(l, k, ans) == Told(l, ans.mail[k]);
      } else {
        GrownOk(l, t, u);
        assert Mailed(l, k, ans) == l;
      }
    } else if k in ans.mail {
      ToldQuietOk(l, ans.mail[k], t);
      assert Mailed(l, k, ans) == Told(l, ans.mail[k]);
    } else {
      assert Mailed(l, k, ans) == l;
    }
  }

  /** What the answer brings to the sender. */
  lemma {:induction false} SenderLinkOk(doc: Frames.DocId, room: Room, sender: Sender, target: Option<Row>, drawn: string)
    requires RoomOk(room) && sender.tag in room.links && room.links[sender.tag].s.up != [] && drawn != ""
    ensures var ans := AnswerTo(doc, room, sender, target, drawn);
      LinkOk(Mailed(Taken(room.links[sender.tag]), sender.tag, ans), TruthOf(WithAnswer(room, map[], ans, drawn)))
  {
    var k := sender.tag;
    var l := room.links[k];
    var f, t := l.s.up[0], TruthOf(room);
    var ans := AnswerTo(doc, room, sender, target, drawn);
    var u := TruthOf(WithAnswer(room, map[], ans, drawn));
    assert f in l.s.up;
    AnswerRowOk(doc, room, Followers(room.links), sender, target, drawn, f);
    SenderHears(doc, room.row, Followers(room.links), sender, target, drawn, f);
    if ans.logged.Some? {
      if f.Seed? { assert t.hist == []; }
      ToldEchoOk(l, t, u, f);
      assert Mailed(Taken(l), k, ans) == Told(Taken(l), ans.mail[k]);
    } else if k in ans.mail && ans.mail[k].State? {
      SenderStateOk(doc, room, sender, target, drawn);
    } else {
      SenderQuietOk(l, k, ans, t);
    }
  }

  lemma {:induction false} SenderQuietOk(l: Link, k: nat, ans: Answer, t: Truth)
    requires LinkOk(l, t) && l.s.up != [] && (k in ans.followers ==> l.follows)
    requires k in ans.mail ==> Quiet(ans.mail[k])
    ensures LinkOk(Mailed(Taken(l), k, ans), t)
  {
    TakenOk(l, t);
    UnfollowedOk(Taken(l), t);
    var n := Taken(l).(follows := k in ans.followers);
    if k in ans.mail {
      ToldQuietOk(n, ans.mail[k], t);
      assert Mailed(Taken(l), k, ans) == Told(n, ans.mail[k]);
    } else {
      assert Mailed(Taken(l), k, ans) == n;
    }
  }

  /** What a State answers from. */
  function SinceOf(f: ClientFrame): nat
  {
    match f
    case Sub(since) => since
    case Rotate(_, upto, _, _) => upto
    case _ => 0
  }

  lemma {:induction false} SubscribedState(doc: Frames.DocId, row: Option<Row>, followers: set<nat>, sender: Sender, since: nat)
    requires var ans := Subscribe(doc, row, followers, sender, since); sender.tag in ans.mail && ans.mail[sender.tag].State?
    ensures var ans := Subscribe(doc, row, followers, sender, since);
      ans.mail[sender.tag] == StateFrom(row, since) && sender.tag in ans.followers
  {
  }

  lemma {:induction false} RotatedState(doc: Frames.DocId, row: Option<Row>, followers: set<nat>, tag: nat, target: Option<Row>, f: ClientFrame)
    requires f.Rotate?
    requires var ans := RotateRoom(doc, row, followers, tag, target, f); tag in ans.mail && ans.mail[tag].State?
    ensures var ans := RotateRoom(doc, row, followers, tag, target, f);
      ans.mail[tag] == StateFrom(row, f.upto) && ans.followers == followers
  {
  }

  lemma {:induction false} FollowedState(doc: Frames.DocId, row: Option<Row>, followers: set<nat>, sender: Sender, target: Option<Row>, drawn: string, f: ClientFrame)
    requires !f.Sub? && sender.tag in followers
    requires var ans := Followed(doc, row, followers, sender, target, drawn, f); sender.tag in ans.mail && ans.mail[sender.tag].State?
    ensures var ans := Followed(doc, row, followers, sender, target, drawn, f);
      ans.mail[sender.tag] == StateFrom(row, SinceOf(f)) && sender.tag in ans.followers
    ensures f.Seed? || f.Rotate?
  {
    if f.Rotate? && PointerOf(row) == None && !sender.readOnly { RotatedState(doc, row, followers, sender.tag, target, f); }
  }

  lemma {:induction false} SenderStateIs(doc: Frames.DocId, row: Option<Row>, followers: set<nat>, sender: Sender, target: Option<Row>, drawn: string, f: ClientFrame)
    requires var ans := Handle(doc, row, followers, sender, target, drawn, f); sender.tag in ans.mail && ans.mail[sender.tag].State?
    ensures var ans := Handle(doc, row, followers, sender, target, drawn, f);
      ans.mail[sender.tag] == StateFrom(row, SinceOf(f)) && sender.tag in ans.followers
    ensures f.Sub? || f.Seed? || f.Rotate?
  {
    if f.Sub? {
      SubscribedState(doc, row, followers, sender, f.since);
    } else if sender.tag in followers {
      FollowedState(doc, row, followers, sender, target, drawn, f);
    }
  }

  lemma {:induction false} SenderStateOk(doc: Frames.DocId, room: Room, sender: Sender, target: Option<Row>, drawn: string)
    requires RoomOk(room) && sender.tag in room.links && room.links[sender.tag].s.up != [] && drawn != ""
    requires var ans := AnswerTo(doc, room, sender, target, drawn); sender.tag in ans.mail && ans.mail[sender.tag].State?
    ensures var ans := AnswerTo(doc, room, sender, target, drawn);
      LinkOk(Mailed(Taken(room.links[sender.tag]), sender.tag, ans), TruthOf(room))
  {
    var k := sender.tag;
    var l := room.links[k];
    var f, t := l.s.up[0], TruthOf(room);
    var ans := AnswerTo(doc, room, sender, target, drawn);
    SenderStateIs(doc, room.row, Followers(room.links), sender, target, drawn, f);
    StateMailOk(l, t, room.row, ans.mail[k], k in Followers(room.links));
    assert Mailed(Taken(l), k, ans) == Told(Taken(l).(follows := true), ans.mail[k]);
  }

  lemma {:induction false} StateMailOk(l: Link, t: Truth, row: Option<Row>, answer: ServerFrame, followed: bool)
    requires LinkOk(l, t) && l.s.up != [] && Asking(l.s.up[0]) && (l.s.up[0].Sub? || (followed && l.follows))
    requires RowOk(row, t.hist) && PointerOf(row) == None && (row.Some? ==> row.value.log == t.name)
    requires answer == StateFrom(row, SinceOf(l.s.up[0]))
    ensures LinkOk(Told(Taken(l).(follows := true), answer), t)
  {
    var f, m := l.s.up[0], Taken(l);
    assert f in l.s.up && !Harmless(f);
    TakenOk(l, t);
    TakenTracked(l.s, EchoNs(l.down), Answers(l));
    NoneLeft(l);
    AheadOk(l, t);
    if f.Sub? { StillEnd(Start(l), l.down); }
    ToldStateOk(m, t, row, SinceOf(f));
  }

  lemma {:induction false} WithFrameOk(doc: Frames.DocId, room: Room, sender: Sender, target: Option<Row>, drawn: string)
    requires RoomOk(room) && sender.tag in room.links && room.links[sender.tag].s.up != [] && drawn != ""
    ensures RoomOk(WithFrame(doc, room, sender, target, drawn))
    ensures Grows(TruthOf(room), TruthOf(WithFrame(doc, room, sender, target, drawn)))
  {
    var f := room.links[sender.tag].s.up[0];
    assert f in room.links[sender.tag].s.up;
    var r := WithFrame(doc, room, sender, target, drawn);
    AnswerRowOk(doc, room, Followers(room.links), sender, target, drawn, f);
    forall k | k in r.links ensures LinkOk(r.links[k], TruthOf(r)) {
      if k == sender.tag {
        SenderLinkOk(doc, room, sender, target, drawn);
      } else {
        OtherLinkOk(doc, room, Followers(room.links), k, sender, target, drawn, f);
      }
    }
    forall g | g in r.orphans ensures Safe(g, TruthOf(r)) {
      SafeGrows(g, TruthOf(room), TruthOf(r));
    }
  }

  lemma {:induction false} OrphanLink(doc: Frames.DocId, room: Room, i: nat, sender: Sender, target: Option<Row>, drawn: string, k: nat)
    requires RoomOk(room) && i < |room.orphans| && sender.tag !in room.links && drawn != "" && k in room.links
    ensures var r := WithOrphan(doc, room, i, sender, target, drawn); LinkOk(r.links[k], TruthOf(r))
  {
    var f, followers := room.orphans[i], Followers(room.links) + {sender.tag};
    var ans := Handle(doc, room.row, followers, sender, target, drawn, f);
    assert f in room.orphans && k != sender.tag && (k in followers <==> room.links[k].follows);
    OtherLinkOk(doc, room, followers, k, sender, target, drawn, f);
    var r := WithAnswer(room, room.links, ans, drawn);
    assert r.links[k] == Mailed(room.links[k], k, ans);
    assert WithOrphan(doc, room, i, sender, target, drawn) == r;
  }

  lemma {:induction false} OrphanLinks(doc: Frames.DocId, room: Room, i: nat, sender: Sender, target: Option<Row>, drawn: string)
    requires RoomOk(room) && i < |room.orphans| && sender.tag !in room.links && drawn != ""
    ensures var r := WithOrphan(doc, room, i, sender, target, drawn);
      forall k :: k in r.links ==> LinkOk(r.links[k], TruthOf(r))
  {
    var r := WithOrphan(doc, room, i, sender, target, drawn);
    forall k | k in r.links ensures LinkOk(r.links[k], TruthOf(r)) {
      OrphanLink(doc, room, i, sender, target, drawn, k);
    }
  }

  lemma {:induction false} WithOrphanOk(doc: Frames.DocId, room: Room, i: nat, sender: Sender, target: Option<Row>, drawn: string)
    requires RoomOk(room) && i < |room.orphans| && sender.tag !in room.links && drawn != ""
    ensures RoomOk(WithOrphan(doc, room, i, sender, target, drawn))
    ensures Grows(TruthOf(room), TruthOf(WithOrphan(doc, room, i, sender, target, drawn)))
  {
    var f := room.orphans[i];
    assert f in room.orphans;
    var followers := Followers(room.links) + {sender.tag};
    var r := WithOrphan(doc, room, i, sender, target, drawn);
    AnswerRowOk(doc, room, followers, sender, target, drawn, f);
    OrphanLinks(doc, room, i, sender, target, drawn);
    forall g | g in r.orphans ensures Safe(g, TruthOf(r)) {
      SafeGrows(g, TruthOf(room), TruthOf(r));
    }
  }

  lemma {:induction false} SeededOk(room: Room, payload: Payload, drawn: string)
    requires RoomOk(room) && room.row == None && drawn != ""
    ensures RoomOk(Seeded(room, payload, drawn)) && Grows(TruthOf(room), TruthOf(Seeded(room, payload, drawn)))
  {
    var r := Seeded(room, payload, drawn);
    AppendedRepresents(None, room.hist, payload, drawn);
    forall k | k in r.links ensures LinkOk(r.links[k], TruthOf(r)) {
      GrownOk(room.links[k], TruthOf(room), TruthOf(r));
    }
    forall g | g in r.orphans ensures Safe(g, TruthOf(r)) {
      SafeGrows(g, TruthOf(room), TruthOf(r));
    }
  }
}
