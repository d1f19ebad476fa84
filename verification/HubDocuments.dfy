/**
 * The hub of one channel at work on its tables and sockets: `Documents` of packages/relay/src/hub/docs.ts with the
 * delivery of frames.ts. Each handler leaves what `Docs` says, for every document and every socket.
 */
module HubDocuments {
  import opened Common
  import opened Payloads
  import opened Rows
  import opened CacheKeys
  import opened Stores
  import opened Docs

  type DocId = Frames.DocId

  datatype Letter = Letter(doc: DocId, frame: ServerFrame)

  /** An admitted socket: its grant, the documents it follows, and what was sent to it. */
  datatype Socket = Socket(readOnly: bool, who: string, name: string, subs: set<DocId>, inbox: seq<Letter>)

  type Sockets = map<nat, Socket>

  function FollowersIn(sockets: Sockets, doc: DocId): set<nat> { set t | t in sockets && doc in sockets[t].subs }

  function SenderOf(sockets: Sockets, tag: nat): Sender
    requires tag in sockets
  {
    var s := sockets[tag];
    Sender(tag, s.readOnly, s.who, s.name, |s.subs|)
  }

  function Answered(s: Socket, tag: nat, doc: DocId, ans: Answer): Socket
  {
    s.(subs := if tag in ans.followers then s.subs + {doc} else s.subs - {doc},
       inbox := if tag in ans.mail then s.inbox + [Letter(doc, ans.mail[tag])] else s.inbox)
  }

  /** Every socket gets its frame of the answer, and follows the document or not as the answer says. */
  function Delivered(sockets: Sockets, doc: DocId, ans: Answer): Sockets
  {
    map t | t in sockets :: Answered(sockets[t], t, doc, ans)
  }

  lemma {:induction false} SilenceDelivers(sockets: Sockets, doc: DocId, row: Option<Row>)
    ensures Delivered(sockets, doc, Silence(row, FollowersIn(sockets, doc))) == sockets
  {
    var x := Delivered(sockets, doc, Silence(row, FollowersIn(sockets, doc)));
    assert forall t :: t in sockets ==> x[t] == sockets[t];
  }

  function Posted(sockets: Sockets, tag: nat, doc: DocId, f: ServerFrame): Sockets
    requires tag in sockets
  {
    sockets[tag := sockets[tag].(inbox := sockets[tag].inbox + [Letter(doc, f)])]
  }

  lemma {:induction false} ReplyDelivers(sockets: Sockets, doc: DocId, row: Option<Row>, tag: nat, f: ServerFrame)
    requires tag in sockets
    ensures Delivered(sockets, doc, Reply(row, FollowersIn(sockets, doc), tag, f)) == Posted(sockets, tag, doc, f)
  {
    var x, y := Delivered(sockets, doc, Reply(row, FollowersIn(sockets, doc), tag, f)), Posted(sockets, tag, doc, f);
    assert forall t :: t in sockets ==> x[t] == y[t];
  }

  function Hears(s: Socket, t: nat, doc: DocId, f: ServerFrame, except: Option<nat>): Socket
  {
    if doc in s.subs && except != Some(t) then s.(inbox := s.inbox + [Letter(doc, f)]) else s
  }

  function Spread(sockets: Sockets, doc: DocId, f: ServerFrame, except: Option<nat>): Sockets
  {
    map t | t in sockets :: Hears(sockets[t], t, doc, f, except)
  }

  lemma {:induction false} SameSockets(x: Sockets, y: Sockets)
    requires x.Keys == y.Keys && forall t :: t in x ==> x[t] == y[t]
    ensures x == y
  {
  }

  lemma {:induction false} LoggedDelivers(sockets: Sockets, doc: DocId, row: Option<Row>, tag: nat, n: nat, payload: Payload, drawn: string)
    requires tag in sockets && doc in sockets[tag].subs
    ensures var at := Appended(row, payload, drawn).Head();
      Delivered(sockets, doc, Logged(row, FollowersIn(sockets, doc), tag, n, payload, drawn))
      == Spread(Posted(sockets, tag, doc, Frames.Echo(at, n)), doc, Frames.Fanout(at, tag, payload), Some(tag))
  {
    var at := Appended(row, payload, drawn).Head();
    var ans := Logged(row, FollowersIn(sockets, doc), tag, n, payload, drawn);
    var y := Spread(Posted(sockets, tag, doc, Frames.Echo(at, n)), doc, Frames.Fanout(at, tag, payload), Some(tag));
    forall t | t in sockets ensures Answered(sockets[t], t, doc, ans) == y[t] {
      StillFollows(sockets[t], doc);
    }
    SameSockets(Delivered(sockets, doc, ans), y);
  }

  /** Following on, or not following still. */
  lemma {:induction false} StillFollows(s: Socket, doc: DocId)
    ensures if doc in s.subs then s.subs + {doc} == s.subs else s.subs - {doc} == s.subs
  {
  }

  lemma {:induction false} SpreadDelivers(sockets: Sockets, doc: DocId, row: Option<Row>, tag: nat, f: ServerFrame)
    ensures var followers := FollowersIn(sockets, doc);
      Delivered(sockets, doc, Answer(row, followers, Docs.ToFollowers(followers, tag, f), None, None))
      == Spread(sockets, doc, f, Some(tag))
  {
    var followers := FollowersIn(sockets, doc);
    var x := Delivered(sockets, doc, Answer(row, followers, Docs.ToFollowers(followers, tag, f), None, None));
    assert forall t :: t in sockets ==> x[t] == Spread(sockets, doc, f, Some(tag))[t];
  }

  function Left(sockets: Sockets, tag: nat, doc: DocId): Sockets
    requires tag in sockets
  {
    sockets[tag := sockets[tag].(subs := sockets[tag].subs - {doc})]
  }

  lemma {:induction false} UnsubDelivers(sockets: Sockets, doc: DocId, row: Option<Row>, tag: nat)
    requires tag in sockets
    ensures var followers := FollowersIn(sockets, doc);
      Delivered(sockets, doc, Answer(row, followers - {tag}, Docs.ToFollowers(followers, tag, Frames.Leave(tag)), None, None))
      == Spread(Left(sockets, tag, doc), doc, Frames.Leave(tag), Some(tag))
  {
    var followers := FollowersIn(sockets, doc);
    var ans := Answer(row, followers - {tag}, Docs.ToFollowers(followers, tag, Frames.Leave(tag)), None, None);
    var y := Spread(Left(sockets, tag, doc), doc, Frames.Leave(tag), Some(tag));
    forall t | t in sockets ensures Answered(sockets[t], t, doc, ans) == y[t] {
      if t == tag {
        assert y[t].subs == sockets[t].subs - {doc};
      } else {
        assert t in ans.followers <==> doc in sockets[t].subs;
      }
    }
  }

  function Joined(sockets: Sockets, tag: nat, doc: DocId): Sockets
    requires tag in sockets
  {
    sockets[tag := sockets[tag].(subs := sockets[tag].subs + {doc})]
  }

  lemma {:induction false} AgainDelivers(sockets: Sockets, doc: DocId, row: Option<Row>, tag: nat, since: nat)
    requires tag in sockets && |doc| <= Frames.MAX_DOC_ID_LENGTH && PointerOf(row) == None && doc in sockets[tag].subs
    ensures Delivered(sockets, doc, Subscribe(doc, row, FollowersIn(sockets, doc), SenderOf(sockets, tag), since))
         == Posted(sockets, tag, doc, StateFrom(row, since))
  {
    var ans := Subscribe(doc, row, FollowersIn(sockets, doc), SenderOf(sockets, tag), since);
    var y := Posted(sockets, tag, doc, StateFrom(row, since));
    forall t | t in sockets ensures Answered(sockets[t], t, doc, ans) == y[t] {
      StillFollows(sockets[t], doc);
    }
    SameSockets(Delivered(sockets, doc, ans), y);
  }

  /** A new follower's answer: it is let in, and sent the room. */
  lemma {:induction false} WelcomedHere(sockets: Sockets, doc: DocId, row: Option<Row>, tag: nat, since: nat)
    requires tag in sockets && |doc| <= Frames.MAX_DOC_ID_LENGTH && PointerOf(row) == None
    requires doc !in sockets[tag].subs && |sockets[tag].subs| < Frames.MAX_DOC_SUBS
    ensures var ans := Subscribe(doc, row, FollowersIn(sockets, doc), SenderOf(sockets, tag), since);
      Answered(sockets[tag], tag, doc, ans)
      == sockets[tag].(subs := sockets[tag].subs + {doc}, inbox := sockets[tag].inbox + [Letter(doc, StateFrom(row, since))])
  {
  }

  /** Another socket's: those that follow hear of it. */
  lemma {:induction false} WelcomedThere(sockets: Sockets, doc: DocId, row: Option<Row>, tag: nat, since: nat, t: nat)
    requires tag in sockets && |doc| <= Frames.MAX_DOC_ID_LENGTH && PointerOf(row) == None
    requires doc !in sockets[tag].subs && |sockets[tag].subs| < Frames.MAX_DOC_SUBS && t in sockets && t != tag
    ensures var ans := Subscribe(doc, row, FollowersIn(sockets, doc), SenderOf(sockets, tag), since);
      Answered(sockets[t], t, doc, ans) == Hears(sockets[t], t, doc, Frames.Join(tag, sockets[tag].who, sockets[tag].name), Some(tag))
  {
    StillFollows(sockets[t], doc);
  }

  /** A newcomer is let in, sent the room, and announced. */
  lemma {:induction false} WelcomeDelivers(sockets: Sockets, doc: DocId, row: Option<Row>, tag: nat, since: nat)
    requires tag in sockets && |doc| <= Frames.MAX_DOC_ID_LENGTH && PointerOf(row) == None
    requires doc !in sockets[tag].subs && |sockets[tag].subs| < Frames.MAX_DOC_SUBS
    ensures var join := Frames.Join(tag, sockets[tag].who, sockets[tag].name);
      Delivered(sockets, doc, Subscribe(doc, row, FollowersIn(sockets, doc), SenderOf(sockets, tag), since))
      == Spread(Posted(Joined(sockets, tag, doc), tag, doc, StateFrom(row, since)), doc, join, Some(tag))
  {
    var join := Frames.Join(tag, sockets[tag].who, sockets[tag].name);
    var x := Delivered(sockets, doc, Subscribe(doc, row, FollowersIn(sockets, doc), SenderOf(sockets, tag), since));
    var y := Spread(Posted(Joined(sockets, tag, doc), tag, doc, StateFrom(row, since)), doc, join, Some(tag));
    forall t | t in sockets ensures x[t] == y[t] {
      if t == tag { WelcomedHere(sockets, doc, row, tag, since); } else { WelcomedThere(sockets, doc, row, tag, since, t); }
    }
    SameSockets(x, y);
  }

  lemma {:induction false} MovedDelivers(sockets: Sockets, doc: DocId, row: Option<Row>, pointer: Pointer, seeded: Option<Payload>)
    ensures var followers := FollowersIn(sockets, doc);
      Delivered(sockets, doc, Answer(row, followers, map t | t in followers :: MovedFrame(pointer), None, seeded))
      == Spread(sockets, doc, MovedFrame(pointer), None)
  {
    var followers := FollowersIn(sockets, doc);
    var x := Delivered(sockets, doc, Answer(row, followers, map t | t in followers :: MovedFrame(pointer), None, seeded));
    assert forall t :: t in sockets ==> x[t] == Spread(sockets, doc, MovedFrame(pointer), None)[t];
  }

  /** The tables and the sockets together. */
  datatype Hub = Hub(rows: map<Key, Row>, sockets: Sockets)

  /** What `Docs` answers to a frame in this state. */
  function AnswerIn(hub: Hub, channel: string, tag: nat, doc: DocId, drawn: string, f: ClientFrame): Answer
    requires tag in hub.sockets
  {
    Handle(doc, RowIn(hub.rows, Key(channel, doc)), FollowersIn(hub.sockets, doc), SenderOf(hub.sockets, tag),
           if f.Rotate? then RowIn(hub.rows, Key(channel, f.target)) else None, drawn, f)
  }

  /** The row answered for, and the seed of a rotation's target, are all that changes in the tables. */
  function After(hub: Hub, channel: string, doc: DocId, drawn: string, f: ClientFrame, ans: Answer): Hub
  {
    var seeded := if ans.seeded.Some? && f.Rotate?
                  then hub.rows[Key(channel, f.target) := Appended(None, ans.seeded.value, drawn)] else hub.rows;
    Hub(if ans.row.Some? then seeded[Key(channel, doc) := ans.row.value] else seeded,
        Delivered(hub.sockets, doc, ans))
  }

  /** An answer that leaves the row alone leaves all of them. */
  lemma {:induction false} SameRow(hub: Hub, channel: string, doc: DocId, drawn: string, f: ClientFrame, ans: Answer)
    requires ans.row == RowIn(hub.rows, Key(channel, doc)) && ans.seeded == None
    ensures After(hub, channel, doc, drawn, f, ans).rows == hub.rows
  {
  }

  /** What a seed does to the tables and the sockets. */
  lemma {:induction false} FirstAnswered(hub: Hub, channel: string, tag: nat, doc: DocId, drawn: string, f: ClientFrame)
    requires tag in hub.sockets && doc in hub.sockets[tag].subs && !hub.sockets[tag].readOnly
    requires f.Seed? && PointerOf(RowIn(hub.rows, Key(channel, doc))) == None
    ensures var k, row := Key(channel, doc), RowIn(hub.rows, Key(channel, doc));
      After(hub, channel, doc, drawn, f, AnswerIn(hub, channel, tag, doc, drawn, f))
      == if row.Some? then Hub(hub.rows, Posted(hub.sockets, tag, doc, StateFrom(row, 0)))
         else Hub(hub.rows[k := Appended(None, f.payload, drawn)],
                  Spread(Posted(hub.sockets, tag, doc, Frames.Echo(1, f.n)), doc, Frames.Fanout(1, tag, f.payload), Some(tag)))
  {
    var row := RowIn(hub.rows, Key(channel, doc));
    if row.Some? {
      ReplyDelivers(hub.sockets, doc, row, tag, StateFrom(row, 0));
      SameRow(hub, channel, doc, drawn, f, AnswerIn(hub, channel, tag, doc, drawn, f));
    } else {
      LoggedDelivers(hub.sockets, doc, row, tag, f.n, f.payload, drawn);
    }
  }

  class Documents {
    const channel: string
    const store: SqlDocStore
    var sockets: Sockets

    ghost predicate Valid()
      reads store
    {
      store.Valid()
    }

    ghost function Contents(): Hub
      reads this, store
      requires Valid()
    {
      Hub(store.Rows(), sockets)
    }

    constructor (channel: string)
      ensures Valid() && this.channel == channel && Contents() == Hub(map[], map[]) && fresh(store)
    {
      this.channel := channel;
      store := new SqlDocStore();
      sockets := map[];
    }

    method Send(tag: nat, doc: DocId, f: ServerFrame)
      requires tag in sockets
      modifies this
      ensures sockets == Posted(old(sockets), tag, doc, f)
    {
      sockets := sockets[tag := sockets[tag].(inbox := sockets[tag].inbox + [Letter(doc, f)])];
    }

    /** To each socket that follows the document, one after another. */
    method ToFollowers(doc: DocId, f: ServerFrame, except: Option<nat>)
      modifies this
      ensures sockets == Spread(old(sockets), doc, f, except)
    {
      var left := sockets.Keys;
      ghost var all := sockets;
      while left != {}
        invariant left <= all.Keys == sockets.Keys
        invariant forall t :: t in all ==> sockets[t] == if t in left then all[t] else Hears(all[t], t, doc, f, except)
        decreases left
      {
        var t :| t in left;
        sockets := sockets[t := Hears(sockets[t], t, doc, f, except)];
        left := left - {t};
      }
    }

    method SendMoved(tag: nat, doc: DocId) returns (moved: bool)
      requires Valid() && tag in sockets
      modifies this, store
      ensures Valid() && store.Rows() == old(store.Rows())
      ensures var p := PointerOf(store.RowOf(Key(channel, doc)));
        moved == p.Some? && sockets == if moved then Posted(old(sockets), tag, doc, MovedFrame(p.value)) else old(sockets)
    {
      var pointer := store.MovedTo(Key(channel, doc));
      if pointer.Some? { Send(tag, doc, MovedFrame(pointer.value)); }
      moved := pointer.Some?;
    }

    method SendState(tag: nat, doc: DocId, since: nat)
      requires Valid() && tag in sockets
      modifies this
      ensures sockets == Posted(old(sockets), tag, doc, StateFrom(store.RowOf(Key(channel, doc)), since))
    {
      var state := store.State(Key(channel, doc), since);
      Send(tag, doc, state);
    }

    /** One frame from a socket leaves exactly what the answer says, for this document and every other. */
    method HandleFrame(tag: nat, doc: DocId, drawn: string, f: ClientFrame)
      requires Valid() && tag in sockets
      modifies this, store
      ensures Valid()
      ensures Contents() == After(old(Contents()), channel, doc, drawn, f, AnswerIn(old(Contents()), channel, tag, doc, drawn, f))
    {
      if f.Sub? {
        OnSub(tag, doc, f.since, drawn);
      } else if doc in sockets[tag].subs {
        OnFollowed(tag, doc, drawn, f);
      } else {
        ghost var row := store.RowOf(Key(channel, doc));
        SilenceDelivers(sockets, doc, row);
        SameRow(Contents(), channel, doc, drawn, f, Silence(row, FollowersIn(sockets, doc)));
      }
    }

    method OnSub(tag: nat, doc: DocId, since: nat, drawn: string)
      requires Valid() && tag in sockets
      modifies this, store
      ensures Valid()
      ensures var f, h := Frames.Sub(since), old(Contents());
        Contents() == After(h, channel, doc, drawn, f, AnswerIn(h, channel, tag, doc, drawn, f))
    {
      ghost var row := store.RowOf(Key(channel, doc));
      ghost var f := Frames.Sub(since);
      ghost var h := Contents();
      SameRow(h, channel, doc, drawn, f, AnswerIn(h, channel, tag, doc, drawn, f));
      if |doc| > Frames.MAX_DOC_ID_LENGTH {
        SilenceDelivers(sockets, doc, row);
        return;
      }
      if PointerOf(row).Some? { ReplyDelivers(sockets, doc, row, tag, MovedFrame(PointerOf(row).value)); }
      var gone := SendMoved(tag, doc);
      if gone { return; }
      var isNew := doc !in sockets[tag].subs;
      if isNew && |sockets[tag].subs| >= Frames.MAX_DOC_SUBS {
        ReplyDelivers(sockets, doc, row, tag, Frames.Refused(Frames.TooManyDocs));
        Send(tag, doc, Frames.Refused(Frames.TooManyDocs));
        return;
      }
      if isNew { WelcomeDelivers(sockets, doc, row, tag, since); } else { AgainDelivers(sockets, doc, row, tag, since); }
      if isNew { sockets := sockets[tag := sockets[tag].(subs := sockets[tag].subs + {doc})]; }
      SendState(tag, doc, since);
      if isNew { ToFollowers(doc, Frames.Join(tag, sockets[tag].who, sockets[tag].name), Some(tag)); }
    }

    method OnFollowed(tag: nat, doc: DocId, drawn: string, f: ClientFrame)
      requires Valid() && tag in sockets && doc in sockets[tag].subs && !f.Sub?
      modifies this, store
      ensures Valid()
      ensures Contents() == After(old(Contents()), channel, doc, drawn, f, AnswerIn(old(Contents()), channel, tag, doc, drawn, f))
    {
      ghost var h := Contents();
      ghost var row, ans := store.RowOf(Key(channel, doc)), AnswerIn(h, channel, tag, doc, drawn, f);
      if f.Unsub? {
        UnsubDelivers(sockets, doc, row, tag);
        SameRow(h, channel, doc, drawn, f, ans);
        sockets := sockets[tag := sockets[tag].(subs := sockets[tag].subs - {doc})];
        ToFollowers(doc, Frames.Leave(tag), Some(tag));
        return;
      }
      if PointerOf(row).Some? {
        ReplyDelivers(sockets, doc, row, tag, MovedFrame(PointerOf(row).value));
        SameRow(h, channel, doc, drawn, f, ans);
      }
      var gone := SendMoved(tag, doc);
      if gone { return; }
      if f.Awareness? {
        SpreadDelivers(sockets, doc, row, tag, Frames.Peer(tag, f.payload));
        SameRow(h, channel, doc, drawn, f, ans);
        ToFollowers(doc, Frames.Peer(tag, f.payload), Some(tag));
      } else if sockets[tag].readOnly {
        ReplyDelivers(sockets, doc, row, tag, Frames.Refused(Frames.ReadOnly));
        SameRow(h, channel, doc, drawn, f, ans);
        Send(tag, doc, Frames.Refused(Frames.ReadOnly));
      } else {
        OnWrite(tag, doc, drawn, f);
      }
    }

    method OnWrite(tag: nat, doc: DocId, drawn: string, f: ClientFrame)
      requires Valid() && tag in sockets && doc in sockets[tag].subs && !sockets[tag].readOnly
      requires !f.Sub? && !f.Unsub? && !f.Awareness? && PointerOf(store.RowOf(Key(channel, doc))) == None
      modifies this, store
      ensures Valid()
      ensures Contents() == After(old(Contents()), channel, doc, drawn, f, AnswerIn(old(Contents()), channel, tag, doc, drawn, f))
    {
      match f
      case Update(_, _) => OnUpdate(tag, doc, drawn, f);
      case Seed(_, _) => OnFirst(tag, doc, drawn, f);
      case Snapshot(_, _) => OnSnapshot(tag, doc, drawn, f);
      case Rotate(_, _, _, _) => OnRotate(tag, doc, drawn, f);
      case Signal =>
        SilenceDelivers(sockets, doc, store.RowOf(Key(channel, doc)));
        SameRow(Contents(), channel, doc, drawn, f, AnswerIn(Contents(), channel, tag, doc, drawn, f));
    }

    method OnUpdate(tag: nat, doc: DocId, drawn: string, f: ClientFrame)
      requires Valid() && tag in sockets && doc in sockets[tag].subs && !sockets[tag].readOnly
      requires f.Update? && PointerOf(store.RowOf(Key(channel, doc))) == None
      modifies this, store
      ensures Valid()
      ensures Contents() == After(old(Contents()), channel, doc, drawn, f, AnswerIn(old(Contents()), channel, tag, doc, drawn, f))
    {
      LoggedDelivers(sockets, doc, store.RowOf(Key(channel, doc)), tag, f.n, f.payload, drawn);
      var at := store.Append(Key(channel, doc), f.payload, drawn);
      TellLogged(tag, doc, f.n, at, f.payload);
    }

    /** A seed is logged into a room that has no row, and answered with the room otherwise. */
    method OnFirst(tag: nat, doc: DocId, drawn: string, f: ClientFrame)
      requires Valid() && tag in sockets && doc in sockets[tag].subs && !sockets[tag].readOnly
      requires f.Seed? && PointerOf(store.RowOf(Key(channel, doc))) == None
      modifies this, store
      ensures Valid()
      ensures Contents() == After(old(Contents()), channel, doc, drawn, f, AnswerIn(old(Contents()), channel, tag, doc, drawn, f))
    {
      FirstAnswered(Contents(), channel, tag, doc, drawn, f);
      OnSeed(tag, doc, drawn, f.n, f.payload);
    }

    method OnSnapshot(tag: nat, doc: DocId, drawn: string, f: ClientFrame)
      requires Valid() && tag in sockets && doc in sockets[tag].subs && !sockets[tag].readOnly
      requires f.Snapshot? && PointerOf(store.RowOf(Key(channel, doc))) == None
      modifies this, store
      ensures Valid()
      ensures Contents() == After(old(Contents()), channel, doc, drawn, f, AnswerIn(old(Contents()), channel, tag, doc, drawn, f))
    {
      SilenceDelivers(sockets, doc, AnswerIn(Contents(), channel, tag, doc, drawn, f).row);
      store.Compact(Key(channel, doc), f.payload, f.upto);
    }

    /** One letter each: Echo to `tag`, Fanout to every other follower. */
    method TellLogged(tag: nat, doc: DocId, n: nat, at: nat, payload: Payload)
      requires tag in sockets
      modifies this
      ensures sockets == Spread(Posted(old(sockets), tag, doc, Frames.Echo(at, n)), doc, Frames.Fanout(at, tag, payload), Some(tag))
    {
      Send(tag, doc, Frames.Echo(at, n));
      ToFollowers(doc, Frames.Fanout(at, tag, payload), Some(tag));
    }

    /** Only a document without a row takes a seed; a later one is answered with a State. */
    method OnSeed(tag: nat, doc: DocId, drawn: string, n: nat, payload: Payload)
      requires Valid() && tag in sockets
      modifies this, store
      ensures Valid()
      ensures var k := Key(channel, doc);
        var row := old(store.RowOf(k));
        if row.Some? then
          store.Rows() == old(store.Rows()) && sockets == Posted(old(sockets), tag, doc, StateFrom(row, 0))
        else
          && store.Rows() == old(store.Rows())[k := Appended(None, payload, drawn)]
          && sockets == Spread(Posted(old(sockets), tag, doc, Frames.Echo(1, n)), doc, Frames.Fanout(1, tag, payload), Some(tag))
    {
      var at := store.Seed(Key(channel, doc), payload, drawn);
      if at.None? {
        SendState(tag, doc, 0);
      } else {
        TellLogged(tag, doc, n, at.value, payload);
      }
    }

    /** A rotation is taken only at the head of the log; one that is behind is answered with a State. */
    method OnRotate(tag: nat, doc: DocId, drawn: string, f: ClientFrame)
      requires Valid() && tag in sockets && f.Rotate?
      modifies this, store
      ensures Valid()
      ensures var h := old(Contents());
        Contents() == After(h, channel, doc, drawn, f,
          RotateRoom(doc, RowIn(h.rows, Key(channel, doc)), FollowersIn(h.sockets, doc), tag, RowIn(h.rows, Key(channel, f.target)), f))
    {
      ghost var h := Contents();
      ghost var row := store.RowOf(Key(channel, doc));
      ghost var ans := RotateRoom(doc, row, FollowersIn(sockets, doc), tag, RowIn(h.rows, Key(channel, f.target)), f);
      if f.target == "" || f.target == doc || |f.target| > Frames.MAX_DOC_ID_LENGTH || |f.note| > Frames.MAX_MOVE_NOTE_BYTES {
        SilenceDelivers(sockets, doc, row);
        SameRow(h, channel, doc, drawn, f, ans);
        return;
      }
      var pointer := Pointer(f.target, f.note);
      var done := store.Rotate(Key(channel, doc), pointer, f.upto, f.payload, drawn);
      if done {
        MovedDelivers(sockets, doc, ans.row, pointer, ans.seeded);
        ToFollowers(doc, MovedFrame(pointer), None);
      } else {
        ReplyDelivers(sockets, doc, row, tag, StateFrom(row, f.upto));
        SameRow(h, channel, doc, drawn, f, ans);
        SendState(tag, doc, f.upto);
      }
    }
  }
}
