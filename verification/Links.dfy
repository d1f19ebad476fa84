/** One session and its socket: what it sent, what is coming back, and what the hub's answers do to them. */
module Links {
  import opened Common
  import opened Updates
  import opened Outboxes
  import opened Payloads
  import opened Rows
  import opened Sessions
  import opened Streams
  import opened Flights
  import opened SessionProofs

  /**
   * `follows` is the hub's side of the socket; `heard` is whether a State was read on it; `rested` is whether the
   * session was closed at rest.
   */
  datatype Link = Link(s: Session, follows: bool, heard: bool, down: seq<ServerFrame>, rested: bool)

  function Start(l: Link): View
  {
    View(l.s.log.at, l.s.joined, if l.heard && !l.s.joined then l.s.seed else None)
  }

  /** Where the session will be once it has read everything under way. */
  function Ahead(l: Link): View { End(Start(l), l.down) }

  /** The answers under way that the session waits for; before it joins, the echo of its seed is one. */
  function Answers(l: Link): nat { States(l.down) + if l.s.joined then 0 else |EchoNs(l.down)| }

  ghost predicate InFlight(l: Link) { Tracked(l.s, EchoNs(l.down), Answers(l)) }

  ghost predicate SeedsOk(l: Link)
  {
    forall f :: f in l.s.up && f.Seed? ==>
      f.n == 0 && !Ahead(l).joined && Ahead(l).offer == Some(f.payload.edits)
  }

  /** Nothing under way moves the session, until it has joined. */
  predicate Still(joined: bool, down: seq<ServerFrame>)
  {
    forall i :: 0 <= i < |down| ==> Quiet(down[i]) || (!joined && down[i].Fanout?)
  }

  /** Behind a Sub nothing moved the session yet; what was sent before it, on the same socket, never will. */
  ghost predicate SubsOk(l: Link)
  {
    forall i :: 0 <= i < |l.s.up| && l.s.up[i].Sub? ==>
      && l.s.up[i].since == l.s.log.at && !l.heard && (l.follows ==> !l.s.joined)
      && Still(l.s.joined, l.down) && AllHarmless(l.s.up[..i])
  }

  /** A session moves its room only once it has joined. */
  ghost predicate Asks(l: Link) { !l.s.joined ==> forall f :: f in l.s.up ==> !f.Rotate? }

  ghost predicate Live(l: Link, t: Truth)
  {
    && StreamOk(Start(l), l.down, l.s, t)
    && (l.follows && Ahead(l).joined ==> Ahead(l).at == |t.hist|)
    && SeedsOk(l) && SubsOk(l) && Asks(l) && InFlight(l)
  }

  /** What a session opened on this socket would find there tells it nothing about the log before its own State. */
  predicate Clear(up: seq<ClientFrame>, down: seq<ServerFrame>) { AllHarmless(up) && Still(false, down) }

  ghost predicate ClosedOk(l: Link)
  {
    && (l.s.disposed ==> l.s.box.staged == [] && l.s.box.pending == [])
    && (l.rested ==> l.s.disposed && Clear(l.s.up, l.down))
  }

  ghost predicate LinkOk(l: Link, t: Truth)
  {
    Good(l.s, t) && Live(l, t) && ClosedOk(l)
  }

  lemma {:induction false} AheadOk(l: Link, t: Truth)
    requires LinkOk(l, t)
    ensures ViewOk(Start(l)) && ViewOk(Ahead(l)) && l.s.log.at <= Ahead(l).at <= |t.hist|
    ensures l.s.joined ==> Ahead(l).joined
    ensures !l.s.joined && Ahead(l).offer.Some? ==> l.heard && Ahead(l).offer == l.s.seed
  {
    EndViewOk(Start(l), l.down, l.s, t);
  }

  lemma {:induction false} StillEnd(v: View, down: seq<ServerFrame>)
    requires Still(v.joined, down)
    ensures End(v, down) == v && States(down) == 0 && EchoNs(down) == []
  {
    if down != [] {
      StillEnd(v, down[1..]);
    }
  }

  // ---- the client's side

  datatype Act =
    | Edit(update: Update)
    | Stage(drain: Update)
    | Drain
    | Absorb(merged: Option<Update>)
    | FlushFires
    | Flush(leads: bool)
    | AckFires
    | Timeout
    | AskRotation(target: Frames.DocId, note: bytes)
    | Dispose
    | Read(disk: Disk, leads: bool)
    | Socket(now: bool)

  /** A step the session takes by itself; one that is not due changes nothing. */
  function Acted(s: Session, a: Act): Session
  {
    match a
    case Edit(u) => if s.disposed then s else s.Local(u)
    case Stage(u) => if s.disposed then s else s.(box := s.box.Stage(u))
    case Drain => s.DrainedNow()
    case Absorb(merged) => s.Absorbed(merged)
    case FlushFires => if s.box.timer then s.FlushFired() else s
    case Flush(leads) => if s.box.flushes > 0 then s.Flushed(leads) else s
    case AckFires => if s.box.ackTimer then s.(box := s.box.AckFired()) else s
    case Timeout => if s.box.timeouts > 0 then s.TimedOut() else s
    case AskRotation(target, note) => s.AskRotation(target, note)
    case Dispose => s.Disposed()
    case _ => s
  }

  function Stepped(l: Link, a: Act): Link
  {
    if a.Socket? then
      if l.s.disposed then l else Link(l.s.ConnectionChanged(a.now), false, false, [], l.rested)
    else if a.Read? then
      if l.down == [] || l.s.disposed || !l.s.connected then l
      else Link(l.s.Handle(l.down[0], a.disk, a.leads), l.follows, l.heard || l.down[0].State?, l.down[1..], l.rested)
    else l.(s := Acted(l.s, a), rested := l.rested || (a.Dispose? && AtRest(l.s)))
  }

  /** What the session left on the socket it lost: the hub may still get it. */
  function Abandoned(l: Link, a: Act): seq<ClientFrame>
  {
    if a.Socket? && !l.s.disposed then l.s.up else []
  }

  // ---- in flight

  lemma {:induction false} ActedTracked(s: Session, a: Act, es: seq<nat>, k: nat)
    requires Tracked(s, es, k) && (s.online ==> s.joined)
    ensures Tracked(Acted(s, a), es, k)
  {
    match a {
      case Absorb(merged) => AbsorbedTracked(s, merged, es, k);
      case Flush(leads) => if s.box.flushes > 0 { FlushedTracked(s, leads, es, k); }
      case Timeout => if s.box.timeouts > 0 { TimedOutTracked(s, es, k); }
      case AskRotation(target, note) => AskRotationTracked(s, target, note, es, k);
      case Dispose => DisposedTracked(s, es, k);
      case _ =>
    }
  }

  lemma {:induction false} EchoTracked(l: Link, v: View, disk: Disk, leads: bool, t: Truth)
    requires InFlight(l) && Good(l.s, t) && l.down != [] && l.down[0].Echo?
    requires At(l.s, v) && FrameOk(v, l.down[0], l.s, t)
    ensures var r := l.s.Handle(l.down[0], disk, leads); Tracked(r, EchoNs(l.down[1..]), States(l.down[1..]))
  {
    var f, rest := l.down[0], l.down[1..];
    assert EchoNs(l.down) == [f.n] + EchoNs(rest);
    if l.s.joined {
      AckedTracked(l.s, f.at, f.n, leads, EchoNs(rest), States(rest));
    } else {
      assert EchoNs(rest) == [] && [f.n] + [] == [f.n];
      SeededTracked(l.s, f.at, f.n, leads);
    }
  }

  lemma {:induction false} StateInFlight(l: Link, v: View, disk: Disk, leads: bool, t: Truth)
    requires InFlight(l) && Good(l.s, t) && l.down != [] && l.down[0].State?
    requires At(l.s, v) && FrameOk(v, l.down[0], l.s, t)
    ensures var r := l.s.Handle(l.down[0], disk, leads);
      Tracked(r, EchoNs(l.down[1..]), 0) && States(l.down[1..]) == 0 && (!l.s.joined ==> EchoNs(l.down[1..]) == [])
  {
    var f, rest := l.down[0], l.down[1..];
    assert EchoNs(l.down) == [] + EchoNs(rest) == EchoNs(rest);
    assert States(l.down) == 1 + States(rest) && Answers(l) == 1;
    StateTracked(l.s, f.head, f.snapshot, f.deltas, f.log, disk, leads, EchoNs(rest));
  }

  lemma {:induction false} OtherTracked(s: Session, f: ServerFrame, disk: Disk, leads: bool, es: seq<nat>, k: nat)
    requires Tracked(s, es, k) && !f.State? && !f.Echo?
    ensures Tracked(s.Handle(f, disk, leads), es, k)
  {
    if f.Fanout? {
      FanoutTracked(s, f.at, f.payload, leads, es, k);
    }
  }

  lemma {:induction false} ReadTracked(l: Link, v: View, disk: Disk, leads: bool, t: Truth)
    requires InFlight(l) && Good(l.s, t) && l.down != []
    requires At(l.s, v) && FrameOk(v, l.down[0], l.s, t)
    requires var r := l.s.Handle(l.down[0], disk, leads); r.joined == Next(v, l.down[0]).joined
    requires !l.s.disposed && l.s.connected
    ensures InFlight(Stepped(l, Read(disk, leads)))
  {
    var f, rest := l.down[0], l.down[1..];
    var r := l.s.Handle(f, disk, leads);
    var m := Stepped(l, Read(disk, leads));
    assert m.s == r && m.down == rest;
    if f.Echo? {
      EchoTracked(l, v, disk, leads, t);
    } else if f.State? {
      StateInFlight(l, v, disk, leads, t);
    } else {
      assert EchoNs(l.down) == [] + EchoNs(rest) == EchoNs(rest);
      OtherTracked(l.s, f, disk, leads, EchoNs(rest), Answers(l));
    }
  }

  // ---- acts

  /** New frames ask for nothing and tell of nothing under way. */
  ghost predicate Spreads(s: Session, r: Session)
  {
    && s.up <= r.up
    && forall i :: |s.up| <= i < |r.up| ==> !r.up[i].Sub? && !r.up[i].Seed? && (r.joined || !r.up[i].Rotate?)
  }

  lemma {:induction false} SpreadUp(l: Link, m: Link)
    requires SeedsOk(l) && SubsOk(l) && Asks(l) && Spreads(l.s, m.s)
    requires Ahead(m) == Ahead(l) && m.s.log.at == l.s.log.at && m.s.joined == l.s.joined
    requires m.follows == l.follows && m.heard == l.heard && m.down == l.down
    ensures SeedsOk(m) && SubsOk(m) && Asks(m)
  {
    forall f | f in m.s.up && (f.Seed? || (!m.s.joined && f.Rotate?)) ensures f in l.s.up {
      var i :| 0 <= i < |m.s.up| && m.s.up[i] == f;
      if i < |l.s.up| { assert m.s.up[i] == l.s.up[i]; }
    }
    forall i | 0 <= i < |m.s.up| && m.s.up[i].Sub?
      ensures i < |l.s.up| && l.s.up[i] == m.s.up[i] && m.s.up[..i] == l.s.up[..i]
    {
    }
  }

  lemma {:induction false} SpreadLive(l: Link, m: Link, t: Truth)
    requires LinkOk(l, t) && Keeps(l.s, m.s) && Spreads(l.s, m.s) && InFlight(m)
    requires m.s.log.at == l.s.log.at && m.s.joined == l.s.joined && m.s.seed == l.s.seed
    requires m.follows == l.follows && m.heard == l.heard && m.down == l.down
    ensures Live(m, t)
  {
    StreamStays(Start(l), l.down, l.s, m.s, t, t);
    assert Start(m) == Start(l);
    SpreadUp(l, m);
  }

  lemma {:induction false} ActedMoves(s: Session, a: Act, t: Truth)
    requires Good(s, t) && !a.Dispose? && !(s.disposed && a.Drain?)
    ensures Good(Acted(s, a), t) && (Acted(s, a) == s || Moves(s, Acted(s, a)))
  {
    match a {
      case Edit(u) => if !s.disposed { LocalGood(s, u, t); }
      case Stage(u) => if !s.disposed { StageGood(s, u, t); }
      case Drain => DrainedGood(s, t);
      case Absorb(merged) => AbsorbedGood(s, merged, t);
      case FlushFires => FlushFiredGood(s, t);
      case Flush(leads) => if s.box.flushes > 0 { FlushedGood(s, leads, t); }
      case AckFires => AckFiredGood(s, t);
      case Timeout => if s.box.timeouts > 0 { TimedOutGood(s, t); }
      case AskRotation(target, note) => AskRotationGood(s, target, note, t);
      case _ =>
    }
  }

  /** Closed, a session sends nothing more, whatever timer or queued step is left of it. */
  lemma {:induction false} ClosedActs(s: Session, a: Act)
    requires s.disposed && s.box.staged == [] && s.box.pending == []
    ensures var r := Acted(s, a); r.up == s.up && r.disposed && r.box.staged == [] && r.box.pending == []
  {
    if a.Drain? || a.Absorb? { assert s.box.Drained() == s.box; }
  }

  lemma {:induction false} ActedLive(l: Link, a: Act, t: Truth)
    requires LinkOk(l, t) && !a.Dispose?
    ensures LinkOk(l.(s := Acted(l.s, a)), t)
  {
    var r := Acted(l.s, a);
    if r != l.s {
      ActedMoves(l.s, a, t);
      ActedTracked(l.s, a, EchoNs(l.down), Answers(l));
      if l.s.disposed { ClosedActs(l.s, a); }
      MovedLive(l, r, t);
    }
  }

  lemma {:induction false} MovedLive(l: Link, r: Session, t: Truth)
    requires LinkOk(l, t) && Good(r, t) && Moves(l.s, r) && InFlight(l.(s := r))
    requires l.s.disposed ==> r.up == l.s.up && r.disposed && r.box.staged == [] && r.box.pending == []
    ensures LinkOk(l.(s := r), t)
  {
    SpreadLive(l, l.(s := r), t);
  }

  // ---- closing

  lemma {:induction false} DisposedOwes(s: Session, t: Truth)
    requires Good(s, t) && !s.disposed
    ensures var (b, rest) := s.box.Drained().StopTimers().TakePending();
      Owing(s.(doc := s.doc + Union(s.box.staged), disposed := true, rotating := false, box := b), Carried(rest), t)
  {
    var (b, rest) := s.box.Drained().StopTimers().TakePending();
    var q := s.(doc := s.doc + Union(s.box.staged), disposed := true, rotating := false, box := b);
    UnionConcat(s.box.pending, s.box.staged);
    assert Carried(rest) == Union(s.box.pending) + Union(s.box.staged);
    assert Exact(q, Carried(rest), t);
    MineStays(s, q, t);
  }

  lemma {:induction false} UnsubGood(s: Session, t: Truth)
    requires Good(s, t)
    ensures Good(s.Send(Frames.Unsub), t) && s.Send(Frames.Unsub).disposed == s.disposed
  {
    PostUp(s, Frames.Unsub, t);
  }

  /** Closing sends the rest and an Unsub. */
  lemma {:induction false} DisposedGood(s: Session, t: Truth)
    requires Good(s, t) && !s.disposed
    ensures var r := s.Disposed();
      && Good(r, t) && Keeps(s, r) && Spreads(s, r) && r.disposed && r.box.staged == [] && r.box.pending == []
      && r.log == s.log && r.joined == s.joined && r.seed == s.seed
  {
    DisposedOwes(s, t);
    var (b, rest) := s.box.Drained().StopTimers().TakePending();
    var q := s.(doc := s.doc + Union(s.box.staged), disposed := true, rotating := false, box := b);
    ClosingGood(q, rest, t);
    assert Keeps(s, q) && q.box.staged == [] && q.box.pending == [];
  }

  lemma {:induction false} ClosingGood(q: Session, rest: Option<Update>, t: Truth)
    requires Owing(q, Carried(rest), t)
    ensures var r := q.SendMaybe(rest).Send(Frames.Unsub);
      && Good(r, t) && Keeps(q, r) && Spreads(q, r) && r.log == q.log && r.joined == q.joined && r.seed == q.seed
      && r.box.staged == q.box.staged && r.box.pending == q.box.pending && r.disposed == q.disposed
  {
    var p := q.SendMaybe(rest);
    SendMaybeGood(q, rest, t);
    ClosingKeeps(q, rest);
    UnsubGood(p, t);
    UnsubSpreads(q, p);
    var r := p.Send(Frames.Unsub);
    assert r == p.(up := r.up);
  }

  lemma {:induction false} UnsubSpreads(q: Session, p: Session)
    requires Moves(q, p)
    ensures Spreads(q, p.Send(Frames.Unsub)) && Keeps(q, p.Send(Frames.Unsub))
  {
    var r := p.Send(Frames.Unsub);
    forall i | |q.up| <= i < |r.up| ensures !r.up[i].Sub? && !r.up[i].Seed? && (r.joined || !r.up[i].Rotate?) {
      if i < |p.up| { assert r.up[i] == p.up[i]; }
    }
  }

  lemma {:induction false} ClosingKeeps(q: Session, rest: Option<Update>)
    ensures var r := q.SendMaybe(rest);
      r.box.staged == q.box.staged && r.box.pending == q.box.pending && r.log == q.log && r.disposed == q.disposed
  {
  }

  /** A session closed at rest leaves its socket clear. */
  lemma {:induction false} RestedClear(l: Link, t: Truth)
    requires LinkOk(l, t) && AtRest(l.s)
    ensures Clear(l.s.Disposed().up, l.down)
  {
    RestLeavesNothing(l.s, EchoNs(l.down), Answers(l));
    RestDisposed(l.s);
    NoneMove(l.down);
  }

  lemma {:induction false} NoneMove(down: seq<ServerFrame>)
    requires States(down) == 0 && EchoNs(down) == []
    ensures Still(false, down)
  {
    if down != [] {
      NoneMove(down[1..]);
      forall i | 0 <= i < |down| ensures Quiet(down[i]) || down[i].Fanout? {
        if i > 0 { assert down[i] == down[1..][i - 1]; }
      }
    }
  }

  lemma {:induction false} DisposedLive(l: Link, t: Truth)
    requires LinkOk(l, t)
    ensures LinkOk(Stepped(l, Dispose), t)
  {
    if !l.s.disposed {
      var m := Stepped(l, Dispose);
      DisposedGood(l.s, t);
      DisposedTracked(l.s, EchoNs(l.down), Answers(l));
      SpreadLive(l, m, t);
      if AtRest(l.s) { RestedClear(l, t); }
    } else {
      assert Stepped(l, Dispose) == l;
    }
  }

  // ---- reading

  lemma {:induction false} ReadLive(l: Link, disk: Disk, leads: bool, t: Truth)
    requires LinkOk(l, t) && !l.s.disposed && l.s.connected && l.down != []
    ensures LinkOk(Stepped(l, Read(disk, leads)), t)
  {
    var m := Stepped(l, Read(disk, leads));
    var v, f, rest := Start(l), l.down[0], l.down[1..];
    AheadOk(l, t);
    HandleGood(l.s, v, f, disk, leads, t);
    ReadTracked(l, v, disk, leads, t);
    StreamStays(Next(v, f), rest, l.s, m.s, t, t);
    if m.s.joined {
      ReadJoined(l, m, f, t);
    } else {
      ReadWaiting(l, m, f, disk, t);
    }
  }

  /** No Sub is left behind a frame that moves its reader. */
  lemma {:induction false} ReadSubs(l: Link, m: Link, f: ServerFrame)
    requires SubsOk(l) && InFlight(l) && l.down != [] && f == l.down[0]
    requires l.s.up <= m.s.up && forall i :: |l.s.up| <= i < |m.s.up| ==> !m.s.up[i].Sub?
    requires m.follows == l.follows && m.down == l.down[1..] && m.heard == (l.heard || f.State?)
    requires Quiet(f) || (!l.s.joined && f.Fanout?) ==> m.s.log.at == l.s.log.at && m.s.joined == l.s.joined
    ensures SubsOk(m)
  {
    forall i | 0 <= i < |m.s.up| && m.s.up[i].Sub?
      ensures && m.s.up[i].since == m.s.log.at && !m.heard && (m.follows ==> !m.s.joined)
              && Still(m.s.joined, m.down) && AllHarmless(m.s.up[..i])
    {
      assert i < |l.s.up| && l.s.up[i] == m.s.up[i] && m.s.up[..i] == l.s.up[..i];
      assert Quiet(f) || (!l.s.joined && f.Fanout?);
    }
  }

  lemma {:induction false} ReadJoined(l: Link, m: Link, f: ServerFrame, t: Truth)
    requires LinkOk(l, t) && !l.s.disposed && l.down != [] && f == l.down[0] && ViewOk(Start(l))
    requires Good(m.s, t) && Reads(l.s, m.s, Start(l), f) && m.s.joined && InFlight(m) && m.rested == l.rested
    requires m.follows == l.follows && m.down == l.down[1..] && m.heard == (l.heard || f.State?)
    requires StreamOk(Next(Start(l), f), m.down, m.s, t)
    ensures LinkOk(m, t)
  {
    assert Start(m) == Next(Start(l), f);
    assert Ahead(m) == Ahead(l);
    EndViewOk(Start(m), m.down, m.s, t);
    forall i | 0 <= i < |m.s.up| ensures !m.s.up[i].Seed? {
      if i < |l.s.up| { assert m.s.up[i] == l.s.up[i] && l.s.up[i] in l.s.up; }
    }
    ReadSubs(l, m, f);
  }

  lemma {:induction false} ReadWaiting(l: Link, m: Link, f: ServerFrame, disk: Disk, t: Truth)
    requires LinkOk(l, t) && !l.s.disposed && l.down != [] && f == l.down[0] && ViewOk(Start(l))
    requires Good(m.s, t) && Reads(l.s, m.s, Start(l), f) && !m.s.joined && !l.s.joined
    requires InFlight(m) && m.rested == l.rested
    requires f.State? ==> Offered(l.s, m.s, disk)
    requires m.follows == l.follows && m.down == l.down[1..] && m.heard == (l.heard || f.State?)
    requires StreamOk(Next(Start(l), f), m.down, m.s, t)
    ensures LinkOk(m, t)
  {
    ReadSubs(l, m, f);
    if f.State? {
      assert States(m.down) == 0 && Asked(l.s.up) == 0;
      NoneAsked(l.s.up);
      OfferWaits(m.down, m.s.seed.value, m.s, t);
      assert Start(m) == View(0, false, m.s.seed);
      forall g | g in m.s.up && (g.Seed? || g.Rotate?) ensures g == Frames.Seed(0, Sealed(disk.seed)) {
        assert g in l.s.up || g == Frames.Seed(0, Sealed(disk.seed));
      }
    } else {
      assert Start(m) == Next(Start(l), f);
      assert Ahead(m) == Ahead(l);
    }
  }

  /** A new socket carries nothing, or a Sub. */
  lemma {:induction false} SocketTracked(s: Session, es: seq<nat>, k: nat, now: bool)
    requires Tracked(s, es, k) && !s.disposed
    ensures Tracked(s.ConnectionChanged(now), [], 0)
  {
    var up := s.ConnectionChanged(now).up;
    var q: seq<ClientFrame> := [];
    UpAppended(q, Frames.Sub(s.log.at));
    assert up == if now then q + [Frames.Sub(s.log.at)] else q;
    assert UpdateNs(up) == [] && Asked(up) <= 1;
    assert [] + UpdateNs(up) == [];
  }

  lemma {:induction false} SocketLive(l: Link, now: bool, t: Truth)
    requires LinkOk(l, t) && !l.s.disposed
    ensures LinkOk(Stepped(l, Socket(now)), t)
  {
    var m := Stepped(l, Socket(now));
    SocketTracked(l.s, EchoNs(l.down), Answers(l), now);
    assert m.down == [] && EchoNs(m.down) == [] && Answers(m) == 0;
    assert m.s.up == if now then [Frames.Sub(l.s.log.at)] else [];
  }

  /** Nothing a session does by itself, in any order, parts its document from its room. */
  lemma {:induction false} SteppedOk(l: Link, a: Act, t: Truth)
    requires LinkOk(l, t)
    ensures LinkOk(Stepped(l, a), t)
    ensures forall f :: f in Abandoned(l, a) ==> Safe(f, t)
  {
    if a.Socket? {
      if !l.s.disposed { SocketLive(l, a.now, t); }
    } else if a.Read? {
      if l.down != [] && l.s.connected && !l.s.disposed { ReadLive(l, a.disk, a.leads, t); }
    } else if a.Dispose? {
      DisposedLive(l, t);
    } else {
      ActedLive(l, a, t);
    }
  }

  // ---- one socket, one session after another

  /**
   * A session opened on the socket of one just closed: what that one sent is before its own Sub, and what the hub
   * owes that one, save what came while nobody listened, is read by the new one.
   */
  function Reopened(l: Link, knownSeq: nat, missed: nat): Link
    requires missed <= |l.down|
  {
    Link(Opened(knownSeq, true).(up := l.s.up + [Frames.Sub(0)]), l.follows, false, l.down[missed..], false)
  }

  /** What is left of the closed one: no socket. */
  function HandedOn(l: Link): Link
  {
    l.(s := l.s.(up := [], online := false, connected := false), follows := false, down := [])
  }

  lemma {:induction false} HandedOnOk(l: Link, t: Truth)
    requires LinkOk(l, t) && l.s.disposed
    ensures LinkOk(HandedOn(l), t)
  {
    assert [] + UpdateNs([]) == [];
  }

  lemma {:induction false} HarmlessAsked(up: seq<ClientFrame>)
    requires AllHarmless(up)
    ensures Asked(up) == 0 && UpdateNs(up) == []
  {
    if up != [] {
      HarmlessAsked(up[1..]);
    }
  }

  lemma {:induction false} StillStreams(v: View, down: seq<ServerFrame>, s: Session, t: Truth)
    requires Still(false, down) && !v.joined
    ensures StreamOk(v, down, s, t)
  {
    if down != [] {
      StillStreams(v, down[1..], s, t);
    }
  }

  lemma {:induction false} ReopenedGood(l: Link, knownSeq: nat, missed: nat, t: Truth)
    requires Good(l.s, t) && knownSeq <= |t.hist| && missed <= |l.down| && AllHarmless(l.s.up)
    ensures var s := Reopened(l, knownSeq, missed).s; Good(s, t) && forall f :: f in s.up ==> !f.Seed? && !f.Rotate?
  {
    var s := Reopened(l, knownSeq, missed).s;
    forall f | f in s.up ensures Safe(f, t) && Mine(s, f) && !f.Seed? && !f.Rotate? {
      assert f in l.s.up || f == Frames.Sub(0);
    }
  }

  lemma {:induction false} ReopenedSubs(l: Link, knownSeq: nat, missed: nat)
    requires missed <= |l.down| && Clear(l.s.up, l.down[missed..])
    ensures SubsOk(Reopened(l, knownSeq, missed))
  {
    var m := Reopened(l, knownSeq, missed);
    var before := l.s.up;
    forall i | 0 <= i < |before| ensures !m.s.up[i].Sub? {
      assert m.s.up[i] == before[i];
    }
    assert m.s.up[..|before|] == before;
  }

  /** On a clear socket the new session is as good as on one of its own. */
  lemma {:induction false} ReopenedOk(l: Link, knownSeq: nat, missed: nat, t: Truth)
    requires LinkOk(l, t) && knownSeq <= |t.hist| && missed <= |l.down| && Clear(l.s.up, l.down[missed..])
    ensures LinkOk(Reopened(l, knownSeq, missed), t)
  {
    var m := Reopened(l, knownSeq, missed);
    HarmlessAsked(l.s.up);
    UpAppended(l.s.up, Frames.Sub(0));
    StillEnd(Start(m), m.down);
    StillStreams(Start(m), m.down, m.s, t);
    ReopenedGood(l, knownSeq, missed, t);
    ReopenedSubs(l, knownSeq, missed);
  }

  // ---- the hub's side

  /** The hub took the oldest frame off the socket. */
  function Taken(l: Link): Link
    requires l.s.up != []
  {
    l.(s := l.s.(up := l.s.up[1..]))
  }

  function Told(l: Link, f: ServerFrame): Link { l.(down := l.down + [f]) }

  lemma {:induction false} TakenSubs(l: Link)
    requires SubsOk(l) && l.s.up != []
    ensures SubsOk(Taken(l))
  {
    var m := Taken(l);
    forall i | 0 <= i < |m.s.up| && m.s.up[i].Sub?
      ensures m.s.up[i].since == l.s.log.at && AllHarmless(m.s.up[..i])
      ensures !l.heard && (l.follows ==> !l.s.joined) && Still(l.s.joined, l.down)
    {
      assert l.s.up[i + 1] == m.s.up[i];
      assert m.s.up[..i] == l.s.up[..i + 1][1..];
    }
  }

  lemma {:induction false} TakenOk(l: Link, t: Truth)
    requires LinkOk(l, t) && l.s.up != []
    ensures LinkOk(Taken(l), t) && Start(Taken(l)) == Start(l)
  {
    var m := Taken(l);
    forall f | f in m.s.up ensures f in l.s.up {
    }
    StreamStays(Start(l), l.down, l.s, m.s, t, t);
    assert Start(m) == Start(l);
    TakenTracked(l.s, EchoNs(l.down), Answers(l));
    TakenSubs(l);
  }

  lemma {:induction false} UnfollowedOk(l: Link, t: Truth)
    requires LinkOk(l, t)
    ensures LinkOk(l.(follows := false), t)
  {
    assert Start(l.(follows := false)) == Start(l);
  }

  /** A frame that moves nobody, or one told where no Sub waits. */
  lemma {:induction false} ToldSubs(l: Link, f: ServerFrame)
    requires SubsOk(l)
    requires Quiet(f) || (!l.s.joined && f.Fanout?) || forall g :: g in l.s.up ==> !g.Sub?
    ensures SubsOk(Told(l, f))
  {
    var m := Told(l, f);
    forall i | 0 <= i < |m.s.up| && m.s.up[i].Sub?
      ensures m.s.up[i].since == m.s.log.at && !m.heard && (m.follows ==> !m.s.joined)
      ensures Still(m.s.joined, m.down) && AllHarmless(m.s.up[..i])
    {
      assert l.s.up[i] == m.s.up[i];
    }
  }

  lemma {:induction false} ToldQuietOk(l: Link, f: ServerFrame, t: Truth)
    requires LinkOk(l, t) && Quiet(f)
    ensures LinkOk(Told(l, f), t)
  {
    var m := Told(l, f);
    ToldAdds(l, f, t);
    ToldSubs(l, f);
    assert SeedsOk(m) && Asks(m) && InFlight(m);
  }

  /** The log grew without a word to this session: it does not follow, or it has not joined. */
  lemma {:induction false} GrownOk(l: Link, t: Truth, u: Truth)
    requires LinkOk(l, t) && Grows(t, u)
    requires l.follows ==> t.hist == []
    ensures LinkOk(l, u)
  {
    GoodGrows(l.s, t, u);
    AheadOk(l, t);
    StreamStays(Start(l), l.down, l.s, l.s, t, u);
  }

  lemma {:induction false} ToldFanoutOk(l: Link, t: Truth, u: Truth, from: nat, payload: Payload)
    requires LinkOk(l, t) && l.follows && Grows(t, u) && u.hist == t.hist + [payload.edits]
    ensures LinkOk(Told(l, Frames.Fanout(|u.hist|, from, payload)), u)
  {
    var f := Frames.Fanout(|u.hist|, from, payload);
    var m := Told(l, f);
    GoodGrows(l.s, t, u);
    FanoutFits(l, t, u, from, payload);
    ToldAdds(l, f, u);
    FollowedSubs(l);
    ToldSubs(l, f);
    assert SeedsOk(m) && Asks(m) && InFlight(m);
  }

  lemma {:induction false} FollowedSubs(l: Link)
    requires SubsOk(l) && l.follows
    ensures l.s.joined ==> forall g :: g in l.s.up ==> !g.Sub?
  {
    if l.s.joined {
      forall i | 0 <= i < |l.s.up| ensures !l.s.up[i].Sub? {
      }
    }
  }

  lemma {:induction false} FanoutFits(l: Link, t: Truth, u: Truth, from: nat, payload: Payload)
    requires LinkOk(l, t) && l.follows && Grows(t, u) && u.hist == t.hist + [payload.edits]
    ensures FrameOk(Ahead(l), Frames.Fanout(|u.hist|, from, payload), l.s, u) && StreamOk(Start(l), l.down, l.s, u)
  {
    AheadOk(l, t);
    StreamStays(Start(l), l.down, l.s, l.s, t, u);
  }

  /** One frame more under way. */
  lemma {:induction false} ToldAdds(l: Link, f: ServerFrame, u: Truth)
    requires StreamOk(Start(l), l.down, l.s, u) && FrameOk(Ahead(l), f, l.s, u)
    ensures var m := Told(l, f);
      && Start(m) == Start(l) && StreamOk(Start(m), m.down, m.s, u) && Ahead(m) == Next(Ahead(l), f)
      && States(m.down) == States(l.down) + (if f.State? then 1 else 0)
      && EchoNs(m.down) == if f.Echo? then EchoNs(l.down) + [f.n] else EchoNs(l.down)
  {
    StreamAppends(Start(l), l.down, f, l.s, u);
    EchoAppended(l.down, f);
  }

  /** The echo of a frame just logged fits the end of what is under way to its sender. */
  lemma {:induction false} EchoFits(l: Link, t: Truth, u: Truth, f: ClientFrame)
    requires l.s.up != [] && l.s.up[0] == f && (f.Update? || (f.Seed? && t.hist == []))
    requires LinkOk(l, t) && l.follows && u.hist == t.hist + [f.payload.edits]
    ensures FrameOk(Ahead(l), Frames.Echo(|u.hist|, f.n), Taken(l).s, u)
  {
    assert f in l.s.up;
    AheadOk(l, t);
  }

  /** Once a frame that is answered so is taken, an echo is one more answer under way. */
  lemma {:induction false} EchoInFlight(l: Link, at: nat)
    requires InFlight(l) && l.s.up != [] && (l.s.up[0].Update? || (l.s.up[0].Seed? && !l.s.joined))
    ensures InFlight(Told(Taken(l), Frames.Echo(at, l.s.up[0].n)))
  {
    var f := l.s.up[0];
    TakenTracked(l.s, EchoNs(l.down), Answers(l));
    EchoAppended(l.down, Frames.Echo(at, f.n));
    StatesAppended(l.down, Frames.Echo(at, f.n));
  }

  lemma {:induction false} StatesAppended(down: seq<ServerFrame>, f: ServerFrame)
    ensures States(down + [f]) == States(down) + (if f.State? then 1 else 0)
  {
    if down == [] {
      assert [f][1..] == [] && [] + [f] == [f];
    } else {
      StatesAppended(down[1..], f);
      assert (down + [f])[1..] == down[1..] + [f];
    }
  }

  /** The sender's own update, or the seed it offered, is now the last of the log. */
  lemma {:induction false} ToldEchoOk(l: Link, t: Truth, u: Truth, f: ClientFrame)
    requires l.s.up != [] && l.s.up[0] == f && (f.Update? || (f.Seed? && t.hist == []))
    requires LinkOk(l, t) && l.follows && Grows(t, u) && u.hist == t.hist + [f.payload.edits]
    ensures LinkOk(Told(Taken(l), Frames.Echo(|u.hist|, f.n)), u)
  {
    var m := Taken(l);
    assert f in l.s.up;
    TakenOk(l, t);
    GoodGrows(m.s, t, u);
    AheadOk(l, t);
    EchoFits(l, t, u, f);
    EchoInFlight(l, |u.hist|);
    StreamStays(Start(m), m.down, m.s, m.s, t, u);
    ToldAdds(m, Frames.Echo(|u.hist|, f.n), u);
    NoneLeft(l);
  }

  /** Behind a frame that may be answered no Sub waits, and no seed behind an update or another seed. */
  lemma {:induction false} NoneLeft(l: Link)
    requires SubsOk(l) && InFlight(l) && l.s.up != [] && !Harmless(l.s.up[0])
    ensures forall f :: f in Taken(l).s.up ==> !f.Sub? && (l.s.up[0].Seed? ==> !f.Seed?)
  {
    var m := Taken(l);
    if Asking(l.s.up[0]) { NoneAsked(m.s.up); }
    forall i | 0 <= i < |m.s.up| ensures !m.s.up[i].Sub? {
      assert m.s.up[i] == l.s.up[i + 1] && l.s.up[..i + 1][0] == l.s.up[0];
    }
  }

  /** A State of the room as it is now, to a session that knows all of it up to where it will be, or asked from there. */
  lemma {:induction false} ToldStateOk(l: Link, t: Truth, row: Option<Row>, since: nat)
    requires LinkOk(l, t) && RowOk(row, t.hist) && PointerOf(row) == None
    requires row.Some? ==> row.value.log == t.name
    requires Ahead(l).at == since || (Ahead(l).joined && l.follows)
    requires forall f :: f in l.s.up ==> !f.Sub?
    requires Tracked(l.s, EchoNs(l.down), Answers(l) + 1) && !l.rested
    ensures LinkOk(Told(l.(follows := true), StateFrom(row, since)), t)
  {
    var f := StateFrom(row, since);
    StateFits(l, t, row, since);
    AheadOk(l, t);
    var m := Told(l.(follows := true), f);
    ToldAdds(l.(follows := true), f, t);
    NoneAsked(l.s.up);
    assert SubsOk(m) && SeedsOk(m) && Asks(m);
    assert InFlight(m) by { StateInFlightNow(l, f); }
    assert l.s == m.s && Good(m.s, t);
  }

  lemma {:induction false} StateInFlightNow(l: Link, f: ServerFrame)
    requires Tracked(l.s, EchoNs(l.down), Answers(l) + 1) && f.State?
    ensures InFlight(Told(l.(follows := true), f))
  {
    EchoAppended(l.down, f);
    StatesAppended(l.down, f);
  }

  lemma {:induction false} StateFits(l: Link, t: Truth, row: Option<Row>, since: nat)
    requires LinkOk(l, t) && RowOk(row, t.hist) && PointerOf(row) == None
    requires row.Some? ==> row.value.log == t.name
    requires Ahead(l).at == since || (Ahead(l).joined && l.follows)
    ensures FrameOk(Ahead(l), StateFrom(row, since), l.s, t) && StateFrom(row, since).head == |t.hist|
  {
    AheadOk(l, t);
    CatchesUpFrom(row, t.hist, since, Ahead(l).at);
  }

  /** From where it was asked, or from the head. */
  lemma {:induction false} CatchesUpFrom(row: Option<Row>, hist: seq<Update>, since: nat, at: nat)
    requires RowOk(row, hist) && PointerOf(row) == None && at <= |hist| && (at == since || at == |hist|)
    ensures var f := StateFrom(row, since);
      && f.head == |hist| && hist[..f.head] == hist && StateEdits(f.snapshot, f.deltas) <= Union(hist)
      && Union(hist[..at]) + StateEdits(f.snapshot, f.deltas) == Union(hist)
  {
    StateCatchesUp(row, hist, since);
    assert hist[..|hist|] == hist;
  }
}
