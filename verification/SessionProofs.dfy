/** What every step of a session keeps, taken by itself. */
module SessionProofs {
  import opened Common
  import opened Updates
  import opened Outboxes
  import opened Payloads
  import opened Sessions
  import opened Streams

  /** The payload is the room exactly as it was at `upto`. */
  ghost predicate Covers(payload: Payload, upto: nat, t: Truth)
  {
    upto <= |t.hist| && payload.edits == Union(t.hist[..upto])
  }

  /** A frame the hub may act on whenever it arrives. */
  ghost predicate Safe(f: ClientFrame, t: Truth)
  {
    match f
    case Snapshot(upto, payload) => payload.size > 0 && Covers(payload, upto, t)
    case Rotate(_, upto, _, payload) => Covers(payload, upto, t)
    case _ => true
  }

  /** A frame this session sent: an update is still what waits under its number. */
  ghost predicate Mine(s: Session, f: ClientFrame)
  {
    f.Update? ==> f.n <= s.box.sent && f.payload.edits <= s.doc && Acks(s.box, f.n, f.payload.edits)
  }

  ghost predicate UpOk(s: Session, t: Truth)
  {
    forall f :: f in s.up ==> Safe(f, t) && Mine(s, f)
  }

  /** The document is the room at `at`, what waits in the outbox, and `owed`. */
  ghost predicate Exact(s: Session, owed: Update, t: Truth)
  {
    s.log.at <= |t.hist| && s.doc == Union(t.hist[..s.log.at]) + s.box.Outstanding() + owed
  }

  ghost predicate AgreedOk(s: Session, t: Truth)
  {
    forall a :: a in s.agreed ==> a.at <= |t.hist| && a.content == Union(t.hist[..a.at])
  }

  /** Online with something unanswered, a resend is coming. */
  ghost predicate Waits(s: Session)
  {
    s.online && !s.disposed && s.box.unacked != [] ==> s.box.ackTimer || s.box.timeouts > 0
  }

  ghost predicate Owing(s: Session, owed: Update, t: Truth)
  {
    && s.box.Valid() && Waits(s) && Exact(s, owed, t) && AgreedOk(s, t) && UpOk(s, t)
    && s.log.left == None && s.log.knownSeq <= |t.hist|
    && (s.log.name.Some? ==> s.log.name.value != "" && Names(s.log.name.value, t))
    && (s.joined <==> s.log.at > 0)
    && (s.online ==> s.joined && s.connected)
  }

  ghost predicate Good(s: Session, t: Truth) { Owing(s, {}, t) }

  predicate Posted(f: ClientFrame) { f.Update? || f.Snapshot? || f.Rotate? }

  /** A step that reads no frame: the place in the log stays, and nothing but updates, snapshots and rotations goes out. */
  ghost predicate Moves(s: Session, r: Session)
  {
    && Keeps(s, r) && r.log.at == s.log.at && r.joined == s.joined && r.seed == s.seed
    && r.connected == s.connected && r.disposed == s.disposed
    && s.up <= r.up
    && (s.joined || r.up == s.up)
    && (forall i :: |s.up| <= i < |r.up| ==> Posted(r.up[i]))
  }

  lemma {:induction false} MovesTransitive(a: Session, b: Session, c: Session)
    requires Moves(a, b) && Moves(b, c)
    ensures Moves(a, c)
  {
    forall i | |a.up| <= i < |c.up| ensures Posted(c.up[i]) {
      if i < |b.up| { assert c.up[i] == b.up[i]; }
    }
  }

  lemma {:induction false} MineStays(s: Session, r: Session, t: Truth)
    requires UpOk(s, t) && Keeps(s, r) && r.up == s.up
    ensures UpOk(r, t)
  {
    forall f | f in r.up ensures Safe(f, t) && Mine(r, f) {
      assert f in s.up;
    }
  }

  lemma {:induction false} GoodGrows(s: Session, t: Truth, u: Truth)
    requires Good(s, t) && Grows(t, u)
    requires t.name == "" ==> s.log.name == None
    ensures Good(s, u)
  {
    assert u.hist[..s.log.at] == t.hist[..s.log.at];
    forall a | a in s.agreed ensures a.at <= |u.hist| && a.content == Union(u.hist[..a.at]) {
      assert u.hist[..a.at] == t.hist[..a.at];
    }
    forall f | f in s.up ensures Safe(f, u) {
      SafeGrows(f, t, u);
    }
  }

  lemma {:induction false} SafeGrows(f: ClientFrame, t: Truth, u: Truth)
    requires Safe(f, t) && Grows(t, u)
    ensures Safe(f, u)
  {
    if f.Snapshot? || f.Rotate? {
      assert u.hist[..f.upto] == t.hist[..f.upto];
    }
  }

  // ---- sending

  lemma {:induction false} PostUp(s: Session, f: ClientFrame, t: Truth)
    requires UpOk(s, t) && Safe(f, t) && Mine(s, f)
    ensures UpOk(s.Post(f), t)
  {
    var r := s.Post(f);
    forall g | g in r.up ensures Safe(g, t) && Mine(r, g) {
      assert g in s.up || g == f;
    }
  }

  lemma {:induction false} SendGood(s: Session, owed: Update, f: ClientFrame, t: Truth)
    requires Owing(s, owed, t) && Safe(f, t) && Mine(s, f) && s.joined
    requires Posted(f)
    ensures Owing(s.Send(f), owed, t) && Moves(s, s.Send(f))
  {
    if f.payload.size > MAX_PAYLOAD_BYTES {
      MineStays(s, s.Refused(), t);
    } else {
      PostUp(s, f, t);
    }
  }

  lemma {:induction false} UnackedGood(s: Session, u: Update, t: Truth)
    requires Owing(s, u, t)
    ensures var r := s.(box := s.box.AddUnacked(u)); Good(r, t) && Moves(s, r)
  {
    AddUnackedKeeps(s.box, u);
    MineStays(s, s.(box := s.box.AddUnacked(u)), t);
  }

  lemma {:induction false} UpdateIsMine(s: Session, u: Update, t: Truth)
    requires Owing(s, u, t)
    ensures var r := s.(box := s.box.AddUnacked(u)); Mine(r, Frames.Update(r.box.sent, Sealed(u)))
  {
    AddUnackedKeeps(s.box, u);
  }

  /** The update is listed as unacked by the time its frame is out. */
  lemma {:induction false} SendUpdateGood(s: Session, u: Update, t: Truth)
    requires Owing(s, u, t)
    ensures Good(s.SendUpdate(u), t) && Moves(s, s.SendUpdate(u))
  {
    UnackedGood(s, u, t);
    if s.online {
      var r := s.(box := s.box.AddUnacked(u));
      var f := Frames.Update(r.box.sent, Sealed(u));
      UpdateIsMine(s, u, t);
      SendGood(r, {}, f, t);
      MovesTransitive(s, r, r.Send(f));
    }
  }

  lemma {:induction false} SendMaybeGood(s: Session, u: Option<Update>, t: Truth)
    requires Owing(s, Carried(u), t)
    ensures Good(s.SendMaybe(u), t) && Moves(s, s.SendMaybe(u))
  {
    if u.Some? { SendUpdateGood(s, u.value, t); }
  }

  /** With nothing outstanding the document is exactly the room, so what is agreed is, and so is the snapshot. */
  lemma {:induction false} SettleGood(s: Session, leads: bool, t: Truth)
    requires Good(s, t)
    ensures Good(s.Settle(leads), t) && Moves(s, s.Settle(leads))
  {
    if s.Settled() {
      assert s.doc == Union(t.hist[..s.log.at]);
      var r := s.(agreed := s.agreed + [Agreement(s.log.at, s.doc)]);
      MineStays(s, r, t);
      if s.online && s.log.CompactionDue() && leads {
        var q := r.(log := s.log.(compacted := s.log.at));
        MineStays(r, q, t);
        if Sealed(s.doc).size <= MAX_PAYLOAD_BYTES {
          SendGood(q, {}, Frames.Snapshot(s.log.at, Sealed(s.doc)), t);
        }
      }
    }
  }

  lemma {:induction false} GoOnlineGood(s: Session, t: Truth)
    requires Good(s, t) && s.joined && s.connected
    ensures Good(s.GoOnline(), t) && Moves(s, s.GoOnline())
  {
    var (b, resend) := s.box.TakeUnacked();
    TakeUnackedKeeps(s.box);
    var r := s.(online := true, box := b);
    MineStays(s, r, t);
    SendMaybeGood(r, resend, t);
    MovesTransitive(s, r, s.GoOnline());
  }

  // ---- local steps

  lemma {:induction false} LocalGood(s: Session, u: Update, t: Truth)
    requires Good(s, t)
    ensures Good(s.Local(u), t) && Moves(s, s.Local(u))
  {
    AddPendingKeeps(s.box, u);
    MineStays(s, s.Local(u), t);
  }

  lemma {:induction false} StageGood(s: Session, u: Update, t: Truth)
    requires Good(s, t)
    ensures var r := s.(box := s.box.Stage(u)); Good(r, t) && Moves(s, r)
  {
    MineStays(s, s.(box := s.box.Stage(u)), t);
  }

  lemma {:induction false} DrainedGood(s: Session, t: Truth)
    requires Good(s, t)
    ensures Good(s.DrainedNow(), t) && Moves(s, s.DrainedNow())
  {
    DrainedKeeps(s.box);
    MineStays(s, s.DrainedNow(), t);
  }

  lemma {:induction false} AbsorbedGood(s: Session, merged: Option<Update>, t: Truth)
    requires Good(s, t)
    ensures Good(s.Absorbed(merged), t) && Moves(s, s.Absorbed(merged))
  {
    DrainedGood(s, t);
    if merged.Some? && !s.disposed {
      LocalGood(s.DrainedNow(), merged.value, t);
      MovesTransitive(s, s.DrainedNow(), s.Absorbed(merged));
    }
  }

  lemma {:induction false} FlushFiredGood(s: Session, t: Truth)
    requires Good(s, t)
    ensures Good(s.FlushFired(), t) && Moves(s, s.FlushFired())
  {
    DrainedKeeps(s.box);
    MineStays(s, s.FlushFired(), t);
  }

  lemma {:induction false} FlushedGood(s: Session, leads: bool, t: Truth)
    requires Good(s, t) && s.box.flushes > 0
    ensures Good(s.Flushed(leads), t) && Moves(s, s.Flushed(leads))
  {
    var (b, merged) := s.box.FlushStarted().TakePending();
    var r := s.(box := b);
    MineStays(s, r, t);
    if merged.Some? {
      SendUpdateGood(r, merged.value, t);
    } else {
      SettleGood(r, leads, t);
    }
    MovesTransitive(s, r, s.Flushed(leads));
  }

  lemma {:induction false} AckFiredGood(s: Session, t: Truth)
    requires Good(s, t)
    ensures var r := s.(box := s.box.AckFired()); Good(r, t) && Moves(s, r)
  {
    MineStays(s, s.(box := s.box.AckFired()), t);
  }

  lemma {:induction false} TimedOutGood(s: Session, t: Truth)
    requires Good(s, t)
    ensures Good(s.TimedOut(), t) && Moves(s, s.TimedOut())
  {
    var q := s.(box := s.box.TimeoutStarted());
    if !s.online || s.disposed {
      MineStays(s, q, t);
    } else {
      var (b, all) := q.box.TakeUnacked();
      var r := q.(box := b);
      TakeUnackedKeeps(q.box);
      MineStays(s, r, t);
      SendMaybeGood(r, all, t);
      MovesTransitive(s, r, s.TimedOut());
    }
  }

  lemma {:induction false} AskRotationGood(s: Session, target: Frames.DocId, note: bytes, t: Truth)
    requires Good(s, t)
    ensures Good(s.AskRotation(target, note), t) && Moves(s, s.AskRotation(target, note))
  {
    if s.Settled() && s.online && !s.rotating {
      var r := s.(rotating := true);
      MineStays(s, r, t);
      SendGood(r, {}, Frames.Rotate(target, s.log.at, note, Sealed(s.doc)), t);
      MovesTransitive(s, r, s.AskRotation(target, note));
    }
  }

  lemma {:induction false} RefusedGood(s: Session, t: Truth)
    requires Good(s, t)
    ensures Good(s.Refused(), t) && Moves(s, s.Refused())
  {
    MineStays(s, s.Refused(), t);
  }

  // ---- reading a frame

  /** What reading `f` at view `v` leaves: the session stands where the view says. */
  ghost predicate Reads(s: Session, r: Session, v: View, f: ServerFrame)
  {
    && Keeps(s, r) && r.log.at == Next(v, f).at && r.joined == Next(v, f).joined
    && r.disposed == s.disposed && r.connected == s.connected
    && s.up <= r.up && ((f.State? && !r.joined) || forall i :: |s.up| <= i < |r.up| ==> Posted(r.up[i]))
    && (!r.joined && !f.State? ==> r.up == s.up && r.seed == s.seed)
  }

  ghost predicate At(s: Session, v: View)
  {
    ViewOk(v) && v.at == s.log.at && v.joined == s.joined && (v.offer.Some? ==> v.offer == s.seed)
  }

  lemma {:induction false} ReadsThenMoves(s: Session, q: Session, r: Session, v: View, f: ServerFrame)
    requires Reads(s, q, v, f) && q.joined && Moves(q, r)
    ensures Reads(s, r, v, f)
  {
    forall i | |s.up| <= i < |r.up| ensures Posted(r.up[i]) {
      if i < |q.up| { assert r.up[i] == q.up[i]; }
    }
  }

  /** The State brings the document to the room at its head, joined or about to. */
  lemma {:induction false} CaughtGood(s: Session, v: View, head: nat, snapshot: Option<Payload>, deltas: seq<Payload>, name: string, t: Truth)
    requires Good(s, t) && At(s, v) && FrameOk(v, Frames.State(head, snapshot, deltas, name), s, t)
    ensures !s.log.Lost(head, name)
    ensures var q := s.Caught(head, snapshot, deltas, name).(joined := head > 0); Good(q, t) && Keeps(s, q) && q.up == s.up
  {
    var q := s.Caught(head, snapshot, deltas, name).(joined := head > 0);
    MineStays(s, q, t);
  }

  /** Having caught up, a session folds in its disk if it had not joined, goes online if it was not, and settles. */
  lemma {:induction false} JoinGood(s: Session, disk: Disk, leads: bool, t: Truth)
    requires Good(s, t) && s.joined && s.connected
    ensures var l := if disk.merged.Some? then s.Local(disk.merged.value) else s;
      var r := (if s.online then l.(rotating := false) else l.GoOnline()).Settle(leads);
      Good(r, t) && Moves(s, r)
  {
    var l := if disk.merged.Some? then s.Local(disk.merged.value) else s;
    if disk.merged.Some? { LocalGood(s, disk.merged.value, t); }
    var g := if s.online then l.(rotating := false) else l.GoOnline();
    if s.online { MineStays(l, g, t); } else { GoOnlineGood(l, t); }
    MovesTransitive(s, l, g);
    SettleGood(g, leads, t);
    MovesTransitive(s, g, g.Settle(leads));
  }

  lemma {:induction false} OnStateAgain(s: Session, v: View, f: ServerFrame, disk: Disk, leads: bool, t: Truth)
    requires f.State? && Good(s, t) && At(s, v) && FrameOk(v, f, s, t) && s.connected && f.head > 0 && s.joined
    ensures var r := s.OnState(f.head, f.snapshot, f.deltas, f.log, disk, leads); Good(r, t) && Reads(s, r, v, f)
  {
    CaughtGood(s, v, f.head, f.snapshot, f.deltas, f.log, t);
    var q := s.Caught(f.head, f.snapshot, f.deltas, f.log).(joined := true);
    JoinGood(q, disk.(merged := None), leads, t);
    ReadsThenMoves(s, q, s.OnState(f.head, f.snapshot, f.deltas, f.log, disk, leads), v, f);
  }

  lemma {:induction false} OnStateFirst(s: Session, v: View, f: ServerFrame, disk: Disk, leads: bool, t: Truth)
    requires f.State? && Good(s, t) && At(s, v) && FrameOk(v, f, s, t) && s.connected && f.head > 0 && !s.joined
    ensures var r := s.OnState(f.head, f.snapshot, f.deltas, f.log, disk, leads); Good(r, t) && Reads(s, r, v, f)
  {
    CaughtGood(s, v, f.head, f.snapshot, f.deltas, f.log, t);
    var q := s.Caught(f.head, f.snapshot, f.deltas, f.log).(joined := true);
    var p := q.(seed := None);
    MineStays(q, p, t);
    JoinGood(p, disk, leads, t);
    ReadsThenMoves(s, p, s.OnState(f.head, f.snapshot, f.deltas, f.log, disk, leads), v, f);
  }

  lemma {:induction false} OnStateJoins(s: Session, v: View, f: ServerFrame, disk: Disk, leads: bool, t: Truth)
    requires f.State? && Good(s, t) && At(s, v) && FrameOk(v, f, s, t) && s.connected && f.head > 0
    ensures var r := s.OnState(f.head, f.snapshot, f.deltas, f.log, disk, leads); Good(r, t) && Reads(s, r, v, f)
  {
    if s.joined { OnStateAgain(s, v, f, disk, leads, t); } else { OnStateFirst(s, v, f, disk, leads, t); }
  }

  lemma {:induction false} OnStateGood(s: Session, v: View, f: ServerFrame, disk: Disk, leads: bool, t: Truth)
    requires f.State? && Good(s, t) && At(s, v) && FrameOk(v, f, s, t) && s.connected
    ensures var r := s.OnState(f.head, f.snapshot, f.deltas, f.log, disk, leads);
      Good(r, t) && Reads(s, r, v, f) && (!r.joined ==> Offered(s, r, disk))
  {
    if f.head > 0 {
      OnStateJoins(s, v, f, disk, leads, t);
    } else {
      CaughtGood(s, v, 0, f.snapshot, f.deltas, f.log, t);
      OfferGood(s.Caught(0, f.snapshot, f.deltas, f.log), disk, t);
    }
  }

  /** An empty room is offered the disk's text, unless that is too large to send. */
  ghost predicate Offered(s: Session, r: Session, disk: Disk)
  {
    r.seed == Some(disk.seed) && (r.up == s.up || r.up == s.up + [Frames.Seed(0, Sealed(disk.seed))])
  }

  lemma {:induction false} OfferGood(s: Session, disk: Disk, t: Truth)
    requires Good(s, t) && !s.joined
    ensures var r := s.OfferSeed(disk);
      && Good(r, t) && Keeps(s, r) && r.log == s.log && !r.joined
      && r.connected == s.connected && r.disposed == s.disposed && Offered(s, r, disk)
  {
    var q := s.(seed := Some(disk.seed));
    var f := Frames.Seed(0, Sealed(disk.seed));
    MineStays(s, q, t);
    MineStays(q, q.Refused(), t);
    PostUp(q, f, t);
  }

  lemma {:induction false} OnFanoutGood(s: Session, v: View, f: ServerFrame, leads: bool, t: Truth)
    requires f.Fanout? && Good(s, t) && At(s, v) && FrameOk(v, f, s, t)
    ensures var r := s.OnFanout(f.at, f.payload, leads); Good(r, t) && Reads(s, r, v, f)
  {
    if s.joined {
      UnionStep(t.hist, v.at);
      var q := s.(doc := s.doc + f.payload.edits, log := s.log.(at := f.at));
      MineStays(s, q, t);
      SettleGood(q, leads, t);
      ReadsThenMoves(s, q, q.Settle(leads), v, f);
    }
  }

  /** The echo names one update, now in the log; the earlier ones go out again as one. */
  lemma {:induction false} AckedExact(s: Session, v: View, at: nat, n: nat, t: Truth)
    requires Good(s, t) && At(s, v) && s.joined && FrameOk(v, Frames.Echo(at, n), s, t)
    ensures var (b, dropped) := s.box.Ack(n); Exact(s.(log := s.log.(at := at), box := b), Carried(dropped), t)
  {
    UnionStep(t.hist, v.at);
    AckKeeps(s.box, n);
    if s.box.Names(n) {
      var k :| 0 <= k < |s.box.unacked| && s.box.unacked[k].n == n;
      assert s.box.unacked[k].update <= t.hist[v.at];
    }
  }

  lemma {:induction false} AckedGood(s: Session, v: View, at: nat, n: nat, t: Truth)
    requires Good(s, t) && At(s, v) && s.joined && FrameOk(v, Frames.Echo(at, n), s, t)
    ensures var (b, dropped) := s.box.Ack(n);
      var q := s.(log := s.log.(at := at), box := b);
      Owing(q, Carried(dropped), t) && Keeps(s, q)
  {
    var (b, dropped) := s.box.Ack(n);
    var q := s.(log := s.log.(at := at), box := b);
    AckedExact(s, v, at, n, t);
    AckValid(s.box, n);
    MineStays(s, q, t);
  }

  lemma {:induction false} OnEchoGood(s: Session, v: View, f: ServerFrame, leads: bool, t: Truth)
    requires f.Echo? && Good(s, t) && At(s, v) && FrameOk(v, f, s, t) && s.connected
    ensures var r := s.OnEcho(f.at, f.n, leads); Good(r, t) && Reads(s, r, v, f)
  {
    var g: Session;
    var q: Session;
    if s.joined {
      AckedGood(s, v, f.at, f.n, t);
      var (b, dropped) := s.box.Ack(f.n);
      q := s.(log := s.log.(at := f.at), box := b);
      SendMaybeGood(q, dropped, t);
      g := q.SendMaybe(dropped);
    } else {
      UnionStep(t.hist, 0);
      q := s.(log := s.log.(at := f.at), doc := s.doc + s.seed.value, seed := None, joined := true);
      MineStays(s, q, t);
      GoOnlineGood(q, t);
      g := q.GoOnline();
    }
    SettleGood(g, leads, t);
    MovesTransitive(q, g, g.Settle(leads));
    ReadsThenMoves(s, q, g.Settle(leads), v, f);
  }

  /** Whatever frame comes, the document stays the room at `at` with what waits in the outbox. */
  lemma {:induction false} HandleGood(s: Session, v: View, f: ServerFrame, disk: Disk, leads: bool, t: Truth)
    requires Good(s, t) && At(s, v) && FrameOk(v, f, s, t) && s.connected && !s.disposed
    ensures var r := s.Handle(f, disk, leads);
      && Good(r, t) && Reads(s, r, v, f)
      && (f.State? && !r.joined ==> Offered(s, r, disk))
  {
    match f
    case State(_, _, _, _) => OnStateGood(s, v, f, disk, leads, t);
    case Fanout(_, _, _) => OnFanoutGood(s, v, f, leads, t);
    case Echo(_, _) => OnEchoGood(s, v, f, leads, t);
    case Moved(target, _) => MineStays(s, s.OnMoved(target), t);
    case Refused(_) => RefusedGood(s, t);
    case _ =>
  }
}
