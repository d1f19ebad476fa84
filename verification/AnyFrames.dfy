/**
 * What a session and its socket keep whatever was sent there before: frames tell of a log that only grows, and
 * nothing outstanding is without a timer. Sharing a socket with a session closed before is no exception.
 */
module AnyFrames {
  import opened Common
  import opened Updates
  import opened Outboxes
  import opened Payloads
  import opened Docs
  import opened Sessions
  import opened Streams
  import opened SessionProofs
  import opened Links

  /** Nothing outstanding is without a timer. */
  ghost predicate Kept(s: Session) { s.box.Valid() && Waits(s) }

  /** A step that leaves the log alone but for its compactions. */
  ghost predicate Holds(s: Session, r: Session)
  {
    Kept(r) && r.log.(compacted := 0) == s.log.(compacted := 0)
  }

  lemma {:induction false} SendHolds(s: Session, f: ClientFrame)
    requires Kept(s)
    ensures Holds(s, s.Send(f)) && s.Send(f).box == s.box
  {
    var r := s.Send(f);
    assert r == s.Refused() || r == s || r == s.(up := s.up + [f]);
  }

  lemma {:induction false} SendMaybeHolds(s: Session, u: Option<Update>)
    requires s.box.Valid() && (u.None? ==> Waits(s))
    ensures Holds(s, s.SendMaybe(u))
  {
    if u.Some? {
      AddUnackedKeeps(s.box, u.value);
      var r := s.(box := s.box.AddUnacked(u.value));
      if s.online { SendHolds(r, Frames.Update(r.box.sent, Sealed(u.value))); }
    }
  }

  lemma {:induction false} SettleHolds(s: Session, leads: bool)
    requires Kept(s)
    ensures Holds(s, s.Settle(leads))
  {
    if s.Settled() && s.online && s.log.CompactionDue() && leads {
      var q := s.(agreed := s.agreed + [Agreement(s.log.at, s.doc)], log := s.log.(compacted := s.log.at));
      SendHolds(q, Frames.Snapshot(s.log.at, Sealed(s.doc)));
    }
  }

  /** Whatever was unacked is out again, with a timer of its own. */
  lemma {:induction false} ResendHolds(s: Session)
    requires s.box.Valid()
    ensures var (b, all) := s.box.TakeUnacked(); Holds(s, s.(box := b).SendMaybe(all))
  {
    var (b, all) := s.box.TakeUnacked();
    SendMaybeHolds(s.(box := b), all);
  }

  lemma {:induction false} FlushedHolds(s: Session, leads: bool)
    requires Kept(s) && s.box.flushes > 0
    ensures Holds(s, s.Flushed(leads))
  {
    var (b, merged) := s.box.FlushStarted().TakePending();
    var q := s.(box := b);
    if merged.Some? { SendMaybeHolds(q, merged); } else { SettleHolds(q, leads); }
  }

  lemma {:induction false} TimedOutHolds(s: Session)
    requires Kept(s)
    ensures Holds(s, s.TimedOut())
  {
    if s.online && !s.disposed { ResendHolds(s.(box := s.box.TimeoutStarted())); }
  }

  lemma {:induction false} DisposedHolds(s: Session)
    requires Kept(s)
    ensures Holds(s, s.Disposed())
  {
    if !s.disposed {
      var (b, rest) := s.box.Drained().StopTimers().TakePending();
      var q := s.(doc := s.doc + Union(s.box.staged), disposed := true, rotating := false, box := b);
      SendMaybeHolds(q, rest);
      SendHolds(q.SendMaybe(rest), Frames.Unsub);
    }
  }

  lemma {:induction false} AbsorbedHolds(s: Session, merged: Option<Update>)
    requires Kept(s)
    ensures Holds(s, s.Absorbed(merged))
  {
    DrainedKeeps(s.box);
    if merged.Some? { AddPendingKeeps(s.box.Drained(), merged.value); }
  }

  lemma {:induction false} RotationHolds(s: Session, target: Frames.DocId, note: bytes)
    requires Kept(s)
    ensures Holds(s, s.AskRotation(target, note))
  {
    SendHolds(s.(rotating := true), Frames.Rotate(target, s.log.at, note, Sealed(s.doc)));
  }

  lemma {:induction false} ActedHolds(s: Session, a: Act)
    requires Kept(s)
    ensures Holds(s, Acted(s, a))
  {
    match a {
      case Drain => DrainedKeeps(s.box);
      case Absorb(merged) => AbsorbedHolds(s, merged);
      case FlushFires => DrainedKeeps(s.box);
      case Flush(leads) => if s.box.flushes > 0 { FlushedHolds(s, leads); }
      case Timeout => if s.box.timeouts > 0 { TimedOutHolds(s); }
      case AskRotation(target, note) => RotationHolds(s, target, note);
      case Dispose => DisposedHolds(s);
      case _ =>
    }
  }

  // ---- reading

  lemma {:induction false} JoinHolds(s: Session, disk: Disk, leads: bool)
    requires Kept(s)
    ensures var t := if s.joined then s else s.Reconciled(disk);
      Holds(s, (if t.online then t.(rotating := false) else t.GoOnline()).Settle(leads))
  {
    var t := if s.joined then s else s.Reconciled(disk);
    assert Holds(s, t);
    var g := if t.online then t.(rotating := false) else t.GoOnline();
    if !t.online { ResendHolds(t.(online := true)); }
    SettleHolds(g, leads);
  }

  lemma {:induction false} StateHolds(s: Session, f: ServerFrame, disk: Disk, leads: bool)
    requires Kept(s) && f.State? && !s.log.Lost(f.head, f.log)
    ensures var r := s.Handle(f, disk, leads);
      Holds(s.Caught(f.head, f.snapshot, f.deltas, f.log), r)
  {
    var q := s.Caught(f.head, f.snapshot, f.deltas, f.log);
    assert Kept(q);
    if !q.joined && f.head == 0 {
      SendHolds(q.(seed := Some(disk.seed)), Frames.Seed(0, Sealed(disk.seed)));
    } else {
      JoinHolds(q, disk, leads);
    }
  }

  /** Whatever counter the echo names. */
  lemma {:induction false} EchoHolds(s: Session, at: nat, n: nat, leads: bool)
    requires Kept(s)
    ensures Holds(s.(log := s.log.(at := at)), s.OnEcho(at, n, leads))
  {
    var q := s.(log := s.log.(at := at));
    if s.joined {
      var (b, dropped) := s.box.Ack(n);
      AckValid(s.box, n);
      AckWaits(s, n);
      SendMaybeHolds(q.(box := b), dropped);
      SettleHolds(q.(box := b).SendMaybe(dropped), leads);
    } else if s.seed.Some? {
      var j := q.(doc := s.doc + s.seed.value, seed := None, joined := true);
      ResendHolds(j.(online := true));
      SettleHolds(j.GoOnline(), leads);
    } else {
      SettleHolds(q, leads);
    }
  }

  lemma {:induction false} AckWaits(s: Session, n: nat)
    requires Kept(s)
    ensures Waits(s.(box := s.box.Ack(n).0))
  {
  }

  // ---- a link

  /** The place in the log that a frame names. */
  function Place(at: nat, f: ServerFrame): nat
  {
    match f
    case State(head, _, _, _) => head
    case Fanout(a, _, _) => a
    case Echo(a, _) => a
    case _ => at
  }

  ghost predicate PlaceOk(at: nat, f: ServerFrame, knownSeq: nat, t: Truth)
  {
    && at <= Place(at, f) && (Quiet(f) || Place(at, f) <= |t.hist|)
    && (f.State? ==> knownSeq <= f.head && Names(f.log, t))
  }

  /** Every frame names a place past those before it, in the one log there is. */
  ghost predicate Climbs(at: nat, down: seq<ServerFrame>, knownSeq: nat, t: Truth)
    decreases |down|
  {
    down == [] || (PlaceOk(at, down[0], knownSeq, t) && Climbs(Place(at, down[0]), down[1..], knownSeq, t))
  }

  ghost predicate LogOk(s: Session, t: Truth)
  {
    && s.log.left == None && s.log.at <= |t.hist| && s.log.knownSeq <= |t.hist|
    && (s.log.name.Some? ==> s.log.name.value != "" && Names(s.log.name.value, t))
  }

  ghost predicate LinkShaped(l: Link, t: Truth)
  {
    Kept(l.s) && LogOk(l.s, t) && Climbs(l.s.log.at, l.down, l.s.log.knownSeq, t)
  }

  lemma {:induction false} ClimbsLower(at: nat, lower: nat, down: seq<ServerFrame>, knownSeq: nat, less: nat, t: Truth)
    requires Climbs(at, down, knownSeq, t) && lower <= at && less <= Max(at, knownSeq)
    ensures Climbs(lower, down, less, t)
    decreases |down|
  {
    if down != [] {
      ClimbsLower(Place(at, down[0]), Place(lower, down[0]), down[1..], knownSeq, less, t);
    }
  }

  /** A frame of the log as it is now fits behind any others. */
  ghost predicate TellsNow(f: ServerFrame, t: Truth)
  {
    !Quiet(f) ==> Place(0, f) == |t.hist| && (f.State? ==> Names(f.log, t))
  }

  lemma {:induction false} ClimbsAppends(at: nat, down: seq<ServerFrame>, f: ServerFrame, knownSeq: nat, t: Truth)
    requires Climbs(at, down, knownSeq, t) && TellsNow(f, t) && at <= |t.hist| && knownSeq <= |t.hist|
    ensures Climbs(at, down + [f], knownSeq, t)
    decreases |down|
  {
    var all := down + [f];
    if down == [] {
      assert all[0] == f && all[1..] == [];
    } else {
      assert all[0] == down[0] && all[1..] == down[1..] + [f];
      ClimbsAppends(Place(at, down[0]), down[1..], f, knownSeq, t);
    }
  }

  lemma {:induction false} ClimbsGrow(at: nat, down: seq<ServerFrame>, knownSeq: nat, t: Truth, u: Truth)
    requires Climbs(at, down, knownSeq, t) && Grows(t, u)
    ensures Climbs(at, down, knownSeq, u)
    decreases |down|
  {
    if down != [] {
      ClimbsGrow(Place(at, down[0]), down[1..], knownSeq, t, u);
    }
  }

  lemma {:induction false} ClimbsNext(at: nat, down: seq<ServerFrame>, knownSeq: nat, t: Truth)
    requires Climbs(at, down, knownSeq, t) && down != []
    ensures Climbs(at, down[1..], knownSeq, t)
  {
    ClimbsLower(Place(at, down[0]), at, down[1..], knownSeq, knownSeq, t);
  }

  lemma {:induction false} ClimbsOn(at: nat, down: seq<ServerFrame>, k: nat, knownSeq: nat, t: Truth)
    requires Climbs(at, down, knownSeq, t) && k <= |down|
    ensures Climbs(at, down[k..], knownSeq, t)
    decreases k
  {
    if k == 0 {
      assert down[k..] == down;
    } else {
      ClimbsOn(at, down, k - 1, knownSeq, t);
      ClimbsNext(at, down[k - 1..], knownSeq, t);
      assert down[k - 1..][1..] == down[k..];
    }
  }

  lemma {:induction false} LinkGrows(l: Link, t: Truth, u: Truth)
    requires LinkShaped(l, t) && Grows(t, u)
    ensures LinkShaped(l, u)
  {
    ClimbsGrow(l.s.log.at, l.down, l.s.log.knownSeq, t, u);
  }

  lemma {:induction false} ToldShaped(l: Link, f: ServerFrame, t: Truth)
    requires LinkShaped(l, t) && TellsNow(f, t)
    ensures LinkShaped(Told(l, f), t)
  {
    ClimbsAppends(l.s.log.at, l.down, f, l.s.log.knownSeq, t);
  }

  /** No State of the log as it was or is makes it look lost. */
  lemma {:induction false} NotLost(l: Link, t: Truth)
    requires LinkShaped(l, t) && l.down != [] && l.down[0].State?
    ensures !l.s.log.Lost(l.down[0].head, l.down[0].log)
  {
  }

  /** Reading a frame leaves the session where it says, or where it was. */
  lemma {:induction false} HandleHolds(l: Link, disk: Disk, leads: bool, t: Truth)
    requires LinkShaped(l, t) && l.down != []
    ensures var r := l.s.Handle(l.down[0], disk, leads);
      && Kept(r) && LogOk(r, t) && r.log.knownSeq == l.s.log.knownSeq
      && l.s.log.at <= r.log.at <= Place(l.s.log.at, l.down[0])
  {
    var f, s := l.down[0], l.s;
    if f.State? {
      NotLost(l, t);
      StateHolds(s, f, disk, leads);
    } else {
      MoveHolds(s, f, disk, leads);
    }
  }

  lemma {:induction false} MoveHolds(s: Session, f: ServerFrame, disk: Disk, leads: bool)
    requires Kept(s) && !f.State?
    ensures var r := s.Handle(f, disk, leads);
      Holds(s, r) || Holds(s.(log := s.log.(at := Place(s.log.at, f))), r)
  {
    if f.Echo? {
      EchoHolds(s, f.at, f.n, leads);
    } else if f.Fanout? && s.joined && s.log.left.None? {
      SettleHolds(s.(doc := s.doc + f.payload.edits, log := s.log.(at := f.at)), leads);
    }
  }

  lemma {:induction false} ReadShaped(l: Link, disk: Disk, leads: bool, t: Truth)
    requires LinkShaped(l, t) && l.down != [] && !l.s.disposed && l.s.connected
    ensures LinkShaped(Stepped(l, Read(disk, leads)), t)
  {
    HandleHolds(l, disk, leads, t);
    var r := l.s.Handle(l.down[0], disk, leads);
    ClimbsLower(Place(l.s.log.at, l.down[0]), r.log.at, l.down[1..], l.s.log.knownSeq, l.s.log.knownSeq, t);
  }

  lemma {:induction false} SteppedShaped(l: Link, a: Act, t: Truth)
    requires LinkShaped(l, t)
    ensures LinkShaped(Stepped(l, a), t)
  {
    if a.Read? {
      if l.down != [] && !l.s.disposed && l.s.connected { ReadShaped(l, a.disk, a.leads, t); }
    } else if !a.Socket? {
      ActedHolds(l.s, a);
    }
  }

  /** What this device knew of the log, the frames inherited do not fall behind. */
  lemma {:induction false} ReopenedShaped(l: Link, knownSeq: nat, missed: nat, t: Truth)
    requires LinkShaped(l, t) && missed <= |l.down| && knownSeq <= Max(l.s.log.at, l.s.log.knownSeq)
    ensures LinkShaped(Reopened(l, knownSeq, missed), t)
  {
    ClimbsOn(l.s.log.at, l.down, missed, l.s.log.knownSeq, t);
    ClimbsLower(l.s.log.at, 0, l.down[missed..], l.s.log.knownSeq, knownSeq, t);
  }
}
