/**
 * The session as it is written, an object updated step by step: packages/plugin/src/live/session/session.ts and
 * rotation.ts. Every method does what the step of the same name in `Sessions` says.
 */
module LiveSessions {
  import opened Common
  import opened Updates
  import opened Outboxes
  import opened RoomLogs
  import opened Payloads
  import opened Sessions

  class LiveSession {
    const outbox: Outbox
    const log: RoomLog
    var doc: Update
    var hasJoined: bool
    var online: bool
    var seed: Option<Update>
    var moved: Option<Frames.DocId>
    var disposed: bool
    /** A rotation was asked for and not answered. */
    var rotating: bool
    var connected: bool
    /** What was handed to the present socket. */
    var up: seq<ClientFrame>
    /** What was reported through `onAgreed`. */
    var agreed: seq<Agreement>

    function Contents(): Session
      reads this, outbox, log
    {
      Session(doc, outbox.Contents(), log.Contents(), hasJoined, online, seed, moved, disposed, rotating, connected, up, agreed)
    }

    ghost predicate Valid()
      reads this, outbox, log
    {
      outbox.Valid()
    }

    constructor (knownSeq: nat, connected: bool)
      ensures Valid() && Contents() == Opened(knownSeq, connected)
      ensures fresh(outbox) && fresh(log)
    {
      outbox := new Outbox();
      log := new RoomLog(knownSeq);
      doc, hasJoined, online, seed, moved := {}, false, false, None, None;
      disposed, rotating, agreed := false, false, [];
      this.connected := connected;
      up := [];
      new;
      if connected { Subscribe(); }
    }

    predicate Settled()
      reads this, outbox
    {
      hasJoined && moved == None && !disposed && outbox.Contents().Idle()
    }

    method Subscribe()
      requires Valid()
      modifies this
      ensures Valid() && Contents() == old(Contents()).Send(Frames.Sub(old(log.at)))
    {
      Send(Frames.Sub(log.at));
    }

    method Send(f: ClientFrame)
      requires Valid()
      modifies this
      ensures Valid() && Contents() == old(Contents()).Send(f)
    {
      if CarriesPayload(f) && f.payload.size > MAX_PAYLOAD_BYTES {
        OnRefused();
        return;
      }
      if connected { up := up + [f]; }
    }

    method OnRefused()
      requires Valid()
      modifies this
      ensures Valid() && Contents() == old(Contents()).Refused()
    {
      online := false;
      rotating := false;
    }

    /** An edit typed or merged here. */
    method Local(update: Update)
      requires Valid()
      modifies this, outbox
      ensures Valid() && Contents() == old(Contents()).Local(update)
    {
      doc := doc + update;
      outbox.AddPending(update);
    }

    method SendUpdate(update: Update)
      requires Valid()
      modifies this, outbox
      ensures Valid() && Contents() == old(Contents()).SendUpdate(update)
    {
      var n := outbox.AddUnacked(update);
      var payload := Sealed(update);
      if online { Send(Frames.Update(n, payload)); }
    }

    method SendMaybe(update: Option<Update>)
      requires Valid()
      modifies this, outbox
      ensures Valid() && Contents() == old(Contents()).SendMaybe(update)
    {
      if update.Some? { SendUpdate(update.value); }
    }

    method GoOnline()
      requires Valid()
      modifies this, outbox
      ensures Valid() && Contents() == old(Contents()).GoOnline()
    {
      online := true;
      var resend := outbox.TakeUnacked();
      SendMaybe(resend);
    }

    method Settle(leads: bool)
      requires Valid()
      modifies this, log
      ensures Valid() && Contents() == old(Contents()).Settle(leads)
    {
      if !Settled() { return; }
      agreed := agreed + [Agreement(log.at, doc)];
      if !online || !log.Contents().CompactionDue() || !leads { return; }
      var upto := log.CompactedNow();
      var payload := Sealed(doc);
      if payload.size > MAX_PAYLOAD_BYTES { return; }
      if online { Send(Frames.Snapshot(upto, payload)); }
    }

    method OfferSeed(disk: Disk)
      requires Valid()
      modifies this
      ensures Valid() && Contents() == old(Contents()).OfferSeed(disk)
    {
      var payload := Sealed(disk.seed);
      seed := Some(disk.seed);
      Send(Frames.Seed(0, payload));
    }

    method MoveOn(head: nat, name: string)
      requires Valid()
      modifies this, log
      ensures Valid() && Contents() == old(Contents()).MoveOn(head, name)
    {
      online := false;
      log.Leave(head, name);
    }

    /** False while a seed is on offer. */
    method Join(head: nat, disk: Disk) returns (done: bool)
      requires Valid() && !hasJoined
      modifies this, outbox
      ensures Valid() && done == (head > 0)
      ensures Contents() == if head > 0 then old(Contents()).Reconciled(disk) else old(Contents()).OfferSeed(disk)
    {
      if head == 0 {
        OfferSeed(disk);
        return false;
      }
      seed := None;
      if disk.merged.Some? { Local(disk.merged.value); }
      hasJoined := true;
      done := true;
    }

    method OnState(head: nat, snapshot: Option<Payload>, deltas: seq<Payload>, name: string, disk: Disk, leads: bool)
      requires Valid()
      modifies this, outbox, log
      ensures Valid() && Contents() == old(Contents()).OnState(head, snapshot, deltas, name, disk, leads)
    {
      var lost := log.Lost(head, name);
      if lost {
        MoveOn(head, name);
        return;
      }
      Apply(snapshot, deltas);
      log.Reached(head, name, snapshot.Some?, |deltas|);
      assert Contents() == old(Contents()).Caught(head, snapshot, deltas, name);
      if !hasJoined {
        var done := Join(head, disk);
        if !done { return; }
      }
      Resume(leads);
    }

    /** What follows a State once joined: an online session ends its rotation, another goes online; both then settle. */
    method Resume(leads: bool)
      requires Valid()
      modifies this, outbox, log
      ensures Valid()
      ensures var s := old(Contents()); Contents() == (if s.online then s.(rotating := false) else s.GoOnline()).Settle(leads)
    {
      if online { rotating := false; } else { GoOnline(); }
      Settle(leads);
    }

    /** The snapshot, then every delta, as one transaction. */
    method Apply(snapshot: Option<Payload>, deltas: seq<Payload>)
      requires Valid()
      modifies this`doc
      ensures Valid() && doc == old(doc) + StateEdits(snapshot, deltas)
    {
      if snapshot.Some? { doc := doc + snapshot.value.edits; }
      ghost var before := doc;
      for i := 0 to |deltas|
        invariant doc == before + Union(EditsOf(deltas[..i]))
      {
        assert EditsOf(deltas[..i + 1]) == EditsOf(deltas[..i]) + [deltas[i].edits];
        UnionAppend(EditsOf(deltas[..i]), deltas[i].edits);
        doc := doc + deltas[i].edits;
      }
      assert deltas[..|deltas|] == deltas;
    }

    method OnFanout(at: nat, payload: Payload, leads: bool)
      requires Valid()
      modifies this, log
      ensures Valid() && Contents() == old(Contents()).OnFanout(at, payload, leads)
    {
      if !hasJoined || log.left.Some? { return; }
      doc := doc + payload.edits;
      log.Advance(at);
      Settle(leads);
    }

    method OnEcho(at: nat, n: nat, leads: bool)
      requires Valid()
      modifies this, outbox, log
      ensures Valid() && Contents() == old(Contents()).OnEcho(at, n, leads)
    {
      log.Advance(at);
      if hasJoined {
        var dropped := outbox.Ack(n);
        SendMaybe(dropped);
      } else if seed.Some? {
        JoinOnSeed();
      }
      Settle(leads);
    }

    method JoinOnSeed()
      requires Valid() && seed.Some?
      modifies this, outbox
      ensures Valid()
      ensures Contents() == old(Contents()).(doc := old(doc) + old(seed).value, seed := None, joined := true).GoOnline()
    {
      doc := doc + seed.value;
      seed := None;
      hasJoined := true;
      GoOnline();
    }

    method OnMoved(target: Frames.DocId)
      requires Valid()
      modifies this
      ensures Valid() && Contents() == old(Contents()).OnMoved(target)
    {
      moved := Some(target);
      rotating := false;
    }

    method Handle(f: ServerFrame, disk: Disk, leads: bool)
      requires Valid()
      modifies this, outbox, log
      ensures Valid() && Contents() == old(Contents()).Handle(f, disk, leads)
    {
      match f
      case State(head, snapshot, deltas, name) => OnState(head, snapshot, deltas, name, disk, leads);
      case Fanout(at, _, payload) => OnFanout(at, payload, leads);
      case Echo(at, n) => OnEcho(at, n, leads);
      case Moved(target, _) => OnMoved(target);
      case Refused(_) => OnRefused();
      case _ =>
    }

    method Flush(leads: bool)
      requires Valid() && outbox.flushes > 0
      modifies this, outbox, log
      ensures Valid() && Contents() == old(Contents()).Flushed(leads)
    {
      var merged := outbox.StartFlush();
      if merged.Some? { SendUpdate(merged.value); } else { Settle(leads); }
    }

    method DrainStaged()
      requires Valid()
      modifies this, outbox
      ensures Valid() && Contents() == old(Contents()).DrainedNow()
    {
      var made := outbox.DrainStaged();
      doc := doc + made;
    }

    method Absorb(merged: Option<Update>)
      requires Valid()
      modifies this, outbox
      ensures Valid() && Contents() == old(Contents()).Absorbed(merged)
    {
      DrainStaged();
      if merged.Some? && !disposed { Local(merged.value); }
    }

    method FlushTimer()
      requires Valid() && outbox.timer
      modifies this, outbox
      ensures Valid() && Contents() == old(Contents()).FlushFired()
    {
      var made := outbox.FireFlush();
      doc := doc + made;
    }

    method AckTimedOut()
      requires Valid() && outbox.timeouts > 0
      modifies this, outbox
      ensures Valid() && Contents() == old(Contents()).TimedOut()
    {
      outbox.StartTimeout();
      if !online || disposed { return; }
      var all := outbox.TakeUnacked();
      SendMaybe(all);
    }

    /** The one rotation this device may ask for at a time. */
    method Rotate(target: Frames.DocId, note: bytes) returns (asked: bool)
      requires Valid()
      modifies this
      ensures Valid() && Contents() == old(Contents()).AskRotation(target, note)
      ensures asked ==> old(Settled() && online && !rotating)
    {
      if !(Settled() && online) || rotating { return false; }
      var upto := log.at;
      rotating := true;
      Send(Frames.Rotate(target, upto, note, Sealed(doc)));
      asked := true;
    }

    method OnConnectionChange(now: bool)
      requires Valid()
      modifies this, log
      ensures Valid() && Contents() == old(Contents()).ConnectionChanged(now)
    {
      if disposed { return; }
      rotating := false;
      online := false;
      connected := now;
      up := [];
      log.ForgetLeaving();
      if now { Subscribe(); }
    }

    method Dispose()
      requires Valid()
      modifies this, outbox
      ensures Valid() && Contents() == old(Contents()).Disposed()
    {
      if disposed { return; }
      ghost var s := Contents();
      ghost var (b, due) := s.box.Drained().StopTimers().TakePending();
      var made := outbox.DrainStaged();
      doc := doc + made;
      disposed := true;
      rotating := false;
      var rest := outbox.Close();
      assert rest == due && Contents() == s.(doc := s.doc + Union(s.box.staged), disposed := true, rotating := false, box := b);
      SendMaybe(rest);
      Send(Frames.Unsub);
    }
  }
}
