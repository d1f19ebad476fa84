/**
 * A client's session of one document: packages/plugin/src/live/session/session.ts, without presence.
 * Each function is one step of the session's queue; `up` holds what it handed to its present socket, `agreed` what
 * it reported as the room's text.
 */
module Sessions {
  import opened Common
  import opened Updates
  import opened Outboxes
  import opened RoomLogs
  import opened Payloads

  datatype Agreement = Agreement(at: nat, content: Update)

  /** What the disk contributes when a State lets the session join: the seed it would offer, and the edits the merge makes. */
  datatype Disk = Disk(seed: Update, merged: Option<Update>)

  datatype Session = Session(
    doc: Update,
    box: Box,
    log: Log,
    joined: bool,
    online: bool,
    seed: Option<Update>,
    moved: Option<Frames.DocId>,
    disposed: bool,
    rotating: bool,
    connected: bool,
    up: seq<ClientFrame>,
    agreed: seq<Agreement>)
  {
    /** Joined, in place, and waiting on nothing. */
    predicate Settled() { joined && moved == None && !disposed && box.Idle() }

    function Refused(): Session { this.(online := false, rotating := false) }

    function Post(f: ClientFrame): Session { if connected then this.(up := up + [f]) else this }

    /** Frames of a payload beyond the limit are not put on the socket. */
    function Send(f: ClientFrame): Session
    {
      if CarriesPayload(f) && f.payload.size > MAX_PAYLOAD_BYTES then Refused() else Post(f)
    }

    function Local(u: Update): Session { this.(doc := doc + u, box := box.AddPending(u)) }

    function SendUpdate(u: Update): Session
    {
      var s := this.(box := box.AddUnacked(u));
      if online then s.Send(Frames.Update(s.box.sent, Sealed(u))) else s
    }

    function SendMaybe(u: Option<Update>): Session { if u.Some? then SendUpdate(u.value) else this }

    function GoOnline(): Session
    {
      var (b, resend) := box.TakeUnacked();
      this.(online := true, box := b).SendMaybe(resend)
    }

    /** Nothing outstanding: the document is the room at `at`, and a snapshot of it may replace the log. */
    function Settle(leads: bool): Session
    {
      if !Settled() then this
      else
        var s := this.(agreed := agreed + [Agreement(log.at, doc)]);
        if !online || !log.CompactionDue() || !leads then s
        else
          var t := s.(log := log.(compacted := log.at));
          if Sealed(doc).size > MAX_PAYLOAD_BYTES then t
          else t.Send(Frames.Snapshot(log.at, Sealed(doc)))
    }

    function OfferSeed(disk: Disk): Session
    {
      this.(seed := Some(disk.seed)).Send(Frames.Seed(0, Sealed(disk.seed)))
    }

    /** What a State of a foreign log does here: the session goes offline; asking to move on is not modelled. */
    function MoveOn(head: nat, name: string): Session
    {
      this.(online := false, log := log.(left := Some(Left(head, name))))
    }

    function Reconciled(disk: Disk): Session
    {
      var s := this.(seed := None);
      (if disk.merged.Some? then s.Local(disk.merged.value) else s).(joined := true)
    }

    function Caught(head: nat, snapshot: Option<Payload>, deltas: seq<Payload>, name: string): Session
    {
      this.(doc := doc + StateEdits(snapshot, deltas), log := log.Reached(head, name, snapshot.Some?, |deltas|))
    }

    function OnState(head: nat, snapshot: Option<Payload>, deltas: seq<Payload>, name: string, disk: Disk, leads: bool): Session
    {
      if log.Lost(head, name) then MoveOn(head, name)
      else
        var s := Caught(head, snapshot, deltas, name);
        if !s.joined && head == 0 then s.OfferSeed(disk)
        else
          var t := if s.joined then s else s.Reconciled(disk);
          (if t.online then t.(rotating := false) else t.GoOnline()).Settle(leads)
    }

    function OnFanout(at: nat, payload: Payload, leads: bool): Session
    {
      if !joined || log.left.Some? then this
      else this.(doc := doc + payload.edits, log := log.(at := at)).Settle(leads)
    }

    function OnEcho(at: nat, n: nat, leads: bool): Session
    {
      var s := this.(log := log.(at := at));
      if joined then
        var (b, dropped) := box.Ack(n);
        s.(box := b).SendMaybe(dropped).Settle(leads)
      else if seed.Some? then
        s.(doc := doc + seed.value, seed := None, joined := true).GoOnline().Settle(leads)
      else s.Settle(leads)
    }

    function OnMoved(target: Frames.DocId): Session { this.(moved := Some(target), rotating := false) }

    /** `handle`: one frame from the hub. */
    function Handle(f: ServerFrame, disk: Disk, leads: bool): Session
    {
      match f
      case State(head, snapshot, deltas, name) => OnState(head, snapshot, deltas, name, disk, leads)
      case Fanout(at, _, payload) => OnFanout(at, payload, leads)
      case Echo(at, n) => OnEcho(at, n, leads)
      case Moved(target, _) => OnMoved(target)
      case Refused(_) => Refused()
      case _ => this
    }

    function Flushed(leads: bool): Session
    {
      var (b, merged) := box.FlushStarted().TakePending();
      var s := this.(box := b);
      if merged.Some? then s.SendUpdate(merged.value) else s.Settle(leads)
    }

    /** `drainStaged`, asked for before its timer fires. */
    function DrainedNow(): Session
    {
      this.(doc := doc + Union(box.staged), box := box.Drained())
    }

    /** A version edited outside the room is folded in after what is staged; closed, its edits are nobody's. */
    function Absorbed(merged: Option<Update>): Session
    {
      var s := DrainedNow();
      if merged.Some? && !disposed then s.Local(merged.value) else s
    }

    function FlushFired(): Session
    {
      this.(doc := doc + Union(box.staged), box := box.FlushFired())
    }

    function TimedOut(): Session
    {
      var s := this.(box := box.TimeoutStarted());
      if !online || disposed then s
      else
        var (b, all) := s.box.TakeUnacked();
        s.(box := b).SendMaybe(all)
    }

    function AskRotation(target: Frames.DocId, note: bytes): Session
    {
      if !Settled() || !online || rotating then this
      else this.(rotating := true).Send(Frames.Rotate(target, log.at, note, Sealed(doc)))
    }

    /** A socket came or went; a new one asks for what the log holds past `at`. */
    function ConnectionChanged(now: bool): Session
    {
      if disposed then this
      else
        var s := this.(rotating := false, online := false, connected := now, up := [], log := log.(left := None));
        if now then s.Send(Frames.Sub(log.at)) else s
    }

    function Disposed(): Session
    {
      if disposed then this
      else
        var drained := this.(doc := doc + Union(box.staged), box := box.Drained());
        var (b, rest) := drained.box.StopTimers().TakePending();
        drained.(disposed := true, rotating := false, box := b).SendMaybe(rest).Send(Frames.Unsub)
    }
  }

  /** A session just opened, on a connected hub or not. */
  function Opened(knownSeq: nat, connected: bool): Session
  {
    var s := Session({}, EMPTY_BOX, NewLog(knownSeq), false, false, None, None, false, false, connected, [], []);
    if connected then s.Send(Frames.Sub(0)) else s
  }
}
