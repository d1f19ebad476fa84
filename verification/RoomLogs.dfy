/** A device's place in the log of its room: packages/plugin/src/live/session/room-log.ts. */
module RoomLogs {
  import opened Common

  /** The length of log since the last snapshot at which a leader sends a new one. */
  const COMPACT_AFTER: nat := 200

  datatype Left = Left(upto: nat, log: string)

  datatype Log = Log(at: nat, compacted: int, name: Option<string>, left: Option<Left>, knownSeq: nat)
  {
    /** The log a State names cannot continue the one this value stands in. */
    predicate Lost(head: nat, log: string) {
      || (log != "" && name.Some? && log != name.value)
      || head < Max(at, knownSeq)
    }

    function Reached(head: nat, log: string, snapshot: bool, deltas: nat): Log {
      this.(name := if log != "" then Some(log) else name,
            compacted := if snapshot || at == 0 then head - deltas else compacted,
            at := head)
    }

    predicate CompactionDue() { at - compacted >= COMPACT_AFTER }
  }

  function NewLog(knownSeq: nat): Log { Log(0, 0, None, None, knownSeq) }

  class RoomLog {
    var at: nat
    var compacted: int
    var name: Option<string>
    var left: Option<Left>
    const knownSeq: nat

    function Contents(): Log
      reads this
    {
      Log(at, compacted, name, left, knownSeq)
    }

    constructor (knownSeq: nat)
      ensures Contents() == NewLog(knownSeq)
    {
      this.knownSeq := knownSeq;
      at, compacted, name, left := 0, 0, None, None;
    }

    method Lost(head: nat, log: string) returns (lost: bool)
      ensures lost == Contents().Lost(head, log)
    {
      if log != "" && name.Some? && log != name.value {
        return true;
      }
      lost := head < Max(at, knownSeq);
    }

    method Leave(head: nat, log: string)
      modifies this
      ensures Contents() == old(Contents()).(left := Some(Left(head, log)))
    {
      left := Some(Left(head, log));
    }

    /** A new socket: whatever was asked of the last one is unasked. */
    method ForgetLeaving()
      modifies this
      ensures Contents() == old(Contents()).(left := None)
    {
      left := None;
    }

    method Reached(head: nat, log: string, snapshot: bool, deltas: nat)
      modifies this
      ensures Contents() == old(Contents()).Reached(head, log, snapshot, deltas)
    {
      if log != "" { name := Some(log); }
      if snapshot || at == 0 { compacted := head - deltas; }
      at := head;
    }

    method Advance(to: nat)
      modifies this
      ensures Contents() == old(Contents()).(at := to)
    {
      at := to;
    }

    method CompactedNow() returns (upto: nat)
      modifies this
      ensures Contents() == old(Contents()).(compacted := old(at)) && upto == old(at)
    {
      compacted := at;
      upto := at;
    }
  }
}
