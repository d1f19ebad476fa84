/**
 * What a client and the hub say to each other (packages/protocol/src/frames.ts), without the address every frame
 * carries. `P` is how a payload is seen: bytes on the wire, or what those bytes carry.
 */
module Frames {
  import opened Common

  type DocId = string

  datatype ClientBody<P> =
    | Sub(since: nat)
    | Unsub
    | Update(n: nat, payload: P)
    | Awareness(payload: P)
    | Snapshot(upto: nat, payload: P)
    | Rotate(target: DocId, upto: nat, note: bytes, payload: P)
    | Signal
    | Seed(n: nat, payload: P)

  datatype ServerBody<P> =
    | State(head: nat, snapshot: Option<P>, deltas: seq<P>, log: string)
    | Fanout(at: nat, from: nat, payload: P)
    | Echo(at: nat, n: nat)
    | Peer(from: nat, payload: P)
    | Join(from: nat, who: string, name: string)
    | Leave(from: nat)
    | Moved(target: DocId, note: bytes)
    | Revoked
    | Refused(reason: Refusal)
    | SignalFrom(from: nat)
    | Here(from: nat, who: string, name: string)

  datatype Refusal = TooLarge | TooManyDocs | ReadOnly | Unknown(code: byte)

  const MAX_FRAME_BYTES: nat := 1024 * 1024
  const MAX_DOC_SUBS: nat := 64
  const MAX_DOC_ID_LENGTH: nat := 64
  const MAX_MOVE_NOTE_BYTES: nat := 4 * 1024
}
