/** Sealed updates (packages/plugin/src/crypto/seal.ts), as the relay and a client each see them. */
module Payloads {
  import opened Common
  import opened Updates
  import Frames

  /** A sealed update: the relay sees its length, a client what it carries. */
  datatype Payload = Payload(size: nat, edits: Update)

  type ClientFrame = Frames.ClientBody<Payload>
  type ServerFrame = Frames.ServerBody<Payload>

  /** The initialisation vector and the tag: what is sealed is never empty. */
  const SEAL_OVERHEAD: nat := 28
  const MAX_PAYLOAD_BYTES: nat := Frames.MAX_FRAME_BYTES - 1024

  function Sealed(u: Update): Payload { Payload(SEAL_OVERHEAD + |u|, u) }

  function EditsOf(payloads: seq<Payload>): seq<Update>
  {
    seq(|payloads|, i requires 0 <= i < |payloads| => payloads[i].edits)
  }

  /** Everything a State carries. */
  function StateEdits(snapshot: Option<Payload>, deltas: seq<Payload>): Update
  {
    (if snapshot.Some? then snapshot.value.edits else {}) + Union(EditsOf(deltas))
  }

  lemma {:induction false} EditsOfSplit(payloads: seq<Payload>, k: nat)
    requires k <= |payloads|
    ensures EditsOf(payloads[k..]) == EditsOf(payloads)[k..]
  {
  }

  predicate CarriesPayload(f: ClientFrame)
  {
    f.Update? || f.Awareness? || f.Snapshot? || f.Rotate? || f.Seed?
  }
}
