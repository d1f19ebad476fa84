/** Frames as bytes: packages/protocol/src/codec.ts. */
module Codec {
  import opened Common
  import opened Frames
  import opened Wire

  /** A frame with its address: the channel's slot within a socket, and the document. */
  datatype Addressed<B> = Addressed(slot: byte, doc: string, body: B)

  type ClientFrame = Addressed<ClientBody<bytes>>
  type ServerFrame = Addressed<ServerBody<bytes>>

  function ClientType(f: ClientBody<bytes>): byte
  {
    match f
    case Sub(_) => 1
    case Unsub => 2
    case Update(_, _) => 3
    case Awareness(_) => 4
    case Snapshot(_, _) => 5
    case Rotate(_, _, _, _) => 6
    case Signal => 7
    case Seed(_, _) => 8
  }

  function ServerType(f: ServerBody<bytes>): byte
  {
    match f
    case State(_, _, _, _) => 16
    case Fanout(_, _, _) => 17
    case Echo(_, _) => 18
    case Peer(_, _) => 19
    case Join(_, _, _) => 20
    case Leave(_) => 21
    case Moved(_, _) => 22
    case Revoked => 23
    case Refused(_) => 24
    case SignalFrom(_) => 7
    case Here(_, _, _) => 25
  }

  function ReasonCode(r: Refusal): byte
  {
    match r
    case TooLarge => 1
    case TooManyDocs => 2
    case ReadOnly => 3
    case Unknown(code) => code
  }

  function ReasonOf(code: byte): Refusal
  {
    if code == 1 then TooLarge else if code == 2 then TooManyDocs else if code == 3 then ReadOnly else Unknown(code)
  }

  /** A text, then the bytes after it. */
  function TextThen(u: Utf8, s: string, after: bytes): Option<bytes>
  {
    var t := Text(u, s);
    if t.None? then None else Some(t.value + after)
  }

  /** A connection with its user and name: the body of Join and of Here. */
  function VouchedBytes(u: Utf8, from: nat, who: string, name: string): Option<bytes>
  {
    var t := TextThen(u, name, []);
    var w := if t.None? then None else TextThen(u, who, t.value);
    if w.None? then None else Some(U32(from) + w.value)
  }

  function ClientBytes(u: Utf8, f: ClientBody<bytes>): Option<bytes>
  {
    match f
    case Sub(since) => Some(U32(since))
    case Unsub => Some([])
    case Update(n, payload) => Some(U32(n) + payload)
    case Awareness(payload) => Some(payload)
    case Snapshot(upto, payload) => Some(U32(upto) + payload)
    case Rotate(target, upto, note, payload) => TextThen(u, target, U32(upto) + (Block(note) + payload))
    case Signal => Some([])
    case Seed(n, payload) => Some(U32(n) + payload)
  }

  /** Every delta as a block. */
  function Blocks(deltas: seq<bytes>): bytes
  {
    if deltas == [] then [] else Block(deltas[0]) + Blocks(deltas[1..])
  }

  function OrEmpty(b: Option<bytes>): bytes { if b.Some? then b.value else [] }

  /** A State up to the name of its log. */
  function BeforeLog(head: nat, snapshot: Option<bytes>, deltas: seq<bytes>): bytes
  {
    U32(head) + (Block(OrEmpty(snapshot)) + (U32(|deltas|) + Blocks(deltas)))
  }

  function ServerBytes(u: Utf8, f: ServerBody<bytes>): Option<bytes>
  {
    match f
    case State(head, snapshot, deltas, log) =>
      var t := Text(u, log);
      if t.None? then None
      else Some(BeforeLog(head, snapshot, deltas) + t.value)
    case Fanout(at, from, payload) => Some(U32(at) + (U32(from) + payload))
    case Echo(at, n) => Some(U32(at) + U32(n))
    case Peer(from, payload) => Some(U32(from) + payload)
    case Join(from, who, name) => VouchedBytes(u, from, who, name)
    case Leave(from) => Some(U32(from))
    case Moved(target, note) => TextThen(u, target, note)
    case Revoked => Some([])
    case Refused(reason) => Some(U8(ReasonCode(reason)))
    case SignalFrom(from) => Some(U32(from))
    case Here(from, who, name) => VouchedBytes(u, from, who, name)
  }

  /** The address, then the body; none when a text is too long. */
  function Encode(u: Utf8, kind: byte, slot: nat, doc: string, body: Option<bytes>): Option<bytes>
  {
    if body.None? then None
    else
      var t := TextThen(u, doc, body.value);
      if t.None? then None else Some(U8(kind) + (U8(slot) + t.value))
  }

  function EncodeClient(u: Utf8, f: ClientFrame): Option<bytes>
  {
    Encode(u, ClientType(f.body), f.slot, f.doc, ClientBytes(u, f.body))
  }

  function EncodeServer(u: Utf8, f: ServerFrame): Option<bytes>
  {
    Encode(u, ServerType(f.body), f.slot, f.doc, ServerBytes(u, f.body))
  }

  function ReadClient(u: Utf8, kind: byte, s: bytes): Option<ClientBody<bytes>>
  {
    if kind == 1 then (match ReadU32(s) case Short => None case Got(since, _) => Some(Sub(since)))
    else if kind == 2 then Some(Unsub)
    else if kind == 3 then (match ReadU32(s) case Short => None case Got(n, payload) => Some(Update(n, payload)))
    else if kind == 4 then Some(Awareness(s))
    else if kind == 5 then (match ReadU32(s) case Short => None case Got(upto, payload) => Some(Snapshot(upto, payload)))
    else if kind == 6 then ReadRotate(u, s)
    else if kind == 7 then Some(Signal)
    else if kind == 8 then (match ReadU32(s) case Short => None case Got(n, payload) => Some(Seed(n, payload)))
    else None
  }

  function ReadRotate(u: Utf8, s: bytes): Option<ClientBody<bytes>>
  {
    match ReadText(u, s)
    case Short => None
    case Got(target, a) =>
      match ReadU32(a)
      case Short => None
      case Got(upto, b) =>
        match ReadBlock(b)
        case Short => None
        case Got(note, payload) => Some(Rotate(target, upto, note, payload))
  }

  function ReadBlocks(s: bytes, n: nat): Got<seq<bytes>>
  {
    if n == 0 then Got([], s)
    else
      match ReadBlock(s)
      case Short => Short
      case Got(first, a) =>
        match ReadBlocks(a, n - 1)
        case Short => Short
        case Got(others, rest) => Got([first] + others, rest)
  }

  /** A writer from before the log's name stops short of it. */
  function ReadState(u: Utf8, s: bytes): Option<ServerBody<bytes>>
  {
    match ReadU32(s)
    case Short => None
    case Got(head, a) =>
      match ReadBlock(a)
      case Short => None
      case Got(snapshot, b) =>
        match ReadU32(b)
        case Short => None
        case Got(n, c) =>
          match ReadBlocks(c, n)
          case Short => None
          case Got(deltas, d) =>
            var found := if snapshot == [] then None else Some(snapshot);
            if d == [] then Some(State(head, found, deltas, ""))
            else
              match ReadText(u, d)
              case Short => None
              case Got(log, _) => Some(State(head, found, deltas, log))
  }

  function ReadVouched(u: Utf8, s: bytes, arrives: bool): Option<ServerBody<bytes>>
  {
    match ReadU32(s)
    case Short => None
    case Got(from, a) =>
      match ReadText(u, a)
      case Short => None
      case Got(who, b) =>
        match ReadText(u, b)
        case Short => None
        case Got(name, _) => Some(if arrives then Join(from, who, name) else Here(from, who, name))
  }

  function ReadTwo(s: bytes): Got<(nat, nat)>
  {
    match ReadU32(s)
    case Short => Short
    case Got(x, a) =>
      match ReadU32(a)
      case Short => Short
      case Got(y, b) => Got((x, y), b)
  }

  function ReadServer(u: Utf8, kind: byte, s: bytes): Option<ServerBody<bytes>>
  {
    if kind == 16 then ReadState(u, s)
    else if kind == 17 then (match ReadTwo(s) case Short => None case Got(p, payload) => Some(Fanout(p.0, p.1, payload)))
    else if kind == 18 then (match ReadTwo(s) case Short => None case Got(p, _) => Some(Echo(p.0, p.1)))
    else if kind == 19 then (match ReadU32(s) case Short => None case Got(from, payload) => Some(Peer(from, payload)))
    else if kind == 20 then ReadVouched(u, s, true)
    else if kind == 21 then (match ReadU32(s) case Short => None case Got(from, _) => Some(Leave(from)))
    else if kind == 22 then (match ReadText(u, s) case Short => None case Got(target, note) => Some(Moved(target, note)))
    else if kind == 23 then Some(Revoked)
    else if kind == 24 then (match ReadU8(s) case Short => None case Got(code, _) => Some(Refused(ReasonOf(code))))
    else if kind == 7 then (match ReadU32(s) case Short => None case Got(from, _) => Some(SignalFrom(from)))
    else if kind == 25 then ReadVouched(u, s, false)
    else None
  }

  datatype Head = Head(kind: byte, slot: byte, doc: string)

  function ReadHead(u: Utf8, s: bytes): Got<Head>
  {
    match ReadU8(s)
    case Short => Short
    case Got(kind, a) =>
      match ReadU8(a)
      case Short => Short
      case Got(slot, b) =>
        match ReadText(u, b)
        case Short => Short
        case Got(doc, rest) => Got(Head(kind, slot, doc), rest)
  }

  /** Some exactly when the bytes start with a whole frame of a kind clients send. */
  function DecodeClient(u: Utf8, s: bytes): Option<ClientFrame>
  {
    match ReadHead(u, s)
    case Short => None
    case Got(h, rest) =>
      var body := ReadClient(u, h.kind, rest);
      if body.None? then None else Some(Addressed(h.slot, h.doc, body.value))
  }

  function DecodeServer(u: Utf8, s: bytes): Option<ServerFrame>
  {
    match ReadHead(u, s)
    case Short => None
    case Got(h, rest) =>
      var body := ReadServer(u, h.kind, rest);
      if body.None? then None else Some(Addressed(h.slot, h.doc, body.value))
  }

  function Readdressed(s: bytes, slot: nat): bytes
  {
    if |s| < 2 then s else s[1 := Octet(slot)]
  }

  /** The frame given stays as it is: the copy differs at the slot's octet, if the frame is long enough to have one. */
  method WithSlot(frame: array<byte>, slot: nat) returns (out: array<byte>)
    ensures fresh(out) && out[..] == Readdressed(frame[..], slot)
  {
    out := new byte[frame.Length](i requires 0 <= i < frame.Length reads frame => frame[i]);
    assert out[..] == frame[..];
    if out.Length >= 2 {
      out[1] := Octet(slot);
    }
  }
}
