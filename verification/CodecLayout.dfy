/**
 * Which octets a frame is, as packages/protocol/src/frames.ts numbers and orders them: round trips alone would also
 * hold of other numbers, read and written alike.
 */
module CodecLayout {
  import opened Common
  import opened Frames
  import opened Wire
  import opened Codec

  /** The number octets spell, the highest first. */
  function Value(b: bytes): nat
  {
    if b == [] then 0 else Value(b[..|b| - 1]) * 256 + b[|b| - 1]
  }

  lemma {:induction false} ValueMore(b: bytes, x: byte)
    ensures Value(b + [x]) == Value(b) * 256 + x
  {
    assert (b + [x])[..|b|] == b;
  }

  lemma {:induction false} FourSpell(a: byte, b: byte, c: byte, d: byte)
    ensures Value([a, b, c, d]) == ((a * 256 + b) * 256 + c) * 256 + d
  {
    ValueMore([], a);
    ValueMore([a], b);
    ValueMore([a, b], c);
    ValueMore([a, b, c], d);
    assert [] + [a] == [a] && [a] + [b] == [a, b] && [a, b] + [c] == [a, b, c] && [a, b, c] + [d] == [a, b, c, d];
  }

  /** Four octets that spell the number, as far as four octets can. */
  ghost predicate Spells(b: bytes, v: nat)
  {
    |b| == 4 && Value(b) == v % TWO_32
  }

  /** Numbers go out with the highest octet first. */
  lemma {:induction false} U32Spells(v: nat)
    ensures Spells(U32(v), v)
  {
    var a, b, c, d := Octet(v / 0x100_0000), Octet(v / 0x1_0000), Octet(v / 0x100), Octet(v);
    FourSpell(a, b, c, d);
    HighOctets(v);
  }

  lemma {:induction false} HighOctets(v: nat)
    ensures v % 0x1_0000 == v / 0x100 % 256 * 256 + v % 256
    ensures v % 0x100_0000 == v / 0x1_0000 % 256 * 0x1_0000 + v % 0x1_0000
    ensures v % TWO_32 == v / 0x100_0000 % 256 * 0x100_0000 + v % 0x100_0000
  {
    assert v / 0x1_0000 == v / 0x100 / 256;
    assert v / 0x100_0000 == v / 0x1_0000 / 256;
    assert v / TWO_32 == v / 0x100_0000 / 256;
  }

  /** A length, then as many bytes. */
  ghost predicate IsBlock(b: bytes, content: bytes)
  {
    |b| == 4 + |content| && Spells(b[..4], |content|) && b[4..] == content
  }

  lemma {:induction false} BlockIsBlock(content: bytes)
    ensures IsBlock(Block(content), content)
  {
    U32Spells(|content|);
    assert Block(content)[..4] == U32(|content|) && Block(content)[4..] == content;
  }

  /** A byte for the length of its UTF-8, then that. */
  ghost predicate IsText(u: Utf8, b: bytes, text: string)
  {
    |u.encode(text)| < 256 && b == [|u.encode(text)|] + u.encode(text)
  }

  lemma {:induction false} TextIsText(u: Utf8, text: string)
    ensures Text(u, text).Some? ==> IsText(u, Text(u, text).value, text)
    ensures Text(u, text).None? <==> |u.encode(text)| > 255
  {
  }

  ghost predicate AreBlocks(parts: seq<bytes>, deltas: seq<bytes>)
  {
    |parts| == |deltas| && forall i {:trigger parts[i]} :: 0 <= i < |parts| ==> IsBlock(parts[i], deltas[i])
  }

  /** One block for each delta, in order. */
  lemma {:induction false} BlocksInOrder(deltas: seq<bytes>) returns (parts: seq<bytes>)
    ensures AreBlocks(parts, deltas) && Blocks(deltas) == Joined(parts)
  {
    if deltas == [] {
      parts := [];
    } else {
      var rest := BlocksInOrder(deltas[1..]);
      BlockIsBlock(deltas[0]);
      parts := [Block(deltas[0])] + rest;
      JoinedFirst(Block(deltas[0]), rest);
    }
  }

  lemma {:induction false} JoinedFirst(first: bytes, rest: seq<bytes>)
    ensures Joined([first] + rest) == first + Joined(rest)
  {
    var all, n := [first] + rest, |rest|;
    if n > 0 {
      assert all[..n] == [first] + rest[..n - 1];
      JoinedFirst(first, rest[..n - 1]);
      Regroup(first, Joined(rest[..n - 1]), rest[n - 1]);
    } else {
      assert all[..0] == [];
    }
  }

  /** The frame's type and slot, an octet each, the document, and the body. */
  ghost predicate LaidOut(u: Utf8, s: bytes, kind: int, slot: byte, doc: string, body: bytes)
    requires 0 <= kind < 256
  {
    exists d :: IsText(u, d, doc) && s == [kind, slot] + d + body
  }

  lemma {:induction false} EncodeLaysOut(u: Utf8, kind: byte, slot: byte, doc: string, body: bytes)
    requires Encode(u, kind, slot, doc, Some(body)).Some?
    ensures LaidOut(u, Encode(u, kind, slot, doc, Some(body)).value, kind, slot, doc, body)
  {
    var d := Text(u, doc).value;
    TextIsText(u, doc);
    assert U8(kind) + (U8(slot) + (d + body)) == [kind, slot] + d + body;
  }

  /** A number, then the payload to the end. */
  ghost predicate Counted(body: bytes, n: nat, payload: bytes)
  {
    |body| >= 4 && Spells(body[..4], n) && body[4..] == payload
  }

  lemma {:induction false} IsCounted(n: nat, payload: bytes)
    ensures Counted(U32(n) + payload, n, payload)
  {
    U32Spells(n);
    assert (U32(n) + payload)[..4] == U32(n) && (U32(n) + payload)[4..] == payload;
  }

  /** The type octet and the body of each frame a client sends. */
  ghost predicate ClientBodyIs(u: Utf8, kind: int, body: bytes, f: ClientBody<bytes>)
  {
    match f
    case Sub(since) => kind == 1 && Counted(body, since, [])
    case Unsub => kind == 2 && body == []
    case Update(n, payload) => kind == 3 && Counted(body, n, payload)
    case Awareness(payload) => kind == 4 && body == payload
    case Snapshot(upto, payload) => kind == 5 && Counted(body, upto, payload)
    case Rotate(target, upto, note, payload) =>
      kind == 6 && exists t, n, b :: IsText(u, t, target) && Spells(n, upto) && IsBlock(b, note) && body == t + n + b + payload
    case Signal => kind == 7 && body == []
    case Seed(n, payload) => kind == 8 && Counted(body, n, payload)
  }

  /** Every frame a client sends goes out under its number, with its fields in this order. */
  lemma {:induction false} ClientLaidOut(u: Utf8, f: ClientFrame) returns (kind: byte, body: bytes)
    requires EncodeClient(u, f).Some?
    ensures LaidOut(u, EncodeClient(u, f).value, kind, f.slot, f.doc, body) && ClientBodyIs(u, kind, body, f.body)
  {
    kind, body := ClientType(f.body), ClientBytes(u, f.body).value;
    EncodeLaysOut(u, kind, f.slot, f.doc, body);
    ClientBodyLaidOut(u, f.body);
  }

  lemma {:induction false} ClientBodyLaidOut(u: Utf8, f: ClientBody<bytes>)
    requires ClientBytes(u, f).Some?
    ensures ClientBodyIs(u, ClientType(f), ClientBytes(u, f).value, f)
  {
    match f
    case Sub(since) => IsCounted(since, []); assert U32(since) + [] == U32(since);
    case Update(n, payload) => IsCounted(n, payload);
    case Snapshot(upto, payload) => IsCounted(upto, payload);
    case Seed(n, payload) => IsCounted(n, payload);
    case Rotate(target, upto, note, payload) => RotateLaidOut(u, target, upto, note, payload);
    case _ =>
  }

  lemma {:induction false} RotateLaidOut(u: Utf8, target: string, upto: nat, note: bytes, payload: bytes)
    requires ClientBytes(u, Rotate(target, upto, note, payload)).Some?
    ensures ClientBodyIs(u, 6, ClientBytes(u, Rotate(target, upto, note, payload)).value, Rotate(target, upto, note, payload))
  {
    var t, n, b := Text(u, target).value, U32(upto), Block(note);
    TextIsText(u, target);
    U32Spells(upto);
    BlockIsBlock(note);
    assert t + (n + (b + payload)) == t + n + b + payload;
  }

  /** A connection, then who it is and by what name. */
  ghost predicate VouchedIs(u: Utf8, body: bytes, from: nat, who: string, name: string)
  {
    exists n, w, t :: Spells(n, from) && IsText(u, w, who) && IsText(u, t, name) && body == n + w + t
  }

  lemma {:induction false} VouchedLaidOut(u: Utf8, from: nat, who: string, name: string)
    requires VouchedBytes(u, from, who, name).Some?
    ensures VouchedIs(u, VouchedBytes(u, from, who, name).value, from, who, name)
  {
    var n, w, t := U32(from), Text(u, who).value, Text(u, name).value;
    U32Spells(from);
    TextIsText(u, who);
    TextIsText(u, name);
    assert n + (w + (t + [])) == n + w + t;
  }

  /** Two numbers, then the payload to the end. */
  ghost predicate CountedTwice(body: bytes, x: nat, y: nat, payload: bytes)
  {
    |body| >= 8 && Spells(body[..4], x) && Spells(body[4..8], y) && body[8..] == payload
  }

  lemma {:induction false} IsCountedTwice(x: nat, y: nat, payload: bytes)
    ensures CountedTwice(U32(x) + (U32(y) + payload), x, y, payload)
  {
    var body := U32(x) + (U32(y) + payload);
    U32Spells(x);
    U32Spells(y);
    assert body[..4] == U32(x) && body[4..8] == U32(y) && body[8..] == payload;
  }

  /** The head, the snapshot as a block, empty for none, how many deltas and each as a block, and last the log's name. */
  ghost predicate StateIs(u: Utf8, body: bytes, head: nat, snapshot: Option<bytes>, deltas: seq<bytes>, log: string)
  {
    exists h, s, n, parts, t {:trigger Spells(h, head), IsBlock(s, OrEmpty(snapshot)), Spells(n, |deltas|), AreBlocks(parts, deltas), IsText(u, t, log)} ::
      && Spells(h, head) && IsBlock(s, OrEmpty(snapshot)) && Spells(n, |deltas|) && AreBlocks(parts, deltas) && IsText(u, t, log)
      && body == h + s + n + Joined(parts) + t
  }

  lemma {:induction false} StateLaidOut(u: Utf8, head: nat, snapshot: Option<bytes>, deltas: seq<bytes>, log: string)
    requires Text(u, log).Some?
    ensures StateIs(u, BeforeLog(head, snapshot, deltas) + Text(u, log).value, head, snapshot, deltas, log)
  {
    var h, s, n, t := U32(head), Block(OrEmpty(snapshot)), U32(|deltas|), Text(u, log).value;
    U32Spells(head);
    BlockIsBlock(OrEmpty(snapshot));
    U32Spells(|deltas|);
    var parts := BlocksInOrder(deltas);
    TextIsText(u, log);
    assert h + (s + (n + Joined(parts))) == h + s + n + Joined(parts);
  }

  /** The octet a refusal is told by. */
  ghost predicate ReasonIs(code: byte, reason: Refusal)
  {
    match reason
    case TooLarge => code == 1
    case TooManyDocs => code == 2
    case ReadOnly => code == 3
    case Unknown(other) => code == other
  }

  /** The type octet and the body of each frame the hub sends. */
  ghost predicate ServerBodyIs(u: Utf8, kind: int, body: bytes, f: ServerBody<bytes>)
  {
    match f
    case State(head, snapshot, deltas, log) => kind == 16 && StateIs(u, body, head, snapshot, deltas, log)
    case Fanout(at, from, payload) => kind == 17 && CountedTwice(body, at, from, payload)
    case Echo(at, n) => kind == 18 && CountedTwice(body, at, n, [])
    case Peer(from, payload) => kind == 19 && Counted(body, from, payload)
    case Join(from, who, name) => kind == 20 && VouchedIs(u, body, from, who, name)
    case Leave(from) => kind == 21 && Counted(body, from, [])
    case Moved(target, note) => kind == 22 && exists t :: IsText(u, t, target) && body == t + note
    case Revoked => kind == 23 && body == []
    case Refused(reason) => kind == 24 && |body| == 1 && ReasonIs(body[0], reason)
    case SignalFrom(from) => kind == 7 && Counted(body, from, [])
    case Here(from, who, name) => kind == 25 && VouchedIs(u, body, from, who, name)
  }

  /** Every frame the hub sends goes out under its number, with its fields in this order. */
  lemma {:induction false} ServerLaidOut(u: Utf8, f: ServerFrame) returns (kind: byte, body: bytes)
    requires EncodeServer(u, f).Some?
    ensures LaidOut(u, EncodeServer(u, f).value, kind, f.slot, f.doc, body) && ServerBodyIs(u, kind, body, f.body)
  {
    kind, body := ServerType(f.body), ServerBytes(u, f.body).value;
    EncodeLaysOut(u, kind, f.slot, f.doc, body);
    ServerBodyLaidOut(u, f.body);
  }

  lemma {:induction false} ServerBodyLaidOut(u: Utf8, f: ServerBody<bytes>)
    requires ServerBytes(u, f).Some?
    ensures ServerBodyIs(u, ServerType(f), ServerBytes(u, f).value, f)
  {
    match f
    case State(head, snapshot, deltas, log) => StateLaidOut(u, head, snapshot, deltas, log);
    case Fanout(at, from, payload) => IsCountedTwice(at, from, payload);
    case Echo(at, n) => IsCountedTwice(at, n, []); assert U32(n) + [] == U32(n);
    case Peer(from, payload) => IsCounted(from, payload);
    case Join(from, who, name) => VouchedLaidOut(u, from, who, name);
    case Here(from, who, name) => VouchedLaidOut(u, from, who, name);
    case Leave(from) => JustCounted(from);
    case SignalFrom(from) => JustCounted(from);
    case Moved(target, note) => TextIsText(u, target);
    case _ =>
  }

  lemma {:induction false} JustCounted(n: nat)
    ensures Counted(U32(n), n, [])
  {
    IsCounted(n, []);
    assert U32(n) + [] == U32(n);
  }
}
