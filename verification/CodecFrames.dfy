/** Frames written part by part and read from the start, as packages/protocol/src/codec.ts does. */
module CodecFrames {
  import opened Common
  import opened Frames
  import opened Wire
  import opened Codec

  /** A body written after what was there; nothing is promised of a writer that threw. */
  ghost predicate Wrote(was: bytes, now: bytes, body: Option<bytes>, ok: bool)
  {
    ok == body.Some? && (ok ==> now == was + body.value)
  }

  lemma {:induction false} WroteAfter(was: bytes, first: bytes, between: bytes, now: bytes, body: Option<bytes>, ok: bool)
    requires between == was + first && Wrote(between, now, body, ok)
    ensures Wrote(was, now, if body.Some? then Some(first + body.value) else None, ok)
  {
    if ok { Regroup(was, first, body.value); }
  }

  /** A counter, then bytes. */
  method WriteCounted(out: Writer, n: nat, payload: bytes)
    requires out.Valid()
    modifies out
    ensures out.Valid() && Wrote(old(out.Contents()), out.Contents(), Some(U32(n) + payload), true)
  {
    ghost var was := out.Contents();
    out.PutU32(n);
    out.Bytes(payload);
    Regroup(was, U32(n), payload);
  }

  method WriteVouched(u: Utf8, out: Writer, from: nat, who: string, name: string) returns (ok: bool)
    requires out.Valid()
    modifies out
    ensures out.Valid() && Wrote(old(out.Contents()), out.Contents(), VouchedBytes(u, from, who, name), ok)
  {
    ghost var was := out.Contents();
    out.PutU32(from);
    ghost var first := out.Contents();
    ok := out.PutText(u, who);
    if !ok { return; }
    ghost var second := out.Contents();
    ok := out.PutText(u, name);
    if ok { Vouch(u, was, first, second, out.Contents(), from, who, name); }
  }

  lemma {:induction false} Vouch(u: Utf8, was: bytes, first: bytes, second: bytes, now: bytes, from: nat, who: string, name: string)
    requires first == was + U32(from) && Text(u, who).Some? && second == first + Text(u, who).value
    requires Text(u, name).Some? && now == second + Text(u, name).value
    ensures Wrote(was, now, VouchedBytes(u, from, who, name), true)
  {
    var w, t := Text(u, who).value, Text(u, name).value;
    assert t + [] == t;
    Regroup(first, w, t);
    Regroup(was, U32(from), w + t);
  }

  method WriteRotate(u: Utf8, out: Writer, target: DocId, upto: nat, note: bytes, payload: bytes) returns (ok: bool)
    requires out.Valid()
    modifies out
    ensures out.Valid()
    ensures Wrote(old(out.Contents()), out.Contents(), TextThen(u, target, U32(upto) + (Block(note) + payload)), ok)
  {
    ghost var was := out.Contents();
    ok := out.PutText(u, target);
    if !ok { return; }
    ghost var first := out.Contents();
    out.PutU32(upto);
    ghost var second := out.Contents();
    out.PutBlock(note);
    out.Bytes(payload);
    Regroup(second, Block(note), payload);
    Regroup(first, U32(upto), Block(note) + payload);
    Regroup(was, Text(u, target).value, U32(upto) + (Block(note) + payload));
  }

  method WriteClient(u: Utf8, f: ClientBody<bytes>, out: Writer) returns (ok: bool)
    requires out.Valid()
    modifies out
    ensures out.Valid() && Wrote(old(out.Contents()), out.Contents(), ClientBytes(u, f), ok)
  {
    ok := true;
    match f
    case Sub(since) => out.PutU32(since);
    case Unsub => assert out.Contents() + [] == out.Contents();
    case Update(n, payload) => WriteCounted(out, n, payload);
    case Awareness(payload) => out.Bytes(payload);
    case Snapshot(upto, payload) => WriteCounted(out, upto, payload);
    case Rotate(target, upto, note, payload) => ok := WriteRotate(u, out, target, upto, note, payload);
    case Signal => assert out.Contents() + [] == out.Contents();
    case Seed(n, payload) => WriteCounted(out, n, payload);
  }

  lemma {:induction false} BlocksAppend(deltas: seq<bytes>, k: nat)
    requires k < |deltas|
    ensures Blocks(deltas[..k + 1]) == Blocks(deltas[..k]) + Block(deltas[k])
  {
    if k == 0 {
      assert deltas[..1][1..] == [] && deltas[..0] == [];
      assert Block(deltas[0]) + [] == Block(deltas[0]) && [] + Block(deltas[0]) == Block(deltas[0]);
    } else {
      assert deltas[..k + 1][1..] == deltas[1..][..k] && deltas[..k][1..] == deltas[1..][..k - 1];
      BlocksAppend(deltas[1..], k - 1);
      Regroup(Block(deltas[0]), Blocks(deltas[1..][..k - 1]), Block(deltas[k]));
    }
  }

  method WriteBlocks(out: Writer, deltas: seq<bytes>)
    requires out.Valid()
    modifies out
    ensures out.Valid() && out.Contents() == old(out.Contents()) + Blocks(deltas)
  {
    ghost var was := out.Contents();
    assert was + [] == was;
    for k := 0 to |deltas|
      invariant out.Valid() && out.Contents() == was + Blocks(deltas[..k])
    {
      out.PutBlock(deltas[k]);
      BlocksAppend(deltas, k);
      Regroup(was, Blocks(deltas[..k]), Block(deltas[k]));
    }
    assert deltas[..|deltas|] == deltas;
  }

  method WriteState(u: Utf8, out: Writer, head: nat, snapshot: Option<bytes>, deltas: seq<bytes>, log: string)
    returns (ok: bool)
    requires out.Valid()
    modifies out
    ensures out.Valid()
    ensures Wrote(old(out.Contents()), out.Contents(), ServerBytes(u, State(head, snapshot, deltas, log)), ok)
  {
    ghost var was := out.Contents();
    out.PutU32(head);
    ghost var first := out.Contents();
    out.PutBlock(OrEmpty(snapshot));
    ghost var second := out.Contents();
    out.PutU32(|deltas|);
    WriteBlocks(out, deltas);
    Regroup(second, U32(|deltas|), Blocks(deltas));
    Regroup(first, Block(OrEmpty(snapshot)), U32(|deltas|) + Blocks(deltas));
    Regroup(was, U32(head), Block(OrEmpty(snapshot)) + (U32(|deltas|) + Blocks(deltas)));
    ok := out.PutText(u, log);
    if ok { Regroup(was, BeforeLog(head, snapshot, deltas), Text(u, log).value); }
  }

  method WriteMoved(u: Utf8, out: Writer, target: DocId, note: bytes) returns (ok: bool)
    requires out.Valid()
    modifies out
    ensures out.Valid() && Wrote(old(out.Contents()), out.Contents(), TextThen(u, target, note), ok)
  {
    ghost var was := out.Contents();
    ok := out.PutText(u, target);
    if !ok { return; }
    out.Bytes(note);
    Regroup(was, Text(u, target).value, note);
  }

  method WriteServer(u: Utf8, f: ServerBody<bytes>, out: Writer) returns (ok: bool)
    requires out.Valid()
    modifies out
    ensures out.Valid() && Wrote(old(out.Contents()), out.Contents(), ServerBytes(u, f), ok)
  {
    ok := true;
    match f
    case State(head, snapshot, deltas, log) => ok := WriteState(u, out, head, snapshot, deltas, log);
    case Fanout(at, from, payload) =>
      ghost var was := out.Contents();
      out.PutU32(at);
      ghost var between := out.Contents();
      WriteCounted(out, from, payload);
      WroteAfter(was, U32(at), between, out.Contents(), Some(U32(from) + payload), true);
    case Echo(at, n) =>
      ghost var was := out.Contents();
      out.PutU32(at);
      out.PutU32(n);
      Regroup(was, U32(at), U32(n));
    case Peer(from, payload) => WriteCounted(out, from, payload);
    case Join(from, who, name) => ok := WriteVouched(u, out, from, who, name);
    case Leave(from) => out.PutU32(from);
    case Moved(target, note) => ok := WriteMoved(u, out, target, note);
    case Revoked => assert out.Contents() + [] == out.Contents();
    case Refused(reason) => out.PutU8(ReasonCode(reason));
    case SignalFrom(from) => out.PutU32(from);
    case Here(from, who, name) => ok := WriteVouched(u, out, from, who, name);
  }

  /** Type, slot and document; what every frame starts with. */
  method WriteHead(u: Utf8, out: Writer, kind: byte, slot: byte, doc: string) returns (ok: bool)
    requires out.Valid() && out.Contents() == []
    modifies out
    ensures out.Valid() && ok == Text(u, doc).Some?
    ensures ok ==> out.Contents() == U8(kind) + (U8(slot) + Text(u, doc).value)
  {
    out.PutU8(kind);
    out.PutU8(slot);
    ok := out.PutText(u, doc);
    if ok { Regroup(U8(kind), U8(slot), Text(u, doc).value); }
  }

  lemma {:induction false} HeadThenBody(u: Utf8, kind: byte, slot: byte, doc: string, body: bytes)
    requires Text(u, doc).Some?
    ensures Encode(u, kind, slot, doc, Some(body)) == Some((U8(kind) + (U8(slot) + Text(u, doc).value)) + body)
  {
    Regroup(U8(slot), Text(u, doc).value, body);
    Regroup(U8(kind), U8(slot) + Text(u, doc).value, body);
  }

  /** None where the source throws: a text too long. */
  method EncodeClientFrame(u: Utf8, f: ClientFrame) returns (out: Option<array<byte>>)
    ensures out.Some? == EncodeClient(u, f).Some?
    ensures out.Some? ==> fresh(out.value) && out.value[..] == EncodeClient(u, f).value
  {
    var w := new Writer();
    var ok := WriteHead(u, w, ClientType(f.body), f.slot, f.doc);
    if !ok { return None; }
    ok := WriteClient(u, f.body, w);
    if !ok { return None; }
    HeadThenBody(u, ClientType(f.body), f.slot, f.doc, ClientBytes(u, f.body).value);
    var frame := w.Finish();
    out := Some(frame);
  }

  method EncodeServerFrame(u: Utf8, f: ServerFrame) returns (out: Option<array<byte>>)
    ensures out.Some? == EncodeServer(u, f).Some?
    ensures out.Some? ==> fresh(out.value) && out.value[..] == EncodeServer(u, f).value
  {
    var w := new Writer();
    var ok := WriteHead(u, w, ServerType(f.body), f.slot, f.doc);
    if !ok { return None; }
    ok := WriteServer(u, f.body, w);
    if !ok { return None; }
    HeadThenBody(u, ServerType(f.body), f.slot, f.doc, ServerBytes(u, f.body).value);
    var frame := w.Finish();
    out := Some(frame);
  }

  function After(done: seq<bytes>, got: Got<seq<bytes>>): Got<seq<bytes>>
  {
    match got
    case Short => Short
    case Got(others, rest) => Got(done + others, rest)
  }

  lemma {:induction false} OneMoreBlock(done: seq<bytes>, s: bytes, left: nat)
    requires left > 0
    ensures After(done, ReadBlocks(s, left))
         == if ReadBlock(s).Short? then Short
            else After(done + [ReadBlock(s).value], ReadBlocks(ReadBlock(s).rest, left - 1))
  {
    var b := ReadBlock(s);
    if b.Got? && ReadBlocks(b.rest, left - 1).Got? {
      Regroup(done, [b.value], ReadBlocks(b.rest, left - 1).value);
    }
  }

  lemma {:induction false} BlockTaken(all: Got<seq<bytes>>, done: seq<bytes>, s: bytes, left: nat, b: Option<bytes>, rest: bytes)
    requires left > 0 && all == After(done, ReadBlocks(s, left)) && Agrees(ReadBlock(s), b, rest)
    ensures if b.None? then all == Short else all == After(done + [b.value], ReadBlocks(rest, left - 1))
  {
    OneMoreBlock(done, s, left);
  }

  lemma {:induction false} NoBlockYet(s: bytes, n: nat)
    ensures After([], ReadBlocks(s, n)) == ReadBlocks(s, n)
  {
    if ReadBlocks(s, n).Got? { assert [] + ReadBlocks(s, n).value == ReadBlocks(s, n).value; }
  }

  lemma {:induction false} NoMoreBlocks(done: seq<bytes>, s: bytes)
    ensures After(done, ReadBlocks(s, 0)) == Got(done, s)
  {
    assert done + [] == done;
  }

  method TakeBlocks(input: Reader, n: nat) returns (got: Option<seq<bytes>>)
    requires input.Valid()
    modifies input`at
    ensures input.Valid() && Agrees(ReadBlocks(old(input.Rest()), n), got, input.Rest())
  {
    ghost var all := ReadBlocks(input.Rest(), n);
    ghost var coming := all;
    NoBlockYet(input.Rest(), n);
    var deltas: seq<bytes> := [];
    var left := n;
    while left > 0
      invariant input.Valid() && left >= 0
      invariant all == After(deltas, coming) && coming == ReadBlocks(input.Rest(), left)
    {
      ghost var rest := input.Rest();
      var b := input.TakeBlock();
      BlockTaken(all, deltas, rest, left, b, input.Rest());
      if b.None? { return None; }
      coming := ReadBlocks(input.Rest(), left - 1);
      deltas := deltas + [b.value];
      left := left - 1;
    }
    NoMoreBlocks(deltas, input.Rest());
    got := Some(deltas);
  }

  method TakeState(u: Utf8, input: Reader) returns (f: Option<ServerBody<bytes>>)
    requires input.Valid()
    modifies input`at
    ensures input.Valid() && f == ReadState(u, old(input.Rest()))
  {
    var head := input.TakeU32();
    if head.None? { return None; }
    var snapshot := input.TakeBlock();
    if snapshot.None? { return None; }
    var n := input.TakeU32();
    if n.None? { return None; }
    var deltas := TakeBlocks(input, n.value);
    if deltas.None? { return None; }
    var log := Some("");
    var more := input.More();
    if more { log := input.TakeText(u); }
    if log.None? { return None; }
    f := Some(State(head.value, if |snapshot.value| > 0 then Some(snapshot.value) else None, deltas.value, log.value));
  }

  method TakeVouched(u: Utf8, input: Reader, arrives: bool) returns (f: Option<ServerBody<bytes>>)
    requires input.Valid()
    modifies input`at
    ensures input.Valid() && f == ReadVouched(u, old(input.Rest()), arrives)
  {
    var from := input.TakeU32();
    if from.None? { return None; }
    var who := input.TakeText(u);
    if who.None? { return None; }
    var name := input.TakeText(u);
    if name.None? { return None; }
    f := Some(if arrives then Join(from.value, who.value, name.value) else Here(from.value, who.value, name.value));
  }

  method TakeTwo(input: Reader) returns (got: Option<(nat, nat)>)
    requires input.Valid()
    modifies input`at
    ensures input.Valid() && Agrees(ReadTwo(old(input.Rest())), got, input.Rest())
  {
    var x := input.TakeU32();
    if x.None? { return None; }
    var y := input.TakeU32();
    if y.None? { return None; }
    got := Some((x.value, y.value));
  }

  /** One counter and nothing else that is read. */
  method TakeSender(kind: byte, input: Reader) returns (f: Option<ServerBody<bytes>>)
    requires input.Valid() && kind in {19, 21, 7}
    modifies input`at
    ensures input.Valid()
    ensures forall u {:trigger ReadServer(u, kind, old(input.Rest()))} :: f == ReadServer(u, kind, old(input.Rest()))
  {
    var from := input.TakeU32();
    if from.None? { return None; }
    if kind == 21 { return Some(Leave(from.value)); }
    if kind == 7 { return Some(SignalFrom(from.value)); }
    var payload := input.TakeRest();
    f := Some(Peer(from.value, payload));
  }

  method TakePair(kind: byte, input: Reader) returns (f: Option<ServerBody<bytes>>)
    requires input.Valid() && kind in {17, 18}
    modifies input`at
    ensures input.Valid()
    ensures forall u {:trigger ReadServer(u, kind, old(input.Rest()))} :: f == ReadServer(u, kind, old(input.Rest()))
  {
    var p := TakeTwo(input);
    if p.None? { return None; }
    if kind == 18 { return Some(Echo(p.value.0, p.value.1)); }
    var payload := input.TakeRest();
    f := Some(Fanout(p.value.0, p.value.1, payload));
  }

  method TakeMoved(u: Utf8, input: Reader) returns (f: Option<ServerBody<bytes>>)
    requires input.Valid()
    modifies input`at
    ensures input.Valid() && f == ReadServer(u, 22, old(input.Rest()))
  {
    var target := input.TakeText(u);
    if target.None? { return None; }
    var note := input.TakeRest();
    f := Some(Moved(target.value, note));
  }

  /** The body of a frame by its type; none for an unknown type and for a truncated or malformed body. */
  method TakeServer(u: Utf8, kind: byte, input: Reader) returns (f: Option<ServerBody<bytes>>)
    requires input.Valid()
    modifies input`at
    ensures input.Valid() && f == ReadServer(u, kind, old(input.Rest()))
  {
    if kind == 16 {
      f := TakeState(u, input);
    } else if kind in {17, 18} {
      f := TakePair(kind, input);
    } else if kind in {19, 21, 7} {
      f := TakeSender(kind, input);
    } else if kind in {20, 25} {
      f := TakeVouched(u, input, kind == 20);
    } else if kind == 22 {
      f := TakeMoved(u, input);
    } else if kind == 23 {
      f := Some(Revoked);
    } else if kind == 24 {
      var code := input.TakeU8();
      f := if code.None? then None else Some(Refused(ReasonOf(code.value)));
    } else {
      f := None;
    }
  }

  method TakeRotate(u: Utf8, input: Reader) returns (f: Option<ClientBody<bytes>>)
    requires input.Valid()
    modifies input`at
    ensures input.Valid() && f == ReadRotate(u, old(input.Rest()))
  {
    var target := input.TakeText(u);
    if target.None? { return None; }
    var upto := input.TakeU32();
    if upto.None? { return None; }
    var note := input.TakeBlock();
    if note.None? { return None; }
    var payload := input.TakeRest();
    f := Some(Rotate(target.value, upto.value, note.value, payload));
  }

  method TakeClient(u: Utf8, kind: byte, input: Reader) returns (f: Option<ClientBody<bytes>>)
    requires input.Valid()
    modifies input`at
    ensures input.Valid() && f == ReadClient(u, kind, old(input.Rest()))
  {
    if kind == 2 {
      f := Some(Unsub);
    } else if kind == 7 {
      f := Some(Signal);
    } else if kind == 4 {
      var payload := input.TakeRest();
      f := Some(Awareness(payload));
    } else if kind == 6 {
      f := TakeRotate(u, input);
    } else if kind in {1, 3, 5, 8} {
      var n := input.TakeU32();
      if n.None? { return None; }
      if kind == 1 { return Some(Sub(n.value)); }
      var payload := input.TakeRest();
      f := Some(if kind == 3 then Update(n.value, payload)
                else if kind == 5 then Snapshot(n.value, payload)
                else Seed(n.value, payload));
    } else {
      f := None;
    }
  }

  method TakeHead(u: Utf8, input: Reader) returns (got: Option<Head>)
    requires input.Valid()
    modifies input`at
    ensures input.Valid() && Agrees(ReadHead(u, old(input.Rest())), got, input.Rest())
  {
    var kind := input.TakeU8();
    if kind.None? { return None; }
    var slot := input.TakeU8();
    if slot.None? { return None; }
    var doc := input.TakeText(u);
    if doc.None? { return None; }
    got := Some(Head(kind.value, slot.value, doc.value));
  }

  method DecodeClientFrame(u: Utf8, s: bytes) returns (f: Option<ClientFrame>)
    ensures f == DecodeClient(u, s)
  {
    var input := new Reader(s);
    var h := TakeHead(u, input);
    if h.None? { return None; }
    var body := TakeClient(u, h.value.kind, input);
    f := if body.None? then None else Some(Addressed(h.value.slot, h.value.doc, body.value));
  }

  method DecodeServerFrame(u: Utf8, s: bytes) returns (f: Option<ServerFrame>)
    ensures f == DecodeServer(u, s)
  {
    var input := new Reader(s);
    var h := TakeHead(u, input);
    if h.None? { return None; }
    var body := TakeServer(u, h.value.kind, input);
    f := if body.None? then None else Some(Addressed(h.value.slot, h.value.doc, body.value));
  }
}
