/** Decoding undoes encoding, for packages/protocol/src/codec.ts. */
module CodecProofs {
  import opened Common
  import opened Frames
  import opened Wire
  import opened Codec

  /** What a decoded client frame can be: counters and lengths of four octets. */
  predicate ClientOk(f: ClientBody<bytes>)
  {
    match f
    case Sub(since) => since < TWO_32
    case Update(n, _) => n < TWO_32
    case Snapshot(upto, _) => upto < TWO_32
    case Rotate(_, upto, note, _) => upto < TWO_32 && |note| < TWO_32
    case Seed(n, _) => n < TWO_32
    case _ => true
  }

  predicate BlockOk(b: bytes) { |b| < TWO_32 }

  predicate BlocksOk(deltas: seq<bytes>)
  {
    forall i {:trigger deltas[i]} :: 0 <= i < |deltas| ==> BlockOk(deltas[i])
  }

  /** As ClientOk; and an empty snapshot is none, a known reason goes by its name. */
  predicate ServerOk(f: ServerBody<bytes>)
  {
    match f
    case State(head, snapshot, deltas, _) => StateOk(head, snapshot, deltas)
    case Fanout(at, from, _) => at < TWO_32 && from < TWO_32
    case Echo(at, n) => at < TWO_32 && n < TWO_32
    case Peer(from, _) => from < TWO_32
    case Join(from, _, _) => from < TWO_32
    case Leave(from) => from < TWO_32
    case Refused(Unknown(code)) => code == 0 || code > 3
    case SignalFrom(from) => from < TWO_32
    case Here(from, _, _) => from < TWO_32
    case _ => true
  }

  predicate StateOk(head: nat, snapshot: Option<bytes>, deltas: seq<bytes>)
  {
    && head < TWO_32
    && (snapshot.Some? ==> 0 < |snapshot.value| < TWO_32)
    && |deltas| < TWO_32
    && BlocksOk(deltas)
  }

  lemma {:induction false} JustU32Reads(v: nat)
    requires v < TWO_32
    ensures ReadU32(U32(v)) == Got(v, [])
  {
    U32Reads(v, []);
    assert U32(v) + [] == U32(v);
  }

  lemma {:induction false} HeadReads(u: Utf8, kind: byte, slot: byte, doc: string, body: bytes)
    requires IsUtf8(u) && Encode(u, kind, slot, doc, Some(body)).Some?
    ensures ReadHead(u, Encode(u, kind, slot, doc, Some(body)).value) == Got(Head(kind, slot, doc), body)
  {
    var t := TextThen(u, doc, body).value;
    var s := Encode(u, kind, slot, doc, Some(body)).value;
    assert s[1..] == U8(slot) + t && s[0] == kind;
    assert s[1..][1..] == t && s[1..][0] == slot;
    TextReads(u, doc, body);
  }

  lemma {:induction false} RotateReads(u: Utf8, target: DocId, upto: nat, note: bytes, payload: bytes)
    requires IsUtf8(u) && upto < TWO_32 && |note| < TWO_32
    requires TextThen(u, target, U32(upto) + (Block(note) + payload)).Some?
    ensures ReadRotate(u, TextThen(u, target, U32(upto) + (Block(note) + payload)).value)
         == Some(Rotate(target, upto, note, payload))
  {
    TextReads(u, target, U32(upto) + (Block(note) + payload));
    U32Reads(upto, Block(note) + payload);
    BlockReads(note, payload);
  }

  lemma {:induction false} ClientBodyReads(u: Utf8, f: ClientBody<bytes>)
    requires IsUtf8(u) && ClientOk(f) && ClientBytes(u, f).Some?
    ensures ReadClient(u, ClientType(f), ClientBytes(u, f).value) == Some(f)
  {
    match f
    case Sub(since) => JustU32Reads(since);
    case Rotate(target, upto, note, payload) => RotateReads(u, target, upto, note, payload);
    case Update(_, _) => CountedReads(u, f, f.n, f.payload);
    case Snapshot(_, _) => CountedReads(u, f, f.upto, f.payload);
    case Seed(_, _) => CountedReads(u, f, f.n, f.payload);
    case _ =>
  }

  /** A counter, then the payload. */
  lemma {:induction false} CountedReads(u: Utf8, f: ClientBody<bytes>, n: nat, payload: bytes)
    requires f == Update(n, payload) || f == Snapshot(n, payload) || f == Seed(n, payload)
    requires n < TWO_32
    ensures ReadClient(u, ClientType(f), U32(n) + payload) == Some(f)
  {
    U32Reads(n, payload);
  }

  lemma {:induction false} BlocksRead(deltas: seq<bytes>, rest: bytes)
    requires BlocksOk(deltas)
    ensures ReadBlocks(Blocks(deltas) + rest, |deltas|) == Got(deltas, rest)
    decreases |deltas|, 0
  {
    if deltas == [] {
      assert Blocks(deltas) + rest == rest;
    } else {
      FirstBlockReads(deltas, rest);
    }
  }

  lemma {:induction false} FirstBlockReads(deltas: seq<bytes>, rest: bytes)
    requires BlocksOk(deltas) && deltas != []
    ensures ReadBlocks(Blocks(deltas) + rest, |deltas|) == Got(deltas, rest)
    decreases |deltas| - 1, 1
  {
    var first, others := deltas[0], deltas[1..];
    assert BlockOk(first);
    forall i | 0 <= i < |others| ensures BlockOk(others[i]) { assert BlockOk(deltas[i + 1]); }
    BlocksRead(others, rest);
    Regroup(Block(first), Blocks(others), rest);
    BlockReads(first, Blocks(others) + rest);
    assert deltas == [first] + others;
  }

  /** A State whose log was never written reads as one of log "". */
  lemma {:induction false} CutStateReads(u: Utf8, head: nat, snapshot: Option<bytes>, deltas: seq<bytes>)
    requires StateOk(head, snapshot, deltas)
    ensures ReadState(u, BeforeLog(head, snapshot, deltas)) == Some(State(head, snapshot, deltas, ""))
  {
    HeadOfState(u, head, snapshot, deltas, []);
    assert BeforeLog(head, snapshot, deltas) + [] == BeforeLog(head, snapshot, deltas);
  }

  /** Whatever follows, a State's bytes read up to its log. */
  lemma {:induction false} HeadOfState(u: Utf8, head: nat, snapshot: Option<bytes>, deltas: seq<bytes>, rest: bytes)
    requires StateOk(head, snapshot, deltas)
    ensures ReadState(u, BeforeLog(head, snapshot, deltas) + rest)
         == if rest == [] then Some(State(head, snapshot, deltas, ""))
            else if ReadText(u, rest).Got? then Some(State(head, snapshot, deltas, ReadText(u, rest).value))
            else None
  {
    var counted := U32(|deltas|) + Blocks(deltas);
    var shot := OrEmpty(snapshot);
    Regroup(U32(head), Block(shot) + counted, rest);
    Regroup(Block(shot), counted, rest);
    Regroup(U32(|deltas|), Blocks(deltas), rest);
    U32Reads(head, Block(shot) + (counted + rest));
    BlockReads(shot, counted + rest);
    U32Reads(|deltas|, Blocks(deltas) + rest);
    BlocksRead(deltas, rest);
  }

  lemma {:induction false} VouchedReads(u: Utf8, from: nat, who: string, name: string, arrives: bool)
    requires IsUtf8(u) && from < TWO_32 && VouchedBytes(u, from, who, name).Some?
    ensures ReadVouched(u, VouchedBytes(u, from, who, name).value, arrives)
         == Some(if arrives then Join(from, who, name) else Here(from, who, name))
  {
    var t := TextThen(u, name, []).value;
    U32Reads(from, TextThen(u, who, t).value);
    TextReads(u, who, t);
    TextReads(u, name, []);
  }

  lemma {:induction false} TwoReads(x: nat, y: nat, rest: bytes)
    requires x < TWO_32 && y < TWO_32
    ensures ReadTwo(U32(x) + (U32(y) + rest)) == Got((x, y), rest)
  {
    U32Reads(x, U32(y) + rest);
    U32Reads(y, rest);
  }

  lemma {:induction false} StateReads(u: Utf8, f: ServerBody<bytes>)
    requires IsUtf8(u) && f.State? && ServerOk(f) && ServerBytes(u, f).Some?
    ensures ReadState(u, ServerBytes(u, f).value) == Some(f)
  {
    var t := Text(u, f.log).value;
    HeadOfState(u, f.head, f.snapshot, f.deltas, t);
    TextReads(u, f.log, []);
    assert t + [] == t;
  }

  /** Frames that are counters and a payload. */
  lemma {:induction false} NumbersRead(u: Utf8, f: ServerBody<bytes>)
    requires f.Fanout? || f.Echo? || f.Peer?
    requires ServerOk(f)
    ensures ServerBytes(u, f).Some? && ReadServer(u, ServerType(f), ServerBytes(u, f).value) == Some(f)
  {
    match f
    case Fanout(at, from, payload) => TwoReads(at, from, payload);
    case Echo(at, n) =>
      TwoReads(at, n, []);
      assert U32(n) + [] == U32(n);
    case Peer(from, payload) => U32Reads(from, payload);
  }

  lemma {:induction false} MovedReads(u: Utf8, target: DocId, note: bytes)
    requires IsUtf8(u) && TextThen(u, target, note).Some?
    ensures ReadServer(u, 22, TextThen(u, target, note).value) == Some(Moved(target, note))
  {
    TextReads(u, target, note);
  }

  lemma {:induction false} JoinReads(u: Utf8, from: nat, who: string, name: string)
    requires IsUtf8(u) && from < TWO_32 && VouchedBytes(u, from, who, name).Some?
    ensures ReadServer(u, 20, VouchedBytes(u, from, who, name).value) == Some(Join(from, who, name))
  {
    VouchedReads(u, from, who, name, true);
    ReadsVouched(u, VouchedBytes(u, from, who, name).value);
  }

  lemma {:induction false} ReadsVouched(u: Utf8, s: bytes)
    ensures ReadServer(u, 20, s) == ReadVouched(u, s, true) && ReadServer(u, 25, s) == ReadVouched(u, s, false)
  {
  }

  lemma {:induction false} HereReads(u: Utf8, from: nat, who: string, name: string)
    requires IsUtf8(u) && from < TWO_32 && VouchedBytes(u, from, who, name).Some?
    ensures ReadServer(u, 25, VouchedBytes(u, from, who, name).value) == Some(Here(from, who, name))
  {
    VouchedReads(u, from, who, name, false);
    ReadsVouched(u, VouchedBytes(u, from, who, name).value);
  }

  lemma {:induction false} SenderReads(u: Utf8, f: ServerBody<bytes>)
    requires (f.Leave? || f.SignalFrom?) && ServerOk(f)
    ensures ServerBytes(u, f).Some? && ReadServer(u, ServerType(f), ServerBytes(u, f).value) == Some(f)
  {
    JustU32Reads(f.from);
  }

  lemma {:induction false} ServerBodyReads(u: Utf8, f: ServerBody<bytes>)
    requires IsUtf8(u) && ServerOk(f) && ServerBytes(u, f).Some?
    ensures ReadServer(u, ServerType(f), ServerBytes(u, f).value) == Some(f)
  {
    match f
    case State(_, _, _, _) => StateReads(u, f);
    case Fanout(_, _, _) => NumbersRead(u, f);
    case Echo(_, _) => NumbersRead(u, f);
    case Peer(_, _) => NumbersRead(u, f);
    case Join(from, who, name) => JoinReads(u, from, who, name);
    case Leave(_) => SenderReads(u, f);
    case Moved(target, note) => MovedReads(u, target, note);
    case Revoked =>
    case Refused(_) =>
    case SignalFrom(_) => SenderReads(u, f);
    case Here(from, who, name) => HereReads(u, from, who, name);
  }

  // Backwards: what a frame was read from is what it is written as, and what was ignored after it.

  lemma {:induction false} NumberWritten(s: bytes)
    requires ReadU32(s).Got?
    ensures ReadU32(s).value < TWO_32 && U32(ReadU32(s).value) <= s && U32(ReadU32(s).value) + ReadU32(s).rest == s
  {
    U32Written(s);
  }

  lemma {:induction false} RotateWritten(u: Utf8, s: bytes, f: ClientBody<bytes>)
    requires IsUtf8(u) && ReadRotate(u, s) == Some(f)
    ensures f.Rotate? && ClientOk(f) && ClientBytes(u, f) == Some(s)
  {
    TextWritten(u, s);
    var a := ReadText(u, s).rest;
    U32Written(a);
    BlockWritten(ReadU32(a).rest);
  }

  lemma {:induction false} ClientBodyWritten(u: Utf8, kind: byte, s: bytes, f: ClientBody<bytes>)
    requires IsUtf8(u) && ReadClient(u, kind, s) == Some(f)
    ensures ClientOk(f) && ClientType(f) == kind
    ensures ClientBytes(u, f).Some? && ClientBytes(u, f).value <= s
  {
    if kind == 6 {
      RotateWritten(u, s, f);
    } else if kind in {1, 3, 5, 8} {
      NumberWritten(s);
    }
  }

  lemma {:induction false} BlocksWritten(s: bytes, n: nat)
    requires ReadBlocks(s, n).Got?
    ensures |ReadBlocks(s, n).value| == n && BlocksOk(ReadBlocks(s, n).value)
    ensures s == Blocks(ReadBlocks(s, n).value) + ReadBlocks(s, n).rest
  {
    if n > 0 {
      BlockWritten(s);
      var a := ReadBlock(s);
      BlocksWritten(a.rest, n - 1);
      var others := ReadBlocks(a.rest, n - 1);
      var all := [a.value] + others.value;
      assert all[1..] == others.value;
      forall i | 0 <= i < |all| ensures BlockOk(all[i]) { if i > 0 { assert BlockOk(others.value[i - 1]); } }
      Regroup(Block(a.value), Blocks(others.value), others.rest);
    }
  }

  /** What a State's counted blocks leave. */
  function AfterBlocks(s: bytes): bytes
    requires ReadU32(s).Got? && ReadBlock(ReadU32(s).rest).Got?
    requires ReadU32(ReadBlock(ReadU32(s).rest).rest).Got?
  {
    var counted := ReadU32(ReadBlock(ReadU32(s).rest).rest);
    var blocks := ReadBlocks(counted.rest, counted.value);
    if blocks.Got? then blocks.rest else []
  }

  lemma {:induction false} HeadOfStateWritten(u: Utf8, s: bytes, f: ServerBody<bytes>)
    requires ReadState(u, s) == Some(f)
    ensures f.State? && ServerOk(f) && s == BeforeLog(f.head, f.snapshot, f.deltas) + AfterBlocks(s)
  {
    U32Written(s);
    var a := ReadU32(s).rest;
    BlockWritten(a);
    var shot, b := ReadBlock(a).value, ReadBlock(a).rest;
    U32Written(b);
    var c := ReadU32(b).rest;
    BlocksWritten(c, ReadU32(b).value);
    var d := AfterBlocks(s);
    assert OrEmpty(f.snapshot) == shot;
    var counted := U32(|f.deltas|) + Blocks(f.deltas);
    Regroup(U32(|f.deltas|), Blocks(f.deltas), d);
    Regroup(Block(shot), counted, d);
    Regroup(U32(f.head), Block(shot) + counted, d);
  }

  /** What follows a State's blocks: nothing, or its log. */
  lemma {:induction false} StateWritten(u: Utf8, s: bytes, f: ServerBody<bytes>)
    requires IsUtf8(u) && ReadState(u, s) == Some(f)
    ensures f.State? && ServerOk(f)
    ensures
      || (f.log == "" && s == BeforeLog(f.head, f.snapshot, f.deltas))
      || (Text(u, f.log).Some? && BeforeLog(f.head, f.snapshot, f.deltas) + Text(u, f.log).value <= s)
  {
    HeadOfStateWritten(u, s, f);
    var d := AfterBlocks(s);
    if d != [] {
      TextWritten(u, d);
      Regroup(BeforeLog(f.head, f.snapshot, f.deltas), Text(u, f.log).value, ReadText(u, d).rest);
    }
  }

  lemma {:induction false} VouchedWritten(u: Utf8, s: bytes, arrives: bool, f: ServerBody<bytes>)
    requires IsUtf8(u) && ReadVouched(u, s, arrives) == Some(f)
    ensures ServerOk(f) && ServerBytes(u, f).Some? && ServerBytes(u, f).value <= s
    ensures if arrives then f.Join? else f.Here?
  {
    U32Written(s);
    var a := ReadU32(s).rest;
    TextWritten(u, a);
    var b := ReadText(u, a).rest;
    TextWritten(u, b);
    var who, name := ReadText(u, a).value, ReadText(u, b).value;
    var t := Text(u, name).value;
    assert t + [] == t;
    Regroup(Text(u, who).value, t, ReadText(u, b).rest);
    Regroup(U32(ReadU32(s).value), Text(u, who).value + t, ReadText(u, b).rest);
  }

  lemma {:induction false} TwoWritten(s: bytes)
    requires ReadTwo(s).Got?
    ensures ReadTwo(s).value.0 < TWO_32 && ReadTwo(s).value.1 < TWO_32
    ensures s == U32(ReadTwo(s).value.0) + (U32(ReadTwo(s).value.1) + ReadTwo(s).rest)
  {
    U32Written(s);
    U32Written(ReadU32(s).rest);
  }

  lemma {:induction false} PairWritten(u: Utf8, kind: byte, s: bytes, f: ServerBody<bytes>)
    requires (kind == 17 || kind == 18) && ReadServer(u, kind, s) == Some(f)
    ensures ServerOk(f) && ServerType(f) == kind
    ensures ServerBytes(u, f).Some? && ServerBytes(u, f).value <= s
  {
    TwoWritten(s);
    var p := ReadTwo(s);
    Regroup(U32(p.value.0), U32(p.value.1), p.rest);
  }

  lemma {:induction false} SenderWritten(u: Utf8, kind: byte, s: bytes, f: ServerBody<bytes>)
    requires kind in {19, 21, 7} && ReadServer(u, kind, s) == Some(f)
    ensures ServerOk(f) && ServerType(f) == kind
    ensures ServerBytes(u, f).Some? && ServerBytes(u, f).value <= s
  {
    NumberWritten(s);
  }

  lemma {:induction false} ShortWritten(u: Utf8, kind: byte, s: bytes, f: ServerBody<bytes>)
    requires kind in {22, 23, 24} && IsUtf8(u) && ReadServer(u, kind, s) == Some(f)
    ensures ServerOk(f) && ServerType(f) == kind
    ensures ServerBytes(u, f).Some? && ServerBytes(u, f).value <= s
  {
    if kind == 22 {
      TextWritten(u, s);
    } else if kind == 24 {
      assert ReasonCode(ReasonOf(s[0])) == s[0];
    }
  }

  /** A State from a writer that knew no log. */
  predicate CutState(f: ServerBody<bytes>, s: bytes)
  {
    f.State? && f.log == "" && s == BeforeLog(f.head, f.snapshot, f.deltas)
  }

  lemma {:induction false} ServerBodyWritten(u: Utf8, kind: byte, s: bytes, f: ServerBody<bytes>)
    requires IsUtf8(u) && ReadServer(u, kind, s) == Some(f)
    ensures ServerOk(f) && ServerType(f) == kind
    ensures (ServerBytes(u, f).Some? && ServerBytes(u, f).value <= s) || CutState(f, s)
  {
    if kind == 16 {
      StateWritten(u, s, f);
    } else if kind in {17, 18} {
      PairWritten(u, kind, s, f);
    } else if kind in {19, 21, 7} {
      SenderWritten(u, kind, s, f);
    } else if kind == 20 {
      VouchedWritten(u, s, true, f);
    } else if kind == 25 {
      VouchedWritten(u, s, false, f);
    } else {
      ShortWritten(u, kind, s, f);
    }
  }

  lemma {:induction false} HeadWritten(u: Utf8, s: bytes)
    requires IsUtf8(u) && ReadHead(u, s).Got?
    ensures Text(u, ReadHead(u, s).value.doc).Some?
    ensures s == U8(ReadHead(u, s).value.kind)
               + (U8(ReadHead(u, s).value.slot) + (Text(u, ReadHead(u, s).value.doc).value + ReadHead(u, s).rest))
  {
    var a, b := s[1..], s[2..];
    assert a[1..] == b;
    TextWritten(u, b);
    var h := ReadHead(u, s);
    assert s[0] == h.value.kind && s[1] == h.value.slot;
    assert s == [s[0]] + ([s[1]] + b);
  }

  /** An address before a body that went on is the start of the whole. */
  lemma {:induction false} AddressedPrefix(u: Utf8, s: bytes, body: bytes)
    requires IsUtf8(u) && ReadHead(u, s).Got? && body <= ReadHead(u, s).rest
    ensures
      var h := ReadHead(u, s).value;
      var e := Encode(u, h.kind, h.slot, h.doc, Some(body));
      e.Some? && e.value <= s && (body == ReadHead(u, s).rest ==> e.value == s)
  {
    HeadWritten(u, s);
    var h, rest := ReadHead(u, s).value, ReadHead(u, s).rest;
    var t := Text(u, h.doc).value;
    var start := U8(h.kind) + (U8(h.slot) + t);
    assert U8(h.kind) + (U8(h.slot) + (t + rest)) == start + rest;
    assert U8(h.kind) + (U8(h.slot) + (t + body)) == start + body;
  }

  /** Decoding undoes encoding for exactly the client frames whose counters and lengths fit four octets. */
  lemma {:induction false} ClientRoundTrip(u: Utf8, f: ClientFrame)
    requires IsUtf8(u) && EncodeClient(u, f).Some?
    ensures DecodeClient(u, EncodeClient(u, f).value) == Some(f) <==> ClientOk(f.body)
  {
    var s := EncodeClient(u, f).value;
    HeadReads(u, ClientType(f.body), f.slot, f.doc, ClientBytes(u, f.body).value);
    var rest := ReadHead(u, s).rest;
    if ClientOk(f.body) {
      ClientBodyReads(u, f.body);
    } else if ReadClient(u, ClientType(f.body), rest) == Some(f.body) {
      ClientBodyWritten(u, ClientType(f.body), rest, f.body);
    }
  }

  /** And a client frame that decodes is what it encodes to, with nothing but bytes nobody read after it. */
  lemma {:induction false} ClientReencodes(u: Utf8, s: bytes)
    requires IsUtf8(u) && DecodeClient(u, s).Some?
    ensures EncodeClient(u, DecodeClient(u, s).value).Some?
    ensures EncodeClient(u, DecodeClient(u, s).value).value <= s
    ensures ClientOk(DecodeClient(u, s).value.body)
  {
    var h, rest := ReadHead(u, s).value, ReadHead(u, s).rest;
    var f := DecodeClient(u, s).value;
    ClientBodyWritten(u, h.kind, rest, f.body);
    AddressedPrefix(u, s, ClientBytes(u, f.body).value);
  }

  lemma {:induction false} ServerRoundTrip(u: Utf8, f: ServerFrame)
    requires IsUtf8(u) && EncodeServer(u, f).Some?
    ensures DecodeServer(u, EncodeServer(u, f).value) == Some(f) <==> ServerOk(f.body)
  {
    var s := EncodeServer(u, f).value;
    HeadReads(u, ServerType(f.body), f.slot, f.doc, ServerBytes(u, f.body).value);
    var rest := ReadHead(u, s).rest;
    if ServerOk(f.body) {
      ServerBodyReads(u, f.body);
    } else if ReadServer(u, ServerType(f.body), rest) == Some(f.body) {
      ServerBodyWritten(u, ServerType(f.body), rest, f.body);
    }
  }

  /** A State without its log is the one thing that decodes and is not what it encodes to. */
  lemma {:induction false} ServerReencodes(u: Utf8, s: bytes)
    requires IsUtf8(u) && DecodeServer(u, s).Some?
    ensures ServerOk(DecodeServer(u, s).value.body)
    ensures
      var f := DecodeServer(u, s).value;
      || (EncodeServer(u, f).Some? && EncodeServer(u, f).value <= s)
      || (f.body.State? && f.body.log == ""
          && Encode(u, 16, f.slot, f.doc, Some(BeforeLog(f.body.head, f.body.snapshot, f.body.deltas))) == Some(s))
  {
    var h, rest := ReadHead(u, s).value, ReadHead(u, s).rest;
    var f := DecodeServer(u, s).value;
    ServerBodyWritten(u, h.kind, rest, f.body);
    if CutState(f.body, rest) {
      AddressedPrefix(u, s, rest);
    } else {
      AddressedPrefix(u, s, ServerBytes(u, f.body).value);
    }
  }

  /** A State from a writer that knew no log reads as one of log "". */
  lemma {:induction false} CutStateDecodes(u: Utf8, slot: byte, doc: string, head: nat, snapshot: Option<bytes>,
        deltas: seq<bytes>)
    requires IsUtf8(u) && StateOk(head, snapshot, deltas)
    requires Encode(u, 16, slot, doc, Some(BeforeLog(head, snapshot, deltas))).Some?
    ensures DecodeServer(u, Encode(u, 16, slot, doc, Some(BeforeLog(head, snapshot, deltas))).value)
         == Some(Addressed(slot, doc, State(head, snapshot, deltas, "")))
  {
    HeadReads(u, 16, slot, doc, BeforeLog(head, snapshot, deltas));
    CutStateReads(u, head, snapshot, deltas);
  }

  /** Patching the slot of an encoded frame is encoding it for that slot. */
  lemma {:induction false} ReaddressedIsEncoded(u: Utf8, f: ServerFrame, slot: nat)
    requires EncodeServer(u, f).Some?
    ensures EncodeServer(u, f.(slot := Octet(slot))) == Some(Readdressed(EncodeServer(u, f).value, slot))
  {
    var e, r := EncodeServer(u, f).value, EncodeServer(u, f.(slot := Octet(slot)));
    var t := TextThen(u, f.doc, ServerBytes(u, f.body).value).value;
    assert r.value == U8(ServerType(f.body)) + (U8(Octet(slot)) + t);
    assert Readdressed(e, slot) == r.value;
  }

  lemma {:induction false} ReaddressedIsEncodedForClient(u: Utf8, f: ClientFrame, slot: nat)
    requires EncodeClient(u, f).Some?
    ensures EncodeClient(u, f.(slot := Octet(slot))) == Some(Readdressed(EncodeClient(u, f).value, slot))
  {
    var e, r := EncodeClient(u, f).value, EncodeClient(u, f.(slot := Octet(slot)));
    var t := TextThen(u, f.doc, ClientBytes(u, f.body).value).value;
    assert r.value == U8(ClientType(f.body)) + (U8(Octet(slot)) + t);
    assert Readdressed(e, slot) == r.value;
  }
}
