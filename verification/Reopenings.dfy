/**
 * A document opened again on the socket of the session closed before: the new session takes every frame addressed to
 * its document (packages/plugin/src/live/session/session.ts:185-189), those the hub owed the closed one included.
 * After exactly which of them its document is still the room's log up to where it stands.
 */
module Reopenings {
  import opened Common
  import opened Updates
  import opened Outboxes
  import opened Payloads
  import opened Sessions
  import opened Streams
  import opened SessionProofs
  import opened Links
  import opened Rooms
  import opened World
  import opened LiveRuns

  /** What the device contributes as a frame is read. */
  datatype Reading = Reading(disk: Disk, leads: bool)

  /** Where a session opened afresh stands; `offered` while a seed of its own waits. */
  datatype Stand = Stand(at: nat, joined: bool, offered: bool)

  const OUTSIDE := Stand(0, false, false)

  function Onward(q: Stand, f: ServerFrame): Stand
  {
    match f
    case State(head, _, _, _) => Stand(head, q.joined || head > 0, !q.joined && head == 0)
    case Fanout(at, _, _) => if q.joined then Stand(at, true, false) else q
    case Echo(at, _) => Stand(at, q.joined || q.offered, false)
    case _ => q
  }

  /** A frame of the room's one log, whoever it was meant for. */
  ghost predicate OfLog(q: Stand, f: ServerFrame, knownSeq: nat, t: Truth)
  {
    match f
    case State(head, snapshot, deltas, name) =>
      && q.at <= head <= |t.hist| && knownSeq <= head && Names(name, t)
      && StateEdits(snapshot, deltas) <= Union(t.hist[..head])
    case Fanout(at, _, payload) => q.joined ==> at == q.at + 1 <= |t.hist| && payload.edits == t.hist[q.at]
    case Echo(at, _) => q.at < at <= |t.hist|
    case _ => true
  }

  ghost predicate AllOfLog(q: Stand, fs: seq<ServerFrame>, knownSeq: nat, t: Truth)
    decreases |fs|
  {
    fs == [] || (OfLog(q, fs[0], knownSeq, t) && AllOfLog(Onward(q, fs[0]), fs[1..], knownSeq, t))
  }

  /**
   * The frame tells this session all it moves it past: a State does not lack the start of the log, and an Echo, which
   * carries nothing, moves it past nothing new and answers no seed of its own.
   */
  ghost predicate Fits(q: Stand, f: ServerFrame, t: Truth)
    requires q.at <= |t.hist| && OfLog(q, f, 0, t)
  {
    match f
    case State(head, snapshot, deltas, _) => Union(t.hist[..q.at]) + StateEdits(snapshot, deltas) == Union(t.hist[..head])
    case Echo(at, _) => !q.offered && Union(t.hist[..q.at]) == Union(t.hist[..at])
    case _ => true
  }

  ghost predicate AllFit(q: Stand, fs: seq<ServerFrame>, knownSeq: nat, t: Truth)
    requires q.at <= |t.hist| && AllOfLog(q, fs, knownSeq, t)
    decreases |fs|
  {
    fs == [] || (Fits(q, fs[0], t) && AllFit(Onward(q, fs[0]), fs[1..], knownSeq, t))
  }

  /** Before every frame, and after the last, the document is the log up to where the session stands. */
  ghost predicate StaysExact(s: Session, fs: seq<ServerFrame>, rs: seq<Reading>, t: Truth)
    requires |rs| == |fs|
    decreases |fs|
  {
    && Exact(s, {}, t)
    && (fs != [] ==> StaysExact(s.Handle(fs[0], rs[0].disk, rs[0].leads), fs[1..], rs[1..], t))
  }

  // ---- one frame

  /** A session that has done nothing but read: what the disk brought in is pending, and nothing went out. */
  ghost predicate OnlyRead(s: Session, q: Stand, knownSeq: nat, t: Truth)
  {
    && s.log.at == q.at && s.joined == q.joined && s.seed.Some? == q.offered
    && (q.offered ==> q.at == 0 && !q.joined) && (!q.joined ==> s.doc == {})
    && s.box.unacked == [] && s.log.left == None && s.log.knownSeq == knownSeq && q.at <= |t.hist|
    && (s.log.name.Some? ==> s.log.name.value != "" && Names(s.log.name.value, t))
  }

  /** What a step that sends nothing leaves as it was. */
  ghost predicate Same(s: Session, r: Session)
  {
    && r.doc == s.doc && r.box.pending == s.box.pending && r.box.unacked == s.box.unacked
    && r.log.(compacted := 0) == s.log.(compacted := 0) && r.joined == s.joined && r.seed == s.seed
  }

  lemma {:induction false} SettleSame(s: Session, leads: bool)
    ensures Same(s, s.Settle(leads))
  {
  }

  lemma {:induction false} SeedSame(s: Session, payload: Payload)
    ensures Same(s, s.Send(Frames.Seed(0, payload)))
  {
  }

  lemma {:induction false} SameRead(s: Session, r: Session, q: Stand, knownSeq: nat, t: Truth)
    requires OnlyRead(s, q, knownSeq, t) && Same(s, r)
    ensures OnlyRead(r, q, knownSeq, t)
  {
  }

  lemma {:induction false} OnlineSame(s: Session, leads: bool)
    requires s.box.unacked == []
    ensures Same(s, (if s.online then s.(rotating := false) else s.GoOnline()).Settle(leads))
  {
    var g := if s.online then s.(rotating := false) else s.GoOnline();
    assert UpdatesOf(s.box.unacked) == [];
    SettleSame(g, leads);
  }

  lemma {:induction false} CaughtRead(s: Session, q: Stand, f: ServerFrame, knownSeq: nat, t: Truth)
    requires f.State? && OnlyRead(s, q, knownSeq, t) && OfLog(q, f, knownSeq, t)
    ensures !s.log.Lost(f.head, f.log)
    ensures var c := s.Caught(f.head, f.snapshot, f.deltas, f.log);
      && c.log.at == f.head && c.box == s.box && c.log.left == None && c.log.knownSeq == knownSeq
      && (c.log.name.Some? ==> c.log.name.value != "" && Names(c.log.name.value, t))
  {
  }

  lemma {:induction false} EmptyRead(s: Session, q: Stand, f: ServerFrame, reading: Reading, knownSeq: nat, t: Truth)
    requires f.State? && OnlyRead(s, q, knownSeq, t) && OfLog(q, f, knownSeq, t) && !q.joined && f.head == 0
    ensures var r := s.Handle(f, reading.disk, reading.leads);
      && OnlyRead(r, Onward(q, f), knownSeq, t) && r.box.pending == s.box.pending
      && StateEdits(f.snapshot, f.deltas) == {} && r.seed == Some(reading.disk.seed)
  {
    CaughtRead(s, q, f, knownSeq, t);
    assert StateEdits(f.snapshot, f.deltas) <= Union(t.hist[..0]) == {};
    var c := s.Caught(f.head, f.snapshot, f.deltas, f.log).(seed := Some(reading.disk.seed));
    SeedSame(c, Sealed(reading.disk.seed));
    SameRead(c, s.Handle(f, reading.disk, reading.leads), Onward(q, f), knownSeq, t);
  }

  lemma {:induction false} JoinRead(s: Session, q: Stand, f: ServerFrame, reading: Reading, knownSeq: nat, t: Truth)
    requires f.State? && OnlyRead(s, q, knownSeq, t) && OfLog(q, f, knownSeq, t) && (q.joined || f.head > 0)
    ensures !s.log.Lost(f.head, f.log)
    ensures var c := s.Caught(f.head, f.snapshot, f.deltas, f.log);
      OnlyRead(if c.joined then c else c.Reconciled(reading.disk), Onward(q, f), knownSeq, t)
  {
    CaughtRead(s, q, f, knownSeq, t);
  }

  lemma {:induction false} RoomRead(s: Session, q: Stand, f: ServerFrame, reading: Reading, knownSeq: nat, t: Truth)
    requires f.State? && OnlyRead(s, q, knownSeq, t) && OfLog(q, f, knownSeq, t) && (q.joined || f.head > 0)
    ensures var r := s.Handle(f, reading.disk, reading.leads);
      var c := s.Caught(f.head, f.snapshot, f.deltas, f.log);
      OnlyRead(r, Onward(q, f), knownSeq, t) && Same(if c.joined then c else c.Reconciled(reading.disk), r)
  {
    var c := s.Caught(f.head, f.snapshot, f.deltas, f.log);
    var j := if c.joined then c else c.Reconciled(reading.disk);
    var r := (if j.online then j.(rotating := false) else j.GoOnline()).Settle(reading.leads);
    JoinRead(s, q, f, reading, knownSeq, t);
    OnlineSame(j, reading.leads);
    SameRead(j, r, Onward(q, f), knownSeq, t);
    assert s.Handle(f, reading.disk, reading.leads) == r;
  }

  /** The disk is folded in as the session joins. */
  predicate Brings(q: Stand, f: ServerFrame, reading: Reading)
  {
    f.State? && !q.joined && f.head > 0 && reading.disk.merged.Some?
  }

  lemma {:induction false} StateRead(s: Session, q: Stand, f: ServerFrame, reading: Reading, knownSeq: nat, t: Truth)
    requires f.State? && OnlyRead(s, q, knownSeq, t) && OfLog(q, f, knownSeq, t)
    ensures var r := s.Handle(f, reading.disk, reading.leads);
      && OnlyRead(r, Onward(q, f), knownSeq, t)
      && r.doc == s.doc + StateEdits(f.snapshot, f.deltas) + (if Brings(q, f, reading) then reading.disk.merged.value else {})
      && r.box.pending == (if Brings(q, f, reading) then s.box.pending + [reading.disk.merged.value] else s.box.pending)
      && (r.seed.Some? ==> r.seed.value == reading.disk.seed)
  {
    if q.joined || f.head > 0 {
      RoomRead(s, q, f, reading, knownSeq, t);
    } else {
      EmptyRead(s, q, f, reading, knownSeq, t);
    }
  }

  lemma {:induction false} FanoutRead(s: Session, q: Stand, f: ServerFrame, reading: Reading, knownSeq: nat, t: Truth)
    requires f.Fanout? && OnlyRead(s, q, knownSeq, t) && OfLog(q, f, knownSeq, t)
    ensures var r := s.Handle(f, reading.disk, reading.leads);
      && OnlyRead(r, Onward(q, f), knownSeq, t) && r.box.pending == s.box.pending && r.seed == s.seed
      && r.doc == if q.joined then s.doc + f.payload.edits else s.doc
  {
    if q.joined { SettleSame(s.(doc := s.doc + f.payload.edits, log := s.log.(at := f.at)), reading.leads); }
  }

  lemma {:induction false} EchoRead(s: Session, q: Stand, f: ServerFrame, reading: Reading, knownSeq: nat, t: Truth)
    requires f.Echo? && OnlyRead(s, q, knownSeq, t) && OfLog(q, f, knownSeq, t)
    ensures var r := s.Handle(f, reading.disk, reading.leads);
      && OnlyRead(r, Onward(q, f), knownSeq, t) && r.box.pending == s.box.pending
      && r.doc == if q.offered then s.seed.value else s.doc
  {
    var c := s.(log := s.log.(at := f.at));
    if s.joined {
      assert !s.box.Names(f.n);
      SettleSame(c, reading.leads);
    } else if s.seed.Some? {
      var j := c.(doc := s.doc + s.seed.value, seed := None, joined := true);
      assert UpdatesOf(j.box.unacked) == [];
      SettleSame(j.GoOnline(), reading.leads);
    } else {
      SettleSame(c, reading.leads);
    }
  }

  lemma {:induction false} StateFitting(s: Session, q: Stand, f: ServerFrame, reading: Reading, knownSeq: nat, t: Truth)
    requires f.State? && OnlyRead(s, q, knownSeq, t) && OfLog(q, f, knownSeq, t) && Exact(s, {}, t) && Fits(q, f, t)
    ensures var r := s.Handle(f, reading.disk, reading.leads); OnlyRead(r, Onward(q, f), knownSeq, t) && Exact(r, {}, t)
  {
    StateRead(s, q, f, reading, knownSeq, t);
    if Brings(q, f, reading) { UnionAppend(s.box.pending, reading.disk.merged.value); }
    var r := s.Handle(f, reading.disk, reading.leads);
    assert r.box.unacked == [] && s.box.unacked == [] && UpdatesOf([]) == [];
  }

  /** A frame that fits keeps the document the log. */
  lemma {:induction false} FittingStays(s: Session, q: Stand, f: ServerFrame, reading: Reading, knownSeq: nat, t: Truth)
    requires OnlyRead(s, q, knownSeq, t) && OfLog(q, f, knownSeq, t) && Exact(s, {}, t) && Fits(q, f, t)
    ensures var r := s.Handle(f, reading.disk, reading.leads); OnlyRead(r, Onward(q, f), knownSeq, t) && Exact(r, {}, t)
  {
    match f
    case State(_, _, _, _) => StateFitting(s, q, f, reading, knownSeq, t);
    case Fanout(at, _, payload) =>
      FanoutRead(s, q, f, reading, knownSeq, t);
      if q.joined { UnionStep(t.hist, q.at); }
    case Echo(at, _) => EchoRead(s, q, f, reading, knownSeq, t);
    case _ =>
  }

  /** With a disk that adds nothing and a seed nobody logged, only a frame that fits does. */
  lemma {:induction false} OthersStray(s: Session, q: Stand, f: ServerFrame, reading: Reading, knownSeq: nat, t: Truth)
    requires OnlyRead(s, q, knownSeq, t) && OfLog(q, f, knownSeq, t) && Exact(s, {}, t)
    requires s.box.pending == [] && reading.disk.merged == None && (s.seed.Some? ==> !(s.seed.value <= Union(t.hist)))
    requires Exact(s.Handle(f, reading.disk, reading.leads), {}, t)
    ensures Fits(q, f, t) && s.Handle(f, reading.disk, reading.leads).box.pending == []
    ensures var r := s.Handle(f, reading.disk, reading.leads);
      OnlyRead(r, Onward(q, f), knownSeq, t) && (r.seed.Some? ==> r.seed == s.seed || r.seed.value == reading.disk.seed)
  {
    match f
    case State(head, snapshot, deltas, _) => StateRead(s, q, f, reading, knownSeq, t);
    case Fanout(at, _, payload) => FanoutRead(s, q, f, reading, knownSeq, t);
    case Echo(at, _) =>
      EchoRead(s, q, f, reading, knownSeq, t);
      UnionMono(t.hist, at, |t.hist|);
      assert t.hist[..|t.hist|] == t.hist;
    case _ =>
  }

  // ---- all of them

  lemma {:induction false} FitIsExact(s: Session, q: Stand, fs: seq<ServerFrame>, rs: seq<Reading>, knownSeq: nat, t: Truth)
    requires OnlyRead(s, q, knownSeq, t) && AllOfLog(q, fs, knownSeq, t) && Exact(s, {}, t) && |rs| == |fs|
    requires AllFit(q, fs, knownSeq, t)
    ensures StaysExact(s, fs, rs, t)
    decreases |fs|
  {
    if fs != [] {
      FittingStays(s, q, fs[0], rs[0], knownSeq, t);
      FitIsExact(s.Handle(fs[0], rs[0].disk, rs[0].leads), Onward(q, fs[0]), fs[1..], rs[1..], knownSeq, t);
    }
  }

  predicate AddsNothing(reading: Reading, t: Truth)
  {
    reading.disk.merged == None && !(reading.disk.seed <= Union(t.hist))
  }

  lemma {:induction false} ExactIsFit(s: Session, q: Stand, fs: seq<ServerFrame>, rs: seq<Reading>, knownSeq: nat, t: Truth)
    requires OnlyRead(s, q, knownSeq, t) && AllOfLog(q, fs, knownSeq, t) && |rs| == |fs| && StaysExact(s, fs, rs, t)
    requires s.box.pending == [] && (s.seed.Some? ==> !(s.seed.value <= Union(t.hist)))
    requires forall i :: 0 <= i < |rs| ==> AddsNothing(rs[i], t)
    ensures AllFit(q, fs, knownSeq, t)
    decreases |fs|
  {
    if fs != [] {
      var r := s.Handle(fs[0], rs[0].disk, rs[0].leads);
      assert AddsNothing(rs[0], t) && Exact(r, {}, t);
      OthersStray(s, q, fs[0], rs[0], knownSeq, t);
      ExactIsFit(r, Onward(q, fs[0]), fs[1..], rs[1..], knownSeq, t);
    }
  }

  lemma {:induction false} SomeOther(u: Update) returns (e: Edit)
    ensures forall x :: x in u ==> x < e
  {
    if u == {} {
      e := 0;
    } else {
      var y :| y in u;
      var d := SomeOther(u - {y});
      e := Max(d, y + 1);
      forall x | x in u ensures x < e { if x != y { assert x in u - {y}; } }
    }
  }

  /**
   * The document stays the log whatever the disk brings in, if and only if every inherited frame tells the session all
   * it moves it past.
   */
  lemma {:induction false} ReopenedExactly(fs: seq<ServerFrame>, knownSeq: nat, up: seq<ClientFrame>, t: Truth)
    requires knownSeq <= |t.hist| && AllOfLog(OUTSIDE, fs, knownSeq, t)
    ensures var s := Opened(knownSeq, true).(up := up);
      (forall rs: seq<Reading> :: |rs| == |fs| ==> StaysExact(s, fs, rs, t)) <==> AllFit(OUTSIDE, fs, knownSeq, t)
  {
    var s := Opened(knownSeq, true).(up := up);
    assert OnlyRead(s, OUTSIDE, knownSeq, t) && Exact(s, {}, t);
    if AllFit(OUTSIDE, fs, knownSeq, t) {
      forall rs: seq<Reading> | |rs| == |fs| ensures StaysExact(s, fs, rs, t) {
        FitIsExact(s, OUTSIDE, fs, rs, knownSeq, t);
      }
    }
    if forall rs: seq<Reading> :: |rs| == |fs| ==> StaysExact(s, fs, rs, t) {
      var e := SomeOther(Union(t.hist));
      var rs := seq(|fs|, i requires 0 <= i < |fs| => Reading(Disk({e}, None), false));
      forall i | 0 <= i < |rs| ensures AddsNothing(rs[i], t) { assert e in rs[i].disk.seed; }
      ExactIsFit(s, OUTSIDE, fs, rs, knownSeq, t);
    }
  }

  // ---- where every logged update tells something new

  /** No State lacks the start of the log. */
  ghost predicate StatesWhole(q: Stand, fs: seq<ServerFrame>, knownSeq: nat, t: Truth)
    requires q.at <= |t.hist| && AllOfLog(q, fs, knownSeq, t)
    decreases |fs|
  {
    fs == [] || ((fs[0].State? ==> Fits(q, fs[0], t)) && StatesWhole(Onward(q, fs[0]), fs[1..], knownSeq, t))
  }

  ghost predicate TellsNews(hist: seq<Update>) { forall i :: 0 <= i < |hist| ==> !(hist[i] <= Union(hist[..i])) }

  lemma {:induction false} NewsGrows(hist: seq<Update>, j: nat, k: nat)
    requires TellsNews(hist) && j < k <= |hist|
    ensures Union(hist[..j]) != Union(hist[..k])
  {
    UnionStep(hist, j);
    UnionMono(hist, j + 1, k);
    assert !(hist[j] <= Union(hist[..j]));
  }

  /** There, the frames that stray are the Echoes, and the States that lack the start of the log. */
  lemma {:induction false} FitMeansNoEcho(q: Stand, fs: seq<ServerFrame>, knownSeq: nat, t: Truth)
    requires q.at <= |t.hist| && AllOfLog(q, fs, knownSeq, t) && TellsNews(t.hist)
    ensures AllFit(q, fs, knownSeq, t) <==> (forall i :: 0 <= i < |fs| ==> !fs[i].Echo?) && StatesWhole(q, fs, knownSeq, t)
    decreases |fs|
  {
    if fs != [] {
      var f, rest := fs[0], fs[1..];
      FitMeansNoEcho(Onward(q, f), rest, knownSeq, t);
      if f.Echo? { NewsGrows(t.hist, q.at, f.at); }
      assert (forall i :: 0 <= i < |fs| ==> !fs[i].Echo?) <==> !f.Echo? && forall i :: 0 <= i < |rest| ==> !rest[i].Echo? by {
        assert forall i :: 0 <= i < |rest| ==> rest[i] == fs[i + 1];
        if !f.Echo? && forall i :: 0 <= i < |rest| ==> !rest[i].Echo? {
          forall i | 0 <= i < |fs| ensures !fs[i].Echo? { if i > 0 { assert fs[i] == rest[i - 1]; } }
        }
      }
    }
  }

  // ---- the sockets of closed sessions

  /** The new session never stands past where the closed one would. */
  predicate Under(q: Stand, v: View) { q.at <= v.at && (q.joined ==> v.joined && q.at == v.at) }

  lemma {:induction false} StreamOfLog(q: Stand, v: View, fs: seq<ServerFrame>, p: Session, knownSeq: nat, t: Truth)
    requires StreamOk(v, fs, p, t) && ViewOk(v) && Under(q, v) && knownSeq <= Max(v.at, p.log.knownSeq)
    ensures AllOfLog(q, fs, knownSeq, t)
    decreases |fs|
  {
    if fs != [] {
      assert FrameOk(v, fs[0], p, t);
      StreamOfLog(Onward(q, fs[0]), Next(v, fs[0]), fs[1..], p, knownSeq, t);
    }
  }

  lemma {:induction false} OwedOfLog(v: View, fs: seq<ServerFrame>, missed: nat, p: Session, knownSeq: nat, t: Truth)
    requires StreamOk(v, fs, p, t) && ViewOk(v) && knownSeq <= Max(v.at, p.log.knownSeq) && missed <= |fs|
    ensures AllOfLog(OUTSIDE, fs[missed..], knownSeq, t)
    decreases missed
  {
    if missed == 0 {
      assert fs[0..] == fs;
      StreamOfLog(OUTSIDE, v, fs, p, knownSeq, t);
    } else {
      assert FrameOk(v, fs[0], p, t);
      OwedOfLog(Next(v, fs[0]), fs[1..], missed - 1, p, knownSeq, t);
      assert fs[1..][missed - 1..] == fs[missed..];
    }
  }

  /** Whatever closed session's socket a document is opened again on. */
  lemma {:induction false} ReopeningExactly(w: World, d: DocId, before: nat, sid: nat, knownSeq: nat, missed: nat)
    requires Heeded(w) && CanReopen(RoomAt(w, d), before, sid, knownSeq, missed)
    ensures var l, t := RoomAt(w, d).links[before], TruthOf(RoomAt(w, d));
      var r := Reopened(l, knownSeq, missed);
      && AllOfLog(OUTSIDE, r.down, knownSeq, t)
      && ((forall rs: seq<Reading> :: |rs| == |r.down| ==> StaysExact(r.s, r.down, rs, t)) <==> AllFit(OUTSIDE, r.down, knownSeq, t))
  {
    var l, t := RoomAt(w, d).links[before], TruthOf(RoomAt(w, d));
    HeededLink(w, d, before);
    AheadOk(l, t);
    OwedOfLog(Start(l), l.down, missed, l.s, knownSeq, t);
    ReopenedExactly(l.down[missed..], knownSeq, l.s.up + [Frames.Sub(0)], t);
  }

  /** So where every logged update tells something new, no Echo is inherited, and no State without the start of the log. */
  lemma {:induction false} ReopeningStrays(w: World, d: DocId, before: nat, sid: nat, knownSeq: nat, missed: nat)
    requires Heeded(w) && CanReopen(RoomAt(w, d), before, sid, knownSeq, missed) && TellsNews(HistAt(w, d))
    ensures var l, t := RoomAt(w, d).links[before], TruthOf(RoomAt(w, d));
      var r := Reopened(l, knownSeq, missed);
      && AllOfLog(OUTSIDE, r.down, knownSeq, t)
      && ((forall rs: seq<Reading> :: |rs| == |r.down| ==> StaysExact(r.s, r.down, rs, t)) <==>
          (forall i :: 0 <= i < |r.down| ==> !r.down[i].Echo?) && StatesWhole(OUTSIDE, r.down, knownSeq, t))
  {
    ReopeningExactly(w, d, before, sid, knownSeq, missed);
    FitMeansNoEcho(OUTSIDE, RoomAt(w, d).links[before].down[missed..], knownSeq, TruthOf(RoomAt(w, d)));
  }
}
