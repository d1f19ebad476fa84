/**
 * What is on its way to a session: the frames queued on its socket, read in order, tell one coherent story of the
 * room's log.
 */
module Streams {
  import opened Common
  import opened Updates
  import opened Outboxes
  import opened Payloads
  import opened Sessions

  /** The room's whole log, stored or compacted away, and the log's name. */
  datatype Truth = Truth(hist: seq<Update>, name: string)

  /** How far a session will be once it has read some frames; `offer` is the seed it waits on. */
  datatype View = View(at: nat, joined: bool, offer: Option<Update>)

  function Next(v: View, f: ServerFrame): View
  {
    match f
    case State(head, _, _, _) => View(head, v.joined || head > 0, None)
    case Fanout(at, _, _) => if v.joined then View(at, true, None) else v
    case Echo(at, _) => View(at, true, None)
    case _ => v
  }

  function End(v: View, fs: seq<ServerFrame>): View
    decreases |fs|
  {
    if fs == [] then v else End(Next(v, fs[0]), fs[1..])
  }

  ghost predicate Names(name: string, t: Truth) { name != "" ==> name == t.name }

  /** What a session must find true of a frame it reads at `v`, for its document to stay the room's. */
  ghost predicate FrameOk(v: View, f: ServerFrame, s: Session, t: Truth)
  {
    match f
    case State(head, snapshot, deltas, name) =>
      && v.at <= head <= |t.hist| && s.log.knownSeq <= head && Names(name, t)
      && StateEdits(snapshot, deltas) <= Union(t.hist[..head])
      && Union(t.hist[..v.at]) + StateEdits(snapshot, deltas) == Union(t.hist[..head])
    case Fanout(at, _, payload) =>
      v.joined ==> at == v.at + 1 <= |t.hist| && payload.edits == t.hist[v.at]
    case Echo(at, n) =>
      && 0 < at <= |t.hist| && n <= s.box.sent
      && (v.joined ==> at == v.at + 1 && t.hist[v.at] <= s.doc && Acks(s.box, n, t.hist[v.at]))
      && (!v.joined ==> at == 1 && v.offer == Some(t.hist[0]))
    case _ => true
  }

  /** Whatever still waits under `n` is in `logged`. */
  ghost predicate Acks(box: Box, n: nat, logged: Update)
  {
    forall i :: 0 <= i < |box.unacked| && box.unacked[i].n == n ==> box.unacked[i].update <= logged
  }

  ghost predicate StreamOk(v: View, fs: seq<ServerFrame>, s: Session, t: Truth)
    decreases |fs|
  {
    fs == [] || (FrameOk(v, fs[0], s, t) && StreamOk(Next(v, fs[0]), fs[1..], s, t))
  }

  ghost predicate ViewOk(v: View) { (v.joined <==> v.at > 0) && (v.joined ==> v.offer == None) }

  /** Frames that move no session along its log. */
  predicate Quiet(f: ServerFrame) { !f.State? && !f.Fanout? && !f.Echo? }

  predicate AllQuiet(fs: seq<ServerFrame>) { forall i :: 0 <= i < |fs| ==> Quiet(fs[i]) }

  function States(fs: seq<ServerFrame>): nat
  {
    if fs == [] then 0 else (if fs[0].State? then 1 else 0) + States(fs[1..])
  }

  /** The log only grows, and is named once. */
  ghost predicate Grows(t: Truth, u: Truth)
  {
    t.hist <= u.hist && (t.name != "" ==> u.name == t.name)
  }

  /** What a session never takes back: its edits, its counter, and which update went out under which number. */
  ghost predicate Keeps(s: Session, r: Session)
  {
    && s.doc <= r.doc && s.log.knownSeq == r.log.knownSeq && s.box.sent <= r.box.sent
    && (forall u :: u in r.box.unacked ==> u in s.box.unacked || u.n > s.box.sent)
  }

  lemma {:induction false} FrameStays(v: View, f: ServerFrame, s: Session, r: Session, t: Truth, u: Truth)
    requires FrameOk(v, f, s, t) && Keeps(s, r) && Grows(t, u)
    ensures FrameOk(v, f, r, u)
  {
    match f
    case State(head, _, _, _) =>
      assert u.hist[..head] == t.hist[..head];
      assert u.hist[..v.at] == t.hist[..v.at];
    case Echo(at, n) =>
      if v.joined {
        forall i | 0 <= i < |r.box.unacked| && r.box.unacked[i].n == n
          ensures r.box.unacked[i].update <= u.hist[v.at]
        {
          assert r.box.unacked[i] in s.box.unacked;
        }
      }
    case _ =>
  }

  lemma {:induction false} StreamStays(v: View, fs: seq<ServerFrame>, s: Session, r: Session, t: Truth, u: Truth)
    requires StreamOk(v, fs, s, t) && Keeps(s, r) && Grows(t, u)
    ensures StreamOk(v, fs, r, u)
    decreases |fs|
  {
    if fs != [] {
      FrameStays(v, fs[0], s, r, t, u);
      StreamStays(Next(v, fs[0]), fs[1..], s, r, t, u);
    }
  }

  lemma {:induction false} StreamAppends(v: View, fs: seq<ServerFrame>, f: ServerFrame, s: Session, t: Truth)
    requires StreamOk(v, fs, s, t) && FrameOk(End(v, fs), f, s, t)
    ensures StreamOk(v, fs + [f], s, t)
    ensures End(v, fs + [f]) == Next(End(v, fs), f)
    ensures States(fs + [f]) == States(fs) + (if f.State? then 1 else 0)
    decreases |fs|
  {
    var all := fs + [f];
    if fs == [] {
      assert all[1..] == [];
    } else {
      assert all[1..] == fs[1..] + [f] && all[0] == fs[0];
      StreamAppends(Next(v, fs[0]), fs[1..], f, s, t);
    }
  }

  lemma {:induction false} EndViewOk(v: View, fs: seq<ServerFrame>, s: Session, t: Truth)
    requires ViewOk(v) && StreamOk(v, fs, s, t)
    ensures ViewOk(End(v, fs)) && v.at <= End(v, fs).at <= Max(v.at, |t.hist|)
    ensures v.joined ==> End(v, fs).joined
    ensures End(v, fs).offer.Some? ==> End(v, fs).offer == v.offer
    decreases |fs|
  {
    if fs != [] {
      EndViewOk(Next(v, fs[0]), fs[1..], s, t);
    }
  }

  lemma {:induction false} QuietEnd(v: View, fs: seq<ServerFrame>)
    requires AllQuiet(fs)
    ensures End(v, fs) == v && States(fs) == 0
  {
    if fs != [] {
      QuietEnd(v, fs[1..]);
    }
  }

  /** Between a State of an empty room and the next, nothing joins; the offer made then only adds an answer to wait for. */
  lemma {:induction false} OfferWaits(fs: seq<ServerFrame>, seed: Update, s: Session, t: Truth)
    requires States(fs) == 0 && StreamOk(View(0, false, None), fs, s, t)
    ensures StreamOk(View(0, false, Some(seed)), fs, s, t)
    ensures End(View(0, false, Some(seed)), fs) == View(0, false, Some(seed))
  {
    if fs != [] {
      OfferWaits(fs[1..], seed, s, t);
    }
  }
}
