/** What a session has in flight: the updates whose echoes are still to come, and the one answer it waits for. */
module Flights {
  import opened Common
  import opened Updates
  import opened Outboxes
  import opened Payloads
  import opened Sessions

  /** The counters of the updates on the socket. */
  function UpdateNs(up: seq<ClientFrame>): seq<nat>
  {
    if up == [] then [] else (if up[0].Update? then [up[0].n] else []) + UpdateNs(up[1..])
  }

  /** The counters of the echoes under way. */
  function EchoNs(down: seq<ServerFrame>): seq<nat>
  {
    if down == [] then [] else (if down[0].Echo? then [down[0].n] else []) + EchoNs(down[1..])
  }

  /** Frames the hub may answer with a State, or with an Echo that makes the sender join. */
  predicate Asking(f: ClientFrame) { f.Sub? || f.Seed? || f.Rotate? }

  function Asked(up: seq<ClientFrame>): nat
  {
    if up == [] then 0 else (if Asking(up[0]) then 1 else 0) + Asked(up[1..])
  }

  /** Frames no answer to which moves their sender along the log. */
  predicate Harmless(f: ClientFrame) { !Asking(f) && !f.Update? }

  predicate AllHarmless(up: seq<ClientFrame>) { forall i :: 0 <= i < |up| ==> Harmless(up[i]) }

  ghost predicate Rising(ns: seq<nat>) { forall i, j :: 0 <= i < j < |ns| ==> ns[i] < ns[j] }

  /** Only the acknowledgement of the last update sent leaves it out. */
  ghost predicate LastWaits(box: Box) { box.unacked != [] ==> box.unacked[|box.unacked| - 1].n == box.sent }

  /** The updates of `ns` are in flight: their echoes come in order, and the last one sent still waits for its own. */
  ghost predicate Flying(box: Box, ns: seq<nat>)
  {
    && Rising(ns) && (forall i :: 0 <= i < |ns| ==> ns[i] <= box.sent)
    && LastWaits(box) && (ns != [] ==> box.unacked != [])
  }

  /**
   * With the echoes of `es` and `k` other answers under way: one answer is out at most, and online it is that of a
   * rotation.
   */
  ghost predicate Tracked(s: Session, es: seq<nat>, k: nat)
  {
    && (s.joined ==> Flying(s.box, es + UpdateNs(s.up)))
    && (!s.joined ==> LastWaits(s.box) && UpdateNs(s.up) == [])
    && Asked(s.up) + k <= 1
    && (s.joined && s.online && !s.disposed && Asked(s.up) + k == 1 ==> s.rotating || s.moved.Some?)
  }

  // ---- the lists

  lemma {:induction false} UpAppended(up: seq<ClientFrame>, f: ClientFrame)
    ensures UpdateNs(up + [f]) == if f.Update? then UpdateNs(up) + [f.n] else UpdateNs(up)
    ensures Asked(up + [f]) == Asked(up) + (if Asking(f) then 1 else 0)
  {
    if up == [] {
      assert [f][1..] == [] && [] + [f] == [f];
    } else {
      UpAppended(up[1..], f);
      assert (up + [f])[1..] == up[1..] + [f];
    }
  }

  lemma {:induction false} EchoAppended(down: seq<ServerFrame>, f: ServerFrame)
    ensures EchoNs(down + [f]) == if f.Echo? then EchoNs(down) + [f.n] else EchoNs(down)
  {
    if down == [] {
      assert [f][1..] == [] && [] + [f] == [f];
    } else {
      EchoAppended(down[1..], f);
      assert (down + [f])[1..] == down[1..] + [f];
    }
  }

  lemma {:induction false} NoneAsked(up: seq<ClientFrame>)
    requires Asked(up) == 0
    ensures forall i :: 0 <= i < |up| ==> !Asking(up[i])
  {
    if up != [] {
      NoneAsked(up[1..]);
      forall i | 0 <= i < |up| ensures !Asking(up[i]) { if i > 0 { assert up[i] == up[1..][i - 1]; } }
    }
  }

  lemma {:induction false} NoneUpdates(up: seq<ClientFrame>)
    requires UpdateNs(up) == []
    ensures forall i :: 0 <= i < |up| ==> !up[i].Update?
  {
    if up != [] {
      NoneUpdates(up[1..]);
      forall i | 0 <= i < |up| ensures !up[i].Update? { if i > 0 { assert up[i] == up[1..][i - 1]; } }
    }
  }

  lemma {:induction false} NoneEchoes(down: seq<ServerFrame>)
    requires EchoNs(down) == []
    ensures forall i :: 0 <= i < |down| ==> !down[i].Echo?
  {
    if down != [] {
      NoneEchoes(down[1..]);
      forall i | 0 <= i < |down| ensures !down[i].Echo? { if i > 0 { assert down[i] == down[1..][i - 1]; } }
    }
  }

  lemma {:induction false} OneAsked(up: seq<ClientFrame>, i: nat)
    requires i < |up| && Asking(up[i])
    ensures Asked(up) >= 1
  {
    if i > 0 { OneAsked(up[1..], i - 1); }
  }

  // ---- steps that send

  lemma {:induction false} PostTracked(s: Session, f: ClientFrame, es: seq<nat>, k: nat)
    requires Tracked(s, es, k) && Harmless(f)
    ensures Tracked(s.Send(f), es, k)
  {
    UpAppended(s.up, f);
    assert s.Send(f) == s.Refused() || s.Send(f) == s || s.Send(f) == s.(up := s.up + [f]);
  }

  /** A new counter is past all others. */
  lemma {:induction false} SentFlies(box: Box, ns: seq<nat>, u: Update)
    requires Rising(ns) && (forall i :: 0 <= i < |ns| ==> ns[i] <= box.sent)
    ensures Flying(box.AddUnacked(u), ns) && Flying(box.AddUnacked(u), ns + [box.sent + 1])
  {
  }

  lemma {:induction false} SendUpdateTracked(s: Session, u: Update, es: seq<nat>, k: nat)
    requires Tracked(s, es, k) && (s.online ==> s.joined)
    ensures Tracked(s.SendUpdate(u), es, k)
  {
    UnackedTracked(s, u, es, k);
  }

  /** Numbered, an update is in flight behind those there were. */
  lemma {:induction false} UnackedTracked(s: Session, u: Update, es: seq<nat>, k: nat)
    requires Asked(s.up) + k <= 1
    requires s.joined && s.online && !s.disposed && Asked(s.up) + k == 1 ==> s.rotating || s.moved.Some?
    requires var ns := es + UpdateNs(s.up); s.joined ==> Rising(ns) && forall i :: 0 <= i < |ns| ==> ns[i] <= s.box.sent
    requires !s.joined ==> UpdateNs(s.up) == [] && !s.online
    ensures Tracked(s.SendUpdate(u), es, k)
  {
    var b := s.box.AddUnacked(u);
    var q := s.(box := b);
    if s.joined { SentFlies(s.box, es + UpdateNs(s.up), u); }
    if s.online {
      NumberedTracked(q, Sealed(u), es, k);
    }
  }

  lemma {:induction false} NumberedTracked(s: Session, payload: Payload, es: seq<nat>, k: nat)
    requires s.joined && Tracked(s, es, k) && Flying(s.box, es + UpdateNs(s.up) + [s.box.sent])
    ensures Tracked(s.Send(Frames.Update(s.box.sent, payload)), es, k)
  {
    var f := Frames.Update(s.box.sent, payload);
    UpAppended(s.up, f);
    Regroup(es, UpdateNs(s.up), [s.box.sent]);
  }

  lemma {:induction false} SendMaybeTracked(s: Session, u: Option<Update>, es: seq<nat>, k: nat)
    requires Tracked(s, es, k) && (s.online ==> s.joined)
    ensures Tracked(s.SendMaybe(u), es, k)
  {
    if u.Some? { SendUpdateTracked(s, u.value, es, k); }
  }

  lemma {:induction false} SettleTracked(s: Session, leads: bool, es: seq<nat>, k: nat)
    requires Tracked(s, es, k)
    ensures Tracked(s.Settle(leads), es, k)
  {
    if s.Settled() && s.online && s.log.CompactionDue() && leads {
      var q := s.(agreed := s.agreed + [Agreement(s.log.at, s.doc)], log := s.log.(compacted := s.log.at));
      PostTracked(q, Frames.Snapshot(s.log.at, Sealed(s.doc)), es, k);
    }
  }

  /** Everything unacked goes out as one: something is unacked still, if anything was. */
  lemma {:induction false} ResendTracked(s: Session, es: seq<nat>, k: nat)
    requires Tracked(s, es, k) && (s.online ==> s.joined)
    ensures var (b, all) := s.box.TakeUnacked(); Tracked(s.(box := b).SendMaybe(all), es, k)
  {
    var (b, all) := s.box.TakeUnacked();
    if s.box.unacked != [] {
      assert |UpdatesOf(s.box.unacked)| > 0;
      UnackedTracked(s.(box := b), all.value, es, k);
    }
  }

  lemma {:induction false} GoOnlineTracked(s: Session, es: seq<nat>, k: nat)
    requires Tracked(s, es, k) && s.joined && Asked(s.up) + k == 0
    ensures Tracked(s.GoOnline(), es, k)
  {
    ResendTracked(s.(online := true), es, k);
  }

  lemma {:induction false} FlushedTracked(s: Session, leads: bool, es: seq<nat>, k: nat)
    requires Tracked(s, es, k) && (s.online ==> s.joined)
    ensures Tracked(s.Flushed(leads), es, k)
  {
    var (b, merged) := s.box.FlushStarted().TakePending();
    var q := s.(box := b);
    assert Tracked(q, es, k);
    if merged.Some? { SendUpdateTracked(q, merged.value, es, k); } else { SettleTracked(q, leads, es, k); }
  }

  lemma {:induction false} TimedOutTracked(s: Session, es: seq<nat>, k: nat)
    requires Tracked(s, es, k) && (s.online ==> s.joined)
    ensures Tracked(s.TimedOut(), es, k)
  {
    var q := s.(box := s.box.TimeoutStarted());
    assert Tracked(q, es, k);
    if s.online && !s.disposed { ResendTracked(q, es, k); }
  }

  lemma {:induction false} AskRotationTracked(s: Session, target: Frames.DocId, note: bytes, es: seq<nat>, k: nat)
    requires Tracked(s, es, k)
    ensures Tracked(s.AskRotation(target, note), es, k)
  {
    UpAppended(s.up, Frames.Rotate(target, s.log.at, note, Sealed(s.doc)));
  }

  // ---- steps that read

  lemma {:induction false} AckFlies(box: Box, n: nat, ns: seq<nat>)
    requires box.Valid() && Flying(box, [n] + ns)
    ensures Flying(box.Ack(n).0, ns)
  {
    RisesAfter(n, ns, box.sent);
    assert ([n] + ns)[0] == n && (ns != [] ==> n < ns[0] <= box.sent);
    if box.Names(n) {
      var k :| 0 <= k < |box.unacked| && box.unacked[k].n == n;
      AckAt(box, k);
      AckedLastWaits(box, k);
    }
  }

  lemma {:induction false} RisesAfter(n: nat, ns: seq<nat>, most: nat)
    requires var all := [n] + ns; Rising(all) && forall i :: 0 <= i < |all| ==> all[i] <= most
    ensures Rising(ns) && forall i :: 0 <= i < |ns| ==> n < ns[i] <= most
  {
    var all := [n] + ns;
    forall i | 0 <= i < |ns| ensures n < ns[i] <= most { assert all[0] < all[i + 1]; }
    forall i, j | 0 <= i < j < |ns| ensures ns[i] < ns[j] { assert all[i + 1] < all[j + 1]; }
  }

  lemma {:induction false} AckedLastWaits(box: Box, k: nat)
    requires k < |box.unacked| && LastWaits(box)
    ensures LastWaits(box.(unacked := box.unacked[k + 1..]))
    ensures box.unacked[k].n < box.sent ==> box.unacked[k + 1..] != []
  {
  }

  /** An echo read by a session that has joined. */
  lemma {:induction false} AckedTracked(s: Session, at: nat, n: nat, leads: bool, es: seq<nat>, k: nat)
    requires Tracked(s, [n] + es, k) && s.joined && s.box.Valid()
    ensures Tracked(s.OnEcho(at, n, leads), es, k)
  {
    var ns := es + UpdateNs(s.up);
    assert [n] + es + UpdateNs(s.up) == [n] + ns;
    AckFlies(s.box, n, ns);
    var (b, dropped) := s.box.Ack(n);
    var q := s.(log := s.log.(at := at), box := b);
    SendMaybeTracked(q, dropped, es, k);
    SettleTracked(q.SendMaybe(dropped), leads, es, k);
  }

  /** The echo of the seed: nothing else is under way. */
  lemma {:induction false} SeededTracked(s: Session, at: nat, n: nat, leads: bool)
    requires Tracked(s, [n], 1) && !s.joined && s.seed.Some?
    ensures Tracked(s.OnEcho(at, n, leads), [], 0)
  {
    var q := s.(log := s.log.(at := at), doc := s.doc + s.seed.value, seed := None, joined := true);
    assert [] + UpdateNs(q.up) == [];
    GoOnlineTracked(q, [], 0);
    SettleTracked(q.GoOnline(), leads, [], 0);
  }

  /** A State read: nothing but updates and their echoes is out then, or a seed. */
  lemma {:induction false} StateTracked(s: Session, head: nat, snapshot: Option<Payload>, deltas: seq<Payload>, name: string, disk: Disk, leads: bool, es: seq<nat>)
    requires Tracked(s, es, 1) && !s.log.Lost(head, name) && (!s.joined ==> es == [])
    ensures Tracked(s.OnState(head, snapshot, deltas, name, disk, leads), es, 0)
  {
    var q := s.Caught(head, snapshot, deltas, name);
    assert Tracked(q, es, 1);
    if !q.joined && head == 0 {
      OfferTracked(q, disk, es);
    } else {
      JoinTracked(q, disk, leads, es);
    }
  }

  lemma {:induction false} OfferTracked(s: Session, disk: Disk, es: seq<nat>)
    requires Tracked(s, es, 1) && !s.joined
    ensures Tracked(s.OfferSeed(disk), es, 0)
  {
    var q, f := s.(seed := Some(disk.seed)), Frames.Seed(0, Sealed(disk.seed));
    UpAppended(s.up, f);
    assert q.Send(f) == q.Refused() || q.Send(f) == q || q.Send(f) == q.(up := s.up + [f]);
  }

  lemma {:induction false} JoinTracked(s: Session, disk: Disk, leads: bool, es: seq<nat>)
    requires Tracked(s, es, 1) && (!s.joined ==> es == [])
    ensures var t := if s.joined then s else s.Reconciled(disk);
      Tracked((if t.online then t.(rotating := false) else t.GoOnline()).Settle(leads), es, 0)
  {
    var t := if s.joined then s else s.Reconciled(disk);
    assert [] + UpdateNs(t.up) == UpdateNs(t.up);
    assert t.up == s.up && t.box.unacked == s.box.unacked && t.box.sent == s.box.sent;
    assert Tracked(t.(rotating := false), es, 0);
    var g := if t.online then t.(rotating := false) else t.GoOnline();
    if !t.online { GoOnlineTracked(t, es, 0); }
    SettleTracked(g, leads, es, 0);
  }

  lemma {:induction false} FanoutTracked(s: Session, at: nat, payload: Payload, leads: bool, es: seq<nat>, k: nat)
    requires Tracked(s, es, k)
    ensures Tracked(s.OnFanout(at, payload, leads), es, k)
  {
    if s.joined && s.log.left.None? {
      SettleTracked(s.(doc := s.doc + payload.edits, log := s.log.(at := at)), leads, es, k);
    }
  }

  // ---- a frame taken off the socket

  /** An answer takes the place of the frame it answers. */
  lemma {:induction false} TakenTracked(s: Session, es: seq<nat>, k: nat)
    requires Tracked(s, es, k) && s.up != []
    ensures Tracked(s.(up := s.up[1..]), es, k)
    ensures s.up[0].Update? ==> s.joined && Tracked(s.(up := s.up[1..]), es + [s.up[0].n], k)
    ensures Asking(s.up[0]) ==> Tracked(s.(up := s.up[1..]), es, k + 1)
  {
    var f, rest := s.up[0], UpdateNs(s.up[1..]);
    if f.Update? {
      assert UpdateNs(s.up) == [f.n] + rest && |UpdateNs(s.up)| > 0;
      assert es + ([f.n] + rest) == es + [f.n] + rest;
      DropsOne(s.box, es, f.n, rest);
    } else {
      assert UpdateNs(s.up) == [] + rest == rest;
    }
  }

  lemma {:induction false} DropsOne(box: Box, es: seq<nat>, n: nat, rest: seq<nat>)
    requires Flying(box, es + [n] + rest)
    ensures Flying(box, es + rest)
  {
    var all, left := es + [n] + rest, es + rest;
    assert forall i :: 0 <= i < |left| ==> left[i] == all[if i < |es| then i else i + 1];
  }

  // ---- a session by itself

  lemma {:induction false} AbsorbedTracked(s: Session, merged: Option<Update>, es: seq<nat>, k: nat)
    requires Tracked(s, es, k)
    ensures Tracked(s.Absorbed(merged), es, k)
  {
    var r := s.Absorbed(merged);
    assert r == s.(doc := r.doc, box := r.box) && r.box.unacked == s.box.unacked && r.box.sent == s.box.sent;
  }

  lemma {:induction false} DisposedTracked(s: Session, es: seq<nat>, k: nat)
    requires Tracked(s, es, k) && (s.online ==> s.joined)
    ensures Tracked(s.Disposed(), es, k)
  {
    if !s.disposed {
      var (b, rest) := s.box.Drained().StopTimers().TakePending();
      var q := s.(doc := s.doc + Union(s.box.staged), disposed := true, rotating := false, box := b);
      assert Tracked(q, es, k);
      SendMaybeTracked(q, rest, es, k);
      PostTracked(q.SendMaybe(rest), Frames.Unsub, es, k);
    }
  }
  // ---- what a session closed with nothing out leaves

  /** Settled, online, and asking for nothing. */
  predicate AtRest(s: Session) { s.Settled() && s.online && !s.rotating }

  lemma {:induction false} RestLeavesNothing(s: Session, es: seq<nat>, k: nat)
    requires Tracked(s, es, k) && AtRest(s)
    ensures AllHarmless(s.up) && es == [] && k == 0
  {
    var ns := UpdateNs(s.up);
    assert |es + ns| == |es| + |ns|;
    NoneAsked(s.up);
    NoneUpdates(s.up);
  }

  /** Closing it then adds only an Unsub. */
  lemma {:induction false} RestDisposed(s: Session)
    requires AtRest(s)
    ensures s.Disposed().up == if s.connected then s.up + [Frames.Unsub] else s.up
  {
  }
}
