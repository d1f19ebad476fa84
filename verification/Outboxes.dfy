/** What a session has to send: packages/plugin/src/live/session/outbox.ts. */
module Outboxes {
  import opened Common
  import opened Updates

  /** An update that went out, by the counter its echo will name. */
  datatype Sent = Sent(n: nat, update: Update)

  function UpdatesOf(sent: seq<Sent>): seq<Update>
  {
    seq(|sent|, i requires 0 <= i < |sent| => sent[i].update)
  }

  /** In the order they were sent, so each counter once. */
  ghost predicate Ascending(sent: seq<Sent>)
  {
    forall i, j :: 0 <= i < j < |sent| ==> sent[i].n < sent[j].n
  }

  function Earlier(sent: seq<Sent>, n: nat): seq<Sent>
  {
    if sent == [] then []
    else (if sent[0].n < n then [sent[0]] else []) + Earlier(sent[1..], n)
  }

  function Later(sent: seq<Sent>, n: nat): seq<Sent>
  {
    if sent == [] then []
    else (if sent[0].n > n then [sent[0]] else []) + Later(sent[1..], n)
  }

  /** A staged drain stands for the edits it will make; `flushes` and `timeouts` count the steps queued by the two timers. */
  datatype Box = Box(
    staged: seq<Update>,
    pending: seq<Update>,
    unacked: seq<Sent>,
    sent: nat,
    timer: bool,
    ackTimer: bool,
    flushes: nat,
    timeouts: nat)
  {
    ghost predicate Valid() {
      && Ascending(unacked)
      && (forall i :: 0 <= i < |unacked| ==> 0 < unacked[i].n <= sent)
      // Whatever is staged or pending has a flush coming.
      && (staged != [] ==> timer)
      && (pending != [] ==> timer || flushes > 0)
    }

    predicate Idle() { staged == [] && pending == [] && unacked == [] }

    /** The edits a session's document has and its place in the log does not account for. */
    function Outstanding(): Update { Union(pending) + Union(UpdatesOf(unacked)) }

    predicate Names(n: nat) { exists i :: 0 <= i < |unacked| && unacked[i].n == n }

    function AddPending(u: Update): Box { this.(pending := pending + [u], timer := true) }

    function Stage(u: Update): Box { this.(staged := staged + [u], timer := true) }

    function Drained(): Box
    {
      if staged == [] then this
      else this.(staged := [], pending := pending + staged, timer := true)
    }

    function TakePending(): (Box, Option<Update>) { (this.(pending := []), Merged(pending)) }

    function AddUnacked(u: Update): Box
    {
      this.(unacked := unacked + [Sent(sent + 1, u)], sent := sent + 1, ackTimer := true)
    }

    /** The echo of `n` settles it, and gives up on every earlier one: those are returned to go out again. */
    function Ack(n: nat): (Box, Option<Update>)
    {
      if !Names(n) then (this, None)
      else
        var kept := Later(unacked, n);
        (this.(unacked := kept, ackTimer := kept != []), Merged(UpdatesOf(Earlier(unacked, n))))
    }

    function TakeUnacked(): (Box, Option<Update>)
    {
      (this.(unacked := [], ackTimer := false), Merged(UpdatesOf(unacked)))
    }

    function StopTimers(): Box { this.(timer := false, ackTimer := false) }

    /** The flush timer fires: staged edits join the document, and the take waits its turn in the queue. */
    function FlushFired(): Box { Drained().(timer := false, flushes := flushes + 1) }

    function FlushStarted(): Box { if flushes > 0 then this.(flushes := flushes - 1) else this }

    function AckFired(): Box { this.(ackTimer := false, timeouts := timeouts + 1) }

    function TimeoutStarted(): Box { if timeouts > 0 then this.(timeouts := timeouts - 1) else this }
  }

  const EMPTY_BOX := Box([], [], [], 0, false, false, 0, 0)

  // ---- what the lists keep

  lemma {:induction false} UpdatesOfAppend(sent: seq<Sent>, s: Sent)
    ensures UpdatesOf(sent + [s]) == UpdatesOf(sent) + [s.update]
  {
  }

  lemma {:induction false} EarlierLaterIn(sent: seq<Sent>, n: nat)
    ensures forall s :: s in Earlier(sent, n) <==> s in sent && s.n < n
    ensures forall s :: s in Later(sent, n) <==> s in sent && s.n > n
  {
    if sent != [] {
      EarlierLaterIn(sent[1..], n);
      assert sent == [sent[0]] + sent[1..];
    }
  }

  lemma {:induction false} SplitAt(sent: seq<Sent>, k: nat)
    requires Ascending(sent) && k < |sent|
    ensures Earlier(sent, sent[k].n) == sent[..k]
    ensures Later(sent, sent[k].n) == sent[k + 1..]
  {
    var n, rest := sent[k].n, sent[1..];
    if k == 0 {
      NoneEarlier(sent, n);
      AllLater(rest, n);
      assert Later(sent, n) == Later(rest, n);
    } else {
      SplitAt(rest, k - 1);
      assert rest[k - 1] == sent[k];
      assert sent[..k] == [sent[0]] + rest[..k - 1];
      assert sent[k + 1..] == rest[k..];
    }
  }

  lemma {:induction false} NoneEarlier(sent: seq<Sent>, n: nat)
    requires forall i :: 0 <= i < |sent| ==> sent[i].n >= n
    ensures Earlier(sent, n) == []
  {
    if sent != [] { NoneEarlier(sent[1..], n); }
  }

  lemma {:induction false} AllLater(sent: seq<Sent>, n: nat)
    requires forall i :: 0 <= i < |sent| ==> sent[i].n > n
    ensures Later(sent, n) == sent
  {
    if sent != [] { AllLater(sent[1..], n); }
  }

  lemma {:induction false} UpdatesOfConcat(a: seq<Sent>, b: seq<Sent>)
    ensures UpdatesOf(a + b) == UpdatesOf(a) + UpdatesOf(b)
  {
  }

  // ---- the outbox loses nothing

  lemma {:induction false} AddUnackedKeeps(box: Box, u: Update)
    requires box.Valid()
    ensures box.AddUnacked(u).Valid()
    ensures box.AddUnacked(u).Outstanding() == box.Outstanding() + u
  {
    UpdatesOfAppend(box.unacked, Sent(box.sent + 1, u));
    UnionAppend(UpdatesOf(box.unacked), u);
  }

  lemma {:induction false} AddPendingKeeps(box: Box, u: Update)
    requires box.Valid()
    ensures box.AddPending(u).Valid()
    ensures box.AddPending(u).Outstanding() == box.Outstanding() + u
  {
    UnionAppend(box.pending, u);
  }

  lemma {:induction false} DrainedKeeps(box: Box)
    requires box.Valid()
    ensures box.Drained().Valid() && box.Drained().staged == []
    ensures box.Drained().Outstanding() == box.Outstanding() + Union(box.staged)
  {
    UnionConcat(box.pending, box.staged);
  }

  /** A flush or a resend only moves edits from one list to the other. */
  lemma {:induction false} TakePendingKeeps(box: Box)
    requires box.Valid()
    ensures var (b, u) := box.TakePending(); b.Valid() && b.Outstanding() + Carried(u) == box.Outstanding()
  {
  }

  lemma {:induction false} TakeUnackedKeeps(box: Box)
    requires box.Valid()
    ensures var (b, u) := box.TakeUnacked(); b.Valid() && b.Outstanding() + Carried(u) == box.Outstanding()
  {
  }

  lemma {:induction false} SplitUnion(all: seq<Sent>, k: nat)
    requires Ascending(all) && k < |all|
    ensures Union(UpdatesOf(all))
         == Union(UpdatesOf(Earlier(all, all[k].n))) + all[k].update + Union(UpdatesOf(Later(all, all[k].n)))
  {
    SplitAt(all, k);
    var front := all[..k] + [all[k]];
    assert all == front + all[k + 1..];
    UpdatesOfConcat(front, all[k + 1..]);
    UnionConcat(UpdatesOf(front), UpdatesOf(all[k + 1..]));
    UpdatesOfAppend(all[..k], all[k]);
    UnionAppend(UpdatesOf(all[..k]), all[k].update);
  }

  /** Acknowledging the update at `k` keeps what was sent after it and gives back what was sent before. */
  lemma {:induction false} AckAt(box: Box, k: nat)
    requires box.Valid() && k < |box.unacked|
    ensures box.Ack(box.unacked[k].n)
         == (box.(unacked := box.unacked[k + 1..], ackTimer := box.unacked[k + 1..] != []), Merged(UpdatesOf(box.unacked[..k])))
  {
    SplitAt(box.unacked, k);
    assert box.Names(box.unacked[k].n);
  }

  lemma {:induction false} WithoutAt(sent: seq<Sent>, k: nat)
    requires Ascending(sent) && k < |sent|
    ensures var w := sent[..k] + sent[k + 1..];
      && |w| == |sent| - 1 && w[..k] == sent[..k] && w[k..] == sent[k + 1..]
      && (forall i :: 0 <= i < |w| ==> (w[i].n <= sent[k].n <==> i < k))
  {
  }

  lemma {:induction false} TailOf(sent: seq<Sent>, k: nat)
    requires Ascending(sent) && k <= |sent|
    ensures Ascending(sent[k..]) && forall s :: s in sent[k..] ==> s in sent
    ensures forall i {:trigger sent[k..][i]} :: 0 <= i < |sent| - k ==> sent[k..][i] == sent[k + i]
  {
  }

  lemma {:induction false} AckValid(box: Box, n: nat)
    requires box.Valid()
    ensures var (b, u) := box.Ack(n); b.Valid() && forall s :: s in b.unacked ==> s in box.unacked
  {
    if box.Names(n) {
      var k :| 0 <= k < |box.unacked| && box.unacked[k].n == n;
      AckAt(box, k);
      TailOf(box.unacked, k + 1);
    }
  }

  /** An acknowledgement drops the update it names and nothing else. */
  lemma {:induction false} AckKeeps(box: Box, n: nat)
    requires box.Valid()
    ensures var (b, u) := box.Ack(n);
      && b.Outstanding() + Carried(u) <= box.Outstanding()
      && (forall k :: 0 <= k < |box.unacked| && box.unacked[k].n == n ==>
            b.Outstanding() + Carried(u) + box.unacked[k].update == box.Outstanding())
  {
    forall k | 0 <= k < |box.unacked| && box.unacked[k].n == n
      ensures var (b, u) := box.Ack(n); b.Outstanding() + Carried(u) + box.unacked[k].update == box.Outstanding()
    {
      SplitUnion(box.unacked, k);
    }
  }

  lemma {:induction false} DrainStep(all: seq<Update>, before: seq<Update>, k: nat)
    requires k < |all|
    ensures all[k..] != [] && all[k..][0] == all[k] && all[k..][1..] == all[k + 1..]
    ensures before + all[..k + 1] == before + all[..k] + [all[k]]
    ensures Union(all[..k + 1]) == Union(all[..k]) + all[k]
  {
    UnionStep(all, k);
    assert all[..k + 1] == all[..k] + [all[k]];
  }

  // ---- the class

  class Outbox {
    var staged: seq<Update>
    var pending: seq<Update>
    var unacked: seq<Sent>
    var sent: nat
    var timer: bool
    var ackTimer: bool
    var flushes: nat
    var timeouts: nat

    function Contents(): Box
      reads this
    {
      Box(staged, pending, unacked, sent, timer, ackTimer, flushes, timeouts)
    }

    ghost predicate Valid()
      reads this
    {
      Contents().Valid()
    }

    constructor ()
      ensures Valid() && Contents() == EMPTY_BOX
    {
      staged, pending, unacked, sent := [], [], [], 0;
      timer, ackTimer, flushes, timeouts := false, false, 0, 0;
    }

    method AddPending(update: Update)
      requires Valid()
      modifies this
      ensures Valid() && Contents() == old(Contents()).AddPending(update)
    {
      pending := pending + [update];
      timer := true;
    }

    method Stage(drain: Update)
      requires Valid()
      modifies this
      ensures Valid() && Contents() == old(Contents()).Stage(drain)
    {
      staged := staged + [drain];
      timer := true;
    }

    /** Empties `staged` and returns all its edits, which are pending now. */
    method DrainStaged() returns (made: Update)
      requires Valid()
      modifies this`staged, this`pending, this`timer
      ensures Valid() && Contents() == old(Contents()).Drained() && made == Union(old(staged))
    {
      DrainedKeeps(Contents());
      made := {};
      ghost var all, before, k := staged, pending, 0;
      while staged != []
        invariant 0 <= k <= |all| && staged == all[k..] && made == Union(all[..k]) && pending == before + all[..k]
        invariant timer == (old(timer) || k > 0)
        decreases |staged|
      {
        DrainStep(all, before, k);
        var drain := staged[0];
        staged := staged[1..];
        made := made + drain;
        AddLocal(drain);
        k := k + 1;
      }
      assert all[..k] == all;
    }

    /** A drain's edit comes back as a local update. */
    method AddLocal(update: Update)
      modifies this`pending, this`timer
      ensures pending == old(pending) + [update] && timer
    {
      pending := pending + [update];
      timer := true;
    }

    method TakePending() returns (merged: Option<Update>)
      requires Valid()
      modifies this`pending
      ensures Valid() && (Contents(), merged) == old(Contents()).TakePending()
    {
      merged := Merged(pending);
      pending := [];
    }

    method AddUnacked(update: Update) returns (n: nat)
      requires Valid()
      modifies this
      ensures Valid() && Contents() == old(Contents()).AddUnacked(update) && n == sent
    {
      AddUnackedKeeps(Contents(), update);
      sent := sent + 1;
      unacked := unacked + [Sent(sent, update)];
      ackTimer := true;
      n := sent;
    }

    method Ack(n: nat) returns (resend: Option<Update>)
      requires Valid()
      modifies this`unacked, this`ackTimer
      ensures Valid() && (Contents(), resend) == old(Contents()).Ack(n)
    {
      AckValid(Contents(), n);
      ghost var box := Contents();
      var had;
      ghost var at;
      had, at := Delete(n);
      if !had { return None; }
      AckAt(box, at);
      WithoutAt(box.unacked, at);
      var dropped := DropUpTo(n, at);
      ackTimer := |unacked| > 0;
      resend := Merged(dropped);
    }

    /** The map's own `delete`. */
    method Delete(n: nat) returns (had: bool, ghost at: nat)
      requires Valid()
      modifies this`unacked
      ensures had == old(Contents()).Names(n)
      ensures had ==> at < |old(unacked)| && old(unacked)[at].n == n && unacked == old(unacked)[..at] + old(unacked)[at + 1..]
      ensures !had ==> unacked == old(unacked)
    {
      var k := 0;
      while k < |unacked| && unacked[k].n != n
        invariant 0 <= k <= |unacked| && unacked == old(unacked)
        invariant forall i :: 0 <= i < k ==> unacked[i].n != n
      {
        k := k + 1;
      }
      had, at := k < |unacked|, k;
      if had { unacked := unacked[..k] + unacked[k + 1..]; }
    }

    /** The loop of `ack`: whatever went out before `n` leaves the map. */
    method DropUpTo(n: nat, ghost at: nat) returns (dropped: seq<Update>)
      requires at <= |unacked|
      requires forall i :: 0 <= i < |unacked| ==> (unacked[i].n <= n <==> i < at)
      modifies this`unacked
      ensures dropped == UpdatesOf(old(unacked)[..at]) && unacked == old(unacked)[at..]
    {
      dropped := [];
      ghost var all := unacked;
      while unacked != [] && unacked[0].n <= n
        invariant |dropped| <= at && unacked == all[|dropped|..] && dropped == UpdatesOf(all[..|dropped|])
        decreases |unacked|
      {
        assert unacked[0] == all[|dropped|];
        assert all[..|dropped| + 1] == all[..|dropped|] + [all[|dropped|]];
        dropped := dropped + [unacked[0].update];
        unacked := unacked[1..];
      }
    }

    method TakeUnacked() returns (merged: Option<Update>)
      requires Valid()
      modifies this
      ensures Valid() && (Contents(), merged) == old(Contents()).TakeUnacked()
    {
      ackTimer := false;
      merged := Merged(UpdatesOf(unacked));
      unacked := [];
    }

    /** `flush`: the timer fires, staged edits are made, and the take waits its turn in the queue. */
    method FireFlush() returns (made: Update)
      requires Valid() && timer
      modifies this
      ensures Valid() && Contents() == old(Contents()).FlushFired() && made == Union(old(staged))
    {
      made := DrainStaged();
      timer := false;
      flushes := flushes + 1;
    }

    /** The queued step of a flush. */
    method StartFlush() returns (merged: Option<Update>)
      requires Valid() && flushes > 0
      modifies this
      ensures Valid() && (Contents(), merged) == old(Contents()).FlushStarted().TakePending()
    {
      flushes := flushes - 1;
      merged := Merged(pending);
      pending := [];
    }

    method FireTimeout()
      requires Valid() && ackTimer
      modifies this
      ensures Valid() && Contents() == old(Contents()).AckFired()
    {
      ackTimer := false;
      timeouts := timeouts + 1;
    }

    method StartTimeout()
      requires Valid() && timeouts > 0
      modifies this
      ensures Valid() && Contents() == old(Contents()).TimeoutStarted()
    {
      timeouts := timeouts - 1;
    }

    /** On disposal both timers stop and what is pending leaves as one update. */
    method Close() returns (merged: Option<Update>)
      requires Valid() && staged == []
      modifies this
      ensures Valid() && (Contents(), merged) == old(Contents()).StopTimers().TakePending()
    {
      timer, ackTimer := false, false;
      merged := Merged(pending);
      pending := [];
    }
  }
}
