/** What the hub lets through of each socket: packages/relay/src/hub/limits.ts. */
module Limits {
  import opened Common
  import opened Frames
  import opened Buckets

  const FRAMES: Rate := Rate(32.0, 256.0)
  const READ_ONLY_AWARENESS: Rate := Rate(20.0, 40.0)
  const MAX_READ_ONLY_AWARENESS_BYTES: nat := 4 * 1024

  /** A bucket for each tag that took from one. */
  datatype Ceilings = Ceilings(frames: map<nat, Bucket>, awareness: map<nat, Bucket>)

  const FRESH: Ceilings := Ceilings(map[], map[])

  function Of(m: map<nat, Bucket>, tag: nat): Option<Bucket>
  {
    if tag in m then Some(m[tag]) else None
  }

  function Taken(m: map<nat, Bucket>, tag: nat, r: Rate, now: real): map<nat, Bucket>
  {
    var b := Take(Of(m, tag), r, now);
    if b.None? then m else m[tag := b.value]
  }

  /** A frame came from a socket, which may hold no more than a read-only grant, or a socket left. */
  datatype Event =
    | Came(tag: nat, frame: ClientBody<bytes>, readOnly: bool, size: nat, now: real)
    | Gone(tag: nat, now: real)

  predicate TakesFrame(l: Ceilings, e: Event)
  {
    e.Came? && Take(Of(l.frames, e.tag), FRAMES, e.now).Some?
  }

  /** Presence of a read-only grant asks a second bucket, once the first gave and if it is small. */
  predicate AsksAwareness(l: Ceilings, e: Event)
  {
    && TakesFrame(l, e) && e.readOnly && e.frame.Awareness?
    && e.size <= MAX_READ_ONLY_AWARENESS_BYTES
  }

  predicate Allowed(l: Ceilings, e: Event)
  {
    && TakesFrame(l, e)
    && (e.readOnly && e.frame.Awareness? ==>
          AsksAwareness(l, e) && Take(Of(l.awareness, e.tag), READ_ONLY_AWARENESS, e.now).Some?)
    && !(e.readOnly && e.frame.Signal?)
  }

  function Step(l: Ceilings, e: Event): Ceilings
  {
    match e
    case Gone(tag, _) => Ceilings(l.frames - {tag}, l.awareness - {tag})
    case Came(tag, _, _, _, now) =>
      Ceilings(Taken(l.frames, tag, FRAMES, now),
            if AsksAwareness(l, e) then Taken(l.awareness, tag, READ_ONLY_AWARENESS, now) else l.awareness)
  }

  /** The source's object, which changes its two maps as frames come. */
  class FrameLimits {
    var frames: map<nat, Bucket>
    var awareness: map<nat, Bucket>

    ghost function Now(): Ceilings
      reads this
    {
      Ceilings(frames, awareness)
    }

    constructor ()
      ensures Now() == FRESH
    {
      frames, awareness := map[], map[];
    }

    method Allows(tag: nat, frame: ClientBody<bytes>, readOnly: bool, size: nat, now: real) returns (ok: bool)
      modifies this
      ensures Now() == Step(old(Now()), Came(tag, frame, readOnly, size, now))
      ensures ok == Allowed(old(Now()), Came(tag, frame, readOnly, size, now))
    {
      var b := Take(Of(frames, tag), FRAMES, now);
      if b.None? { return false; }
      frames := frames[tag := b.value];
      if !readOnly { return true; }
      if frame.Signal? { return false; }
      if !frame.Awareness? { return true; }
      if size > MAX_READ_ONLY_AWARENESS_BYTES { return false; }
      var a := Take(Of(awareness, tag), READ_ONLY_AWARENESS, now);
      if a.None? { return false; }
      awareness := awareness[tag := a.value];
      ok := true;
    }

    method Forget(tag: nat)
      modifies this
      ensures forall now {:trigger Gone(tag, now)} :: Now() == Step(old(Now()), Gone(tag, now))
    {
      frames := frames - {tag};
      awareness := awareness - {tag};
    }
  }

  /** The state before event k. */
  function Run(l: Ceilings, events: seq<Event>, k: nat): Ceilings
    requires k <= |events|
  {
    if k == 0 then l else Step(Run(l, events, k - 1), events[k - 1])
  }

  /** How many frames of a tag got through, of the first n events. */
  function Through(l: Ceilings, events: seq<Event>, tag: nat, n: nat): nat
    requires n <= |events|
  {
    if n == 0 then 0
    else Through(l, events, tag, n - 1)
         + (if events[n - 1].tag == tag && Allowed(Run(l, events, n - 1), events[n - 1]) then 1 else 0)
  }

  /** How many of them were presence under a read-only grant. */
  function ThroughReadOnly(l: Ceilings, events: seq<Event>, tag: nat, n: nat): nat
    requires n <= |events|
  {
    if n == 0 then 0
    else
      var e := events[n - 1];
      ThroughReadOnly(l, events, tag, n - 1)
      + (if e.tag == tag && Allowed(Run(l, events, n - 1), e) && e.readOnly && e.frame.Awareness? then 1 else 0)
  }

  /** What the events are to a tag's bucket of frames. */
  function FrameTurns(events: seq<Event>, tag: nat): (turns: seq<Turn>)
    ensures |turns| == |events|
  {
    seq(|events|, i requires 0 <= i < |events| => Turn(events[i].now, events[i].Came? && events[i].tag == tag))
  }

  /** And to its bucket of presence. */
  function AwarenessTurns(l: Ceilings, events: seq<Event>, tag: nat): (turns: seq<Turn>)
    ensures |turns| == |events|
  {
    seq(|events|, i requires 0 <= i < |events| =>
      Turn(events[i].now, events[i].tag == tag && AsksAwareness(Run(l, events, i), events[i])))
  }

  predicate Clock(events: seq<Event>)
  {
    forall i, j :: 0 <= i <= j < |events| ==> events[i].now <= events[j].now
  }

  /** No event of the run forgets `tag`. */
  predicate Stays(events: seq<Event>, tag: nat)
  {
    forall i {:trigger events[i]} :: 0 <= i < |events| ==> !(events[i].Gone? && events[i].tag == tag)
  }

  ghost predicate CeilingsOk(l: Ceilings, now: real)
  {
    && (forall t {:trigger Of(l.frames, t)} :: BucketOk(Of(l.frames, t), FRAMES, now))
    && (forall t {:trigger Of(l.awareness, t)} :: BucketOk(Of(l.awareness, t), READ_ONLY_AWARENESS, now))
  }

  lemma {:induction false} TakenOk(m: map<nat, Bucket>, r: Rate, tag: nat, t: nat, now: real)
    requires RateOk(r) && BucketOk(Of(m, t), r, now) && BucketOk(Of(m, tag), r, now)
    ensures BucketOk(Of(Taken(m, tag, r, now), t), r, now)
    ensures Of(Taken(m, tag, r, now), t) == if t == tag then Next(Of(m, t), r, Turn(now, true)) else Of(m, t)
  {
    NextLevel(Of(m, tag), r, Turn(now, true));
  }

  lemma {:induction false} StepOk(l: Ceilings, e: Event, now: real)
    requires CeilingsOk(l, e.now) && e.now <= now
    ensures CeilingsOk(Step(l, e), now)
  {
    var s := Step(l, e);
    forall t ensures BucketOk(Of(s.frames, t), FRAMES, now) {
      assert BucketOk(Of(l.frames, t), FRAMES, e.now) && BucketOk(Of(l.frames, e.tag), FRAMES, e.now);
      if e.Came? { TakenOk(l.frames, FRAMES, e.tag, t, e.now); }
    }
    forall t ensures BucketOk(Of(s.awareness, t), READ_ONLY_AWARENESS, now) {
      assert BucketOk(Of(l.awareness, t), READ_ONLY_AWARENESS, e.now);
      assert BucketOk(Of(l.awareness, e.tag), READ_ONLY_AWARENESS, e.now);
      if AsksAwareness(l, e) { TakenOk(l.awareness, READ_ONLY_AWARENESS, e.tag, t, e.now); }
    }
  }

  lemma {:induction false} RunOk(events: seq<Event>, k: nat)
    requires Clock(events) && k < |events|
    ensures CeilingsOk(Run(FRESH, events, k), events[k].now)
  {
    if k > 0 {
      RunOk(events, k - 1);
      assert events[k - 1].now <= events[k].now;
      StepOk(Run(FRESH, events, k - 1), events[k - 1], events[k].now);
    }
  }

  /** Other tags never touch a tag's bucket: it goes through the tag's own turns. */
  lemma {:induction false} FrameBucket(l: Ceilings, events: seq<Event>, tag: nat, k: nat)
    requires k <= |events| && Stays(events, tag)
    ensures Of(Run(l, events, k).frames, tag) == Before(Of(l.frames, tag), FRAMES, FrameTurns(events, tag), k)
  {
    if k > 0 {
      FrameBucket(l, events, tag, k - 1);
      assert !(events[k - 1].Gone? && events[k - 1].tag == tag);
    }
  }

  lemma {:induction false} AwarenessBucket(l: Ceilings, events: seq<Event>, tag: nat, k: nat)
    requires k <= |events| && Stays(events, tag)
    ensures Of(Run(l, events, k).awareness, tag)
         == Before(Of(l.awareness, tag), READ_ONLY_AWARENESS, AwarenessTurns(l, events, tag), k)
  {
    if k > 0 {
      AwarenessBucket(l, events, tag, k - 1);
      assert !(events[k - 1].Gone? && events[k - 1].tag == tag);
    }
  }

  lemma {:induction false} ThroughIsPassed(l: Ceilings, events: seq<Event>, tag: nat, n: nat)
    requires n <= |events| && Stays(events, tag)
    ensures Through(l, events, tag, n) <= Passed(Of(l.frames, tag), FRAMES, FrameTurns(events, tag), 0, n)
  {
    if n > 0 {
      ThroughIsPassed(l, events, tag, n - 1);
      FrameBucket(l, events, tag, n - 1);
    }
  }

  lemma {:induction false} ReadOnlyIsPassed(l: Ceilings, events: seq<Event>, tag: nat, n: nat)
    requires n <= |events| && Stays(events, tag)
    ensures ThroughReadOnly(l, events, tag, n)
         <= Passed(Of(l.awareness, tag), READ_ONLY_AWARENESS, AwarenessTurns(l, events, tag), 0, n)
  {
    if n > 0 {
      ReadOnlyIsPassed(l, events, tag, n - 1);
      AwarenessBucket(l, events, tag, n - 1);
    }
  }

  /** From any state a run can be in: what gets through is inside the envelope of the time it took. */
  lemma {:induction false} FromHereBounded(l: Ceilings, events: seq<Event>, tag: nat, window: real)
    requires |events| > 0 && Clock(events) && Stays(events, tag) && CeilingsOk(l, events[0].now)
    requires events[|events| - 1].now - events[0].now <= window
    ensures Through(l, events, tag, |events|) as real <= 256.0 + 32.0 * window / 1000.0
    ensures ThroughReadOnly(l, events, tag, |events|) as real <= 40.0 + 20.0 * window / 1000.0
  {
    var n := |events|;
    ThroughIsPassed(l, events, tag, n);
    assert BucketOk(Of(l.frames, tag), FRAMES, events[0].now);
    WindowBounded(Of(l.frames, tag), FRAMES, FrameTurns(events, tag), 0, n, window);
    ReadOnlyIsPassed(l, events, tag, n);
    assert BucketOk(Of(l.awareness, tag), READ_ONLY_AWARENESS, events[0].now);
    WindowBounded(Of(l.awareness, tag), READ_ONLY_AWARENESS, AwarenessTurns(l, events, tag), 0, n, window);
  }

  /** Every run, every tag, every window the socket stays for. */
  lemma {:induction false} EveryWindowBounded(events: seq<Event>, tag: nat, i: nat, j: nat, window: real)
    requires Clock(events) && i < j <= |events| && Stays(events[i..j], tag)
    requires events[j - 1].now - events[i].now <= window
    ensures Through(Run(FRESH, events, i), events[i..j], tag, j - i) as real <= 256.0 + 32.0 * window / 1000.0
    ensures ThroughReadOnly(Run(FRESH, events, i), events[i..j], tag, j - i) as real <= 40.0 + 20.0 * window / 1000.0
  {
    RunOk(events, i);
    FromHereBounded(Run(FRESH, events, i), events[i..j], tag, window);
  }

  /** The part of a run from event i is a run of its own. */
  lemma {:induction false} RunSplits(l: Ceilings, events: seq<Event>, i: nat, j: nat, k: nat)
    requires i + k <= j <= |events|
    ensures Run(Run(l, events, i), events[i..j], k) == Run(l, events, i + k)
  {
    if k > 0 { RunSplits(l, events, i, j, k - 1); }
  }

  predicate NeverLimited(l: Ceilings, events: seq<Event>, tag: nat)
  {
    forall k {:trigger Run(l, events, k)} ::
      0 <= k < |events| && events[k].Came? && events[k].tag == tag ==> TakesFrame(Run(l, events, k), events[k])
  }

  /** A socket that just joined is never held back by the rate exactly when its windows stay inside the envelope. */
  lemma {:induction false} NeverLimitedExactly(l: Ceilings, events: seq<Event>, tag: nat)
    requires Clock(events) && Stays(events, tag) && tag !in l.frames
    ensures NeverLimited(l, events, tag)
        <==> forall i, k :: 0 <= i <= k < |events| ==> Inside(FRAMES, FrameTurns(events, tag), i, k)
  {
    var turns := FrameTurns(events, tag);
    NeverRefused(FRAMES, turns);
    forall k | 0 <= k < |events| && turns[k].asked
      ensures TakesFrame(Run(l, events, k), events[k]) <==> PassesAt(None, FRAMES, turns, k)
    {
      FrameBucket(l, events, tag, k);
    }
    if NeverLimited(l, events, tag) {
      forall k | 0 <= k < |events| && turns[k].asked ensures PassesAt(None, FRAMES, turns, k) {
        assert TakesFrame(Run(l, events, k), events[k]);
      }
    }
  }

  /** All windows of these turns that end at turn `k` have room for one more. */
  predicate AllFit(r: Rate, turns: seq<Turn>, k: nat)
    requires k < |turns|
  {
    forall i :: 0 <= i <= k ==> Fits(r, turns, i, k)
  }

  /**
   * Exactly which frames of a socket that just joined get through: where the rate has room, and under a read-only
   * grant no signals, and presence only up to 4 KiB and where its own rate has room as well.
   */
  lemma {:induction false} AllowedExactly(l: Ceilings, events: seq<Event>, tag: nat, k: nat)
    requires Clock(events) && Stays(events, tag) && tag !in l.frames && tag !in l.awareness
    requires k < |events| && events[k].Came? && events[k].tag == tag
    ensures var e, presence := events[k], AwarenessTurns(l, events, tag);
      var room := AllFit(FRAMES, FrameTurns(events, tag), k);
      && (presence[k].asked <==> room && e.readOnly && e.frame.Awareness? && e.size <= 4096)
      && (Allowed(Run(l, events, k), e) <==>
            room && (e.readOnly ==> !e.frame.Signal? && (e.frame.Awareness? ==> e.size <= 4096 && AllFit(READ_ONLY_AWARENESS, presence, k))))
  {
    var e, turns, presence := events[k], FrameTurns(events, tag), AwarenessTurns(l, events, tag);
    FrameBucket(l, events, tag, k);
    PassesExactly(FRAMES, turns, k);
    if presence[k].asked {
      AwarenessBucket(l, events, tag, k);
      PassesExactly(READ_ONLY_AWARENESS, presence, k);
    }
  }
}
