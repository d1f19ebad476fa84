/** Token buckets: `take` of packages/relay/src/hub/limits.ts, over the reals. */
module Buckets {
  import opened Common

  datatype Rate = Rate(perSecond: real, burst: real)

  datatype Bucket = Bucket(tokens: real, at: real)

  predicate RateOk(r: Rate) { r.perSecond >= 0.0 && r.burst >= 1.0 }

  /** What `elapsed` milliseconds refill. */
  function Refill(r: Rate, elapsed: real): real { elapsed / 1000.0 * r.perSecond }

  lemma {:induction false} RefillPerSecond(r: Rate, seconds: real)
    ensures Refill(r, 1000.0 * seconds) == r.perSecond * seconds
  {
  }

  /** What a bucket holds at a moment; one nobody took from is full. */
  function Level(b: Option<Bucket>, r: Rate, now: real): real
  {
    if b.None? then r.burst
    else
      var tokens := b.value.tokens + Refill(r, now - b.value.at);
      if tokens < r.burst then tokens else r.burst
  }

  /** The bucket a token was taken from; none, and nothing taken, when it holds less than one. */
  function Take(b: Option<Bucket>, r: Rate, now: real): Option<Bucket>
  {
    var tokens := Level(Some(if b.Some? then b.value else Bucket(r.burst, now)), r, now);
    if tokens < 1.0 then None else Some(Bucket(tokens - 1.0, now))
  }

  /** Something happened, and this bucket was or was not asked for a token. */
  datatype Turn = Turn(now: real, asked: bool)

  predicate Passes(b: Option<Bucket>, r: Rate, t: Turn)
  {
    t.asked && Take(b, r, t.now).Some?
  }

  function Next(b: Option<Bucket>, r: Rate, t: Turn): Option<Bucket>
  {
    if Passes(b, r, t) then Take(b, r, t.now) else b
  }

  /** The bucket before turn k. */
  function Before(b: Option<Bucket>, r: Rate, turns: seq<Turn>, k: nat): Option<Bucket>
    requires k <= |turns|
  {
    if k == 0 then b else Next(Before(b, r, turns, k - 1), r, turns[k - 1])
  }

  predicate PassesAt(b: Option<Bucket>, r: Rate, turns: seq<Turn>, k: nat)
    requires k < |turns|
  {
    Passes(Before(b, r, turns, k), r, turns[k])
  }

  /** How many of the turns i..j got a token. */
  function Passed(b: Option<Bucket>, r: Rate, turns: seq<Turn>, i: nat, j: nat): nat
    requires i <= j <= |turns|
  {
    if i == j then 0 else Passed(b, r, turns, i, j - 1) + (if PassesAt(b, r, turns, j - 1) then 1 else 0)
  }

  /** A clock that never runs backwards. */
  predicate Clocked(turns: seq<Turn>)
  {
    forall i, j :: 0 <= i <= j < |turns| ==> turns[i].now <= turns[j].now
  }

  predicate BucketOk(b: Option<Bucket>, r: Rate, now: real)
  {
    b.Some? ==> 0.0 <= b.value.tokens <= r.burst && b.value.at <= now
  }

  lemma {:induction false} RefillAdds(r: Rate, x: real, y: real)
    requires RateOk(r)
    ensures Refill(r, x + y) == Refill(r, x) + Refill(r, y)
    ensures x >= 0.0 ==> Refill(r, x) >= 0.0
  {
    assert (x + y) / 1000.0 == x / 1000.0 + y / 1000.0;
    if x >= 0.0 { assert x / 1000.0 >= 0.0; }
  }

  /** Time passing fills a bucket by at most what it refills, and exactly that unless it is full. */
  lemma {:induction false} LevelRises(b: Option<Bucket>, r: Rate, past: real, now: real)
    requires RateOk(r) && BucketOk(b, r, past) && past <= now
    ensures 0.0 <= Level(b, r, past) <= Level(b, r, now) <= Level(b, r, past) + Refill(r, now - past)
    ensures Level(b, r, now) == r.burst || Level(b, r, now) == Level(b, r, past) + Refill(r, now - past)
  {
    RefillAdds(r, now - past, 0.0);
    if b.Some? {
      RefillAdds(r, now - past, past - b.value.at);
      RefillAdds(r, past - b.value.at, 0.0);
      assert now - b.value.at == (now - past) + (past - b.value.at);
    }
  }

  /** A turn costs a token exactly when it passes. */
  lemma {:induction false} NextLevel(b: Option<Bucket>, r: Rate, t: Turn)
    requires RateOk(r) && BucketOk(b, r, t.now)
    ensures BucketOk(Next(b, r, t), r, t.now)
    ensures Passes(b, r, t) <==> t.asked && Level(b, r, t.now) >= 1.0
    ensures Level(Next(b, r, t), r, t.now) == Level(b, r, t.now) - (if Passes(b, r, t) then 1.0 else 0.0)
  {
    RefillAdds(r, 0.0, 0.0);
    if b.Some? { RefillAdds(r, t.now - b.value.at, 0.0); }
  }

  lemma {:induction false} BeforeOk(b: Option<Bucket>, r: Rate, turns: seq<Turn>, k: nat)
    requires RateOk(r) && Clocked(turns) && k < |turns| && BucketOk(b, r, turns[0].now)
    ensures BucketOk(Before(b, r, turns, k), r, turns[k].now)
  {
    if k > 0 {
      BeforeOk(b, r, turns, k - 1);
      NextLevel(Before(b, r, turns, k - 1), r, turns[k - 1]);
      assert turns[k - 1].now <= turns[k].now;
    }
  }

  /** One turn: what it took and what is left are what there was and what the time to the next refills, at most. */
  lemma {:induction false} TurnSpends(b: Option<Bucket>, r: Rate, turns: seq<Turn>, k: nat)
    requires RateOk(r) && Clocked(turns) && k + 1 < |turns| && BucketOk(b, r, turns[0].now)
    ensures
      var past, now := turns[k].now, turns[k + 1].now;
      var kept := Level(Before(b, r, turns, k), r, past) - (if PassesAt(b, r, turns, k) then 1.0 else 0.0);
      var level := Level(Before(b, r, turns, k + 1), r, now);
      && 0.0 <= level <= kept + Refill(r, now - past)
      && (level == r.burst || level == kept + Refill(r, now - past))
  {
    BeforeOk(b, r, turns, k);
    var was := Before(b, r, turns, k);
    NextLevel(was, r, turns[k]);
    assert turns[k].now <= turns[k + 1].now;
    LevelRises(Next(was, r, turns[k]), r, turns[k].now, turns[k + 1].now);
  }

  /** What passed since turn i and what the bucket holds now never exceed a full bucket and the refill since. */
  lemma {:induction false} Spent(b: Option<Bucket>, r: Rate, turns: seq<Turn>, i: nat, j: nat)
    requires RateOk(r) && Clocked(turns) && i <= j < |turns| && BucketOk(b, r, turns[0].now)
    ensures Passed(b, r, turns, i, j) as real + Level(Before(b, r, turns, j), r, turns[j].now)
         <= r.burst + Refill(r, turns[j].now - turns[i].now)
    decreases j
  {
    if i == j {
      RefillAdds(r, 0.0, 0.0);
    } else {
      Spent(b, r, turns, i, j - 1);
      TurnSpends(b, r, turns, j - 1);
      var past, now, start := turns[j - 1].now, turns[j].now, turns[i].now;
      RefillAdds(r, now - past, past - start);
      assert now - start == (now - past) + (past - start);
    }
  }

  /** Whatever asks and whenever: no window lets through more than a burst and what its length refills. */
  lemma {:induction false} WindowBounded(b: Option<Bucket>, r: Rate, turns: seq<Turn>, i: nat, j: nat, window: real)
    requires RateOk(r) && Clocked(turns) && i < j <= |turns| && BucketOk(b, r, turns[0].now)
    requires turns[j - 1].now - turns[i].now <= window
    ensures Passed(b, r, turns, i, j) as real <= r.burst + Refill(r, window)
  {
    var k := j - 1;
    var spread := turns[k].now - turns[i].now;
    Spent(b, r, turns, i, k);
    BeforeOk(b, r, turns, k);
    NextLevel(Before(b, r, turns, k), r, turns[k]);
    RefillAdds(r, window - spread, spread);
    assert window == (window - spread) + spread;
    assert turns[i].now <= turns[k].now;
    LevelRises(Before(b, r, turns, k), r, turns[k].now, turns[k].now);
  }

  /** A bucket holds exactly what is left since it was last full. */
  lemma {:induction false} LastFull(r: Rate, turns: seq<Turn>, k: nat) returns (i: nat)
    requires RateOk(r) && Clocked(turns) && k < |turns|
    ensures i <= k
    ensures Level(Before(None, r, turns, k), r, turns[k].now)
         == r.burst - Passed(None, r, turns, i, k) as real + Refill(r, turns[k].now - turns[i].now)
  {
    RefillAdds(r, 0.0, 0.0);
    if k == 0 || Level(Before(None, r, turns, k), r, turns[k].now) == r.burst {
      i := k;
    } else {
      i := LastFull(r, turns, k - 1);
      TurnSpends(None, r, turns, k - 1);
      var past, now, start := turns[k - 1].now, turns[k].now, turns[i].now;
      RefillAdds(r, now - past, past - start);
      assert now - start == (now - past) + (past - start);
    }
  }

  /** Room for one more in the window from turn i to turn k. */
  predicate Fits(r: Rate, turns: seq<Turn>, i: nat, k: nat)
    requires i <= k < |turns|
  {
    Passed(None, r, turns, i, k) as real + 1.0 <= r.burst + Refill(r, turns[k].now - turns[i].now)
  }

  /** The bucket refuses exactly when some window ending now would overflow. */
  lemma {:induction false} PassesExactly(r: Rate, turns: seq<Turn>, k: nat)
    requires RateOk(r) && Clocked(turns) && k < |turns| && turns[k].asked
    ensures PassesAt(None, r, turns, k) <==> forall i :: 0 <= i <= k ==> Fits(r, turns, i, k)
  {
    BeforeOk(None, r, turns, k);
    NextLevel(Before(None, r, turns, k), r, turns[k]);
    if PassesAt(None, r, turns, k) {
      forall i | 0 <= i <= k ensures Fits(r, turns, i, k) { Spent(None, r, turns, i, k); }
    }
    if forall i :: 0 <= i <= k ==> Fits(r, turns, i, k) {
      var i := LastFull(r, turns, k);
      assert Fits(r, turns, i, k);
    }
  }

  /** How many of the turns i..j asked for a token. */
  function Asked(turns: seq<Turn>, i: nat, j: nat): nat
    requires i <= j <= |turns|
  {
    if i == j then 0 else Asked(turns, i, j - 1) + (if turns[j - 1].asked then 1 else 0)
  }

  /** The window from turn i to turn k asks for no more than a burst and its refill. */
  predicate Inside(r: Rate, turns: seq<Turn>, i: nat, k: nat)
    requires i <= k < |turns|
  {
    Asked(turns, i, k + 1) as real <= r.burst + Refill(r, turns[k].now - turns[i].now)
  }

  predicate NoneRefused(r: Rate, turns: seq<Turn>, n: nat)
    requires n <= |turns|
  {
    forall k {:trigger PassesAt(None, r, turns, k)} :: 0 <= k < n && turns[k].asked ==> PassesAt(None, r, turns, k)
  }

  lemma {:induction false} AskedIsPassed(r: Rate, turns: seq<Turn>, i: nat, j: nat)
    requires i <= j <= |turns| && NoneRefused(r, turns, j)
    ensures Passed(None, r, turns, i, j) == Asked(turns, i, j)
    decreases j
  {
    if i < j {
      AskedIsPassed(r, turns, i, j - 1);
      assert turns[j - 1].asked ==> PassesAt(None, r, turns, j - 1);
    }
  }

  lemma {:induction false} InsidePasses(r: Rate, turns: seq<Turn>, n: nat)
    requires RateOk(r) && Clocked(turns) && n <= |turns|
    requires forall i, k :: 0 <= i <= k < |turns| ==> Inside(r, turns, i, k)
    ensures NoneRefused(r, turns, n)
  {
    if n > 0 {
      InsidePasses(r, turns, n - 1);
      var k := n - 1;
      if turns[k].asked {
        forall i | 0 <= i <= k ensures Fits(r, turns, i, k) {
          assert Inside(r, turns, i, k);
          AskedIsPassed(r, turns, i, k);
        }
        PassesExactly(r, turns, k);
      }
    }
  }

  /** A sender is never refused exactly when all its windows stay inside the envelope. */
  lemma {:induction false} NeverRefused(r: Rate, turns: seq<Turn>)
    requires RateOk(r) && Clocked(turns)
    ensures NoneRefused(r, turns, |turns|) <==> forall i, k :: 0 <= i <= k < |turns| ==> Inside(r, turns, i, k)
  {
    if NoneRefused(r, turns, |turns|) {
      forall i, k | 0 <= i <= k < |turns| ensures Inside(r, turns, i, k) {
        assert NoneRefused(r, turns, k + 1);
        AskedIsPassed(r, turns, i, k + 1);
        WindowBounded(None, r, turns, i, k + 1, turns[k].now - turns[i].now);
      }
    }
    if forall i, k :: 0 <= i <= k < |turns| ==> Inside(r, turns, i, k) {
      InsidePasses(r, turns, |turns|);
    }
  }
}
