/** The sliding-window restart limiter. */
module Tracker {
  import opened Basics

  /** The times not older than `within`, in order. */
  function Recent(times: seq<Instant>, now: Instant, within: nat): seq<Instant> {
    if times == [] then []
    else
      var n := |times| - 1;
      Recent(times[..n], now, within) + (if Elapsed(now, times[n]) <= within then [times[n]] else [])
  }

  /** One call: forget what is too old, then grant if there is room. */
  function Record(times: seq<Instant>, now: Instant, max: nat, within: nat): (seq<Instant>, bool) {
    var recent := Recent(times, now, within);
    if |recent| < max then (recent + [now], true) else (recent, false)
  }

  class RestartTracker {
    var restartTimes: seq<Instant>
    const maxRestarts: nat
    const within: nat

    constructor (maxRestarts: nat, within: nat)
      ensures restartTimes == [] && this.maxRestarts == maxRestarts && this.within == within
    {
      restartTimes := [];
      this.maxRestarts := maxRestarts;
      this.within := within;
    }

    method RecordRestart(now: Instant) returns (allowed: bool)
      modifies this
      ensures (restartTimes, allowed) == Record(old(restartTimes), now, maxRestarts, within)
    {
      var kept: seq<Instant> := [];
      for i := 0 to |restartTimes|
        invariant kept == Recent(restartTimes[..i], now, within)
        invariant restartTimes == old(restartTimes)
      {
        assert restartTimes[..i + 1][..i] == restartTimes[..i];
        if Elapsed(now, restartTimes[i]) <= within {
          kept := kept + [restartTimes[i]];
        }
      }
      assert restartTimes[..|restartTimes|] == restartTimes;
      restartTimes := kept;
      if |restartTimes| < maxRestarts {
        restartTimes := restartTimes + [now];
        allowed := true;
      } else {
        allowed := false;
      }
    }
  }

  // ---------- A whole history of calls ----------

  predicate Ordered(calls: seq<Instant>) {
    forall i, j :: 0 <= i < j < |calls| ==> calls[i] <= calls[j]
  }

  /** The pruned list after these calls. */
  function Tracked(calls: seq<Instant>, max: nat, within: nat): seq<Instant> {
    if calls == [] then []
    else Record(Tracked(calls[..|calls| - 1], max, within), calls[|calls| - 1], max, within).0
  }

  /** What the tracker answers to the last of these calls. */
  function Answer(calls: seq<Instant>, max: nat, within: nat): bool
    requires calls != []
  {
    Record(Tracked(calls[..|calls| - 1], max, within), calls[|calls| - 1], max, within).1
  }

  /** Every grant ever made: a call is granted when fewer than `max` earlier grants lie within the window. */
  function Grants(calls: seq<Instant>, max: nat, within: nat): seq<Instant> {
    if calls == [] then []
    else
      var earlier := Grants(calls[..|calls| - 1], max, within);
      var now := calls[|calls| - 1];
      if CountIn(earlier, now - within, now) < max then earlier + [now] else earlier
  }

  function CountIn(times: seq<Instant>, lo: int, hi: int): nat {
    if times == [] then 0
    else
      var n := |times| - 1;
      CountIn(times[..n], lo, hi) + (if lo <= times[n] <= hi then 1 else 0)
  }

  lemma {:induction false} GrantsBounded(calls: seq<Instant>, max: nat, within: nat, hi: Instant)
    requires forall i :: 0 <= i < |calls| ==> calls[i] <= hi
    ensures forall i :: 0 <= i < |Grants(calls, max, within)| ==> Grants(calls, max, within)[i] <= hi
  {
    if calls != [] {
      GrantsBounded(calls[..|calls| - 1], max, within, hi);
    }
  }

  /** For times not after `now`, being recent is lying in the window that ends now. */
  lemma {:induction false} RecentCounts(times: seq<Instant>, now: Instant, within: nat)
    requires forall i :: 0 <= i < |times| ==> times[i] <= now
    ensures |Recent(times, now, within)| == CountIn(times, now - within, now)
  {
    if times != [] {
      RecentCounts(times[..|times| - 1], now, within);
    }
  }

  lemma RecentAppend(times: seq<Instant>, x: Instant, now: Instant, within: nat)
    ensures Recent(times + [x], now, within) ==
              Recent(times, now, within) + (if Elapsed(now, x) <= within then [x] else [])
  {
    assert (times + [x])[..|times|] == times;
  }

  /** Pruning earlier loses nothing a later call would still look at. */
  lemma {:induction false} RecentTwice(times: seq<Instant>, now: Instant, later: Instant, within: nat)
    requires now <= later
    requires forall i :: 0 <= i < |times| ==> times[i] <= now
    ensures Recent(Recent(times, now, within), later, within) == Recent(times, later, within)
  {
    if times != [] {
      var n := |times| - 1;
      var front := times[..n];
      RecentTwice(front, now, later, within);
      if Elapsed(now, times[n]) <= within {
        RecentAppend(Recent(front, now, within), times[n], later, within);
      } else {
        assert Recent(times, now, within) == Recent(front, now, within);
      }
    }
  }

  /** The pruned list is the recent part of the full history of grants. */
  lemma {:induction false} TrackedIsRecent(calls: seq<Instant>, max: nat, within: nat)
    requires Ordered(calls) && calls != []
    ensures Tracked(calls, max, within) == Recent(Grants(calls, max, within), calls[|calls| - 1], within)
    ensures Answer(calls, max, within) <==>
              CountIn(Grants(calls[..|calls| - 1], max, within), calls[|calls| - 1] - within, calls[|calls| - 1]) < max
    decreases |calls|, 1
  {
    var n := |calls| - 1;
    PrunedSame(calls, max, within);
    GrantsBounded(calls[..n], max, within, calls[n]);
    LastCall(calls, max, within);
    RecordStep(Tracked(calls[..n], max, within), Grants(calls[..n], max, within), calls[n], max, within,
               Tracked(calls, max, within), Grants(calls, max, within), Answer(calls, max, within));
  }

  lemma LastCall(calls: seq<Instant>, max: nat, within: nat)
    requires calls != []
    ensures var n := |calls| - 1;
            var now, pruned, full := calls[n], Tracked(calls[..n], max, within), Grants(calls[..n], max, within);
            && Record(pruned, now, max, within) == (Tracked(calls, max, within), Answer(calls, max, within))
            && Grants(calls, max, within) == if CountIn(full, now - within, now) < max then full + [now] else full
  {
  }

  lemma RecordStep(pruned: seq<Instant>, full: seq<Instant>, now: Instant, max: nat, within: nat,
                   pruned': seq<Instant>, full': seq<Instant>, allowed: bool)
    requires Recent(pruned, now, within) == Recent(full, now, within)
    requires forall i :: 0 <= i < |full| ==> full[i] <= now
    requires Record(pruned, now, max, within) == (pruned', allowed)
    requires full' == if CountIn(full, now - within, now) < max then full + [now] else full
    ensures allowed == (CountIn(full, now - within, now) < max)
    ensures pruned' == Recent(full', now, within)
  {
    RecentCounts(full, now, within);
    RecentAppend(full, now, now, within);
  }

  /** The list pruned at the last call and the full history look the same to this one. */
  lemma {:induction false} PrunedSame(calls: seq<Instant>, max: nat, within: nat)
    requires Ordered(calls) && calls != []
    ensures var n := |calls| - 1;
            Recent(Tracked(calls[..n], max, within), calls[n], within) ==
            Recent(Grants(calls[..n], max, within), calls[n], within)
    decreases |calls|, 0
  {
    var n := |calls| - 1;
    if n > 0 {
      var front := calls[..n];
      assert front[n - 1] == calls[n - 1];
      TrackedIsRecent(front, max, within);
      GrantsBounded(front, max, within, calls[n - 1]);
      RecentTwice(Grants(front, max, within), calls[n - 1], calls[n], within);
    }
  }

  /** No window of length `within`, anywhere in time, holds more than `max` grants. */
  lemma {:induction false} WindowBound(calls: seq<Instant>, max: nat, within: nat, lo: int)
    requires Ordered(calls)
    ensures CountIn(Grants(calls, max, within), lo, lo + within) <= max
  {
    if calls != [] {
      var n := |calls| - 1;
      var earlier, now := Grants(calls[..n], max, within), calls[n];
      WindowBound(calls[..n], max, within, lo);
      GrantsBounded(calls[..n], max, within, now);
      if Grants(calls, max, within) != earlier && lo <= now <= lo + within {
        CountWider(earlier, lo, lo + within, now - within, now);
      }
      assert (earlier + [now])[..|earlier|] == earlier;
    }
  }

  lemma {:induction false} CountWider(times: seq<Instant>, lo: int, hi: int, lo': int, hi': int)
    requires lo' <= lo && forall i :: 0 <= i < |times| ==> times[i] <= hi'
    ensures CountIn(times, lo, hi) <= CountIn(times, lo', hi')
  {
    if times != [] {
      CountWider(times[..|times| - 1], lo, hi, lo', hi');
    }
  }

  /** A call is refused exactly when the window ending now already holds the full number of grants. */
  lemma RefusedExactlyWhenFull(calls: seq<Instant>, max: nat, within: nat)
    requires Ordered(calls) && calls != []
    ensures var now := calls[|calls| - 1];
            !Answer(calls, max, within) <==>
            CountIn(Grants(calls[..|calls| - 1], max, within), now - within, now) == max
  {
    var n := |calls| - 1;
    TrackedIsRecent(calls, max, within);
    WindowBound(calls[..n], max, within, calls[n] - within);
  }
}
