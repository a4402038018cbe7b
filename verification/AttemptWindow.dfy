/** The sliding window of recovery requests and the limit it puts on executed recoveries. */
module AttemptWindow {
  import opened Focus

  /** A recovery request that got as far as being counted, and whether it was then executed. */
  datatype Request = Request(time: nat, executed: bool)

  /** Stamps not older than the window, in order. */
  function Recent(stamps: seq<nat>, now: nat, windowMs: nat): seq<nat> {
    if stamps == [] then []
    else Recent(stamps[..|stamps| - 1], now, windowMs)
         + if now - stamps[|stamps| - 1] > windowMs then [] else [stamps[|stamps| - 1]]
  }

  function Times(log: seq<Request>): seq<nat> {
    if log == [] then [] else Times(log[..|log| - 1]) + [log[|log| - 1].time]
  }

  predicate Chronological(log: seq<Request>) {
    forall i, j :: 0 <= i < j < |log| ==> log[i].time <= log[j].time
  }

  /** Every executed request found fewer than the allowed number of requests in the window before it. */
  predicate WithinBudget(log: seq<Request>, maxAttempts: nat, windowMs: nat) {
    forall i {:trigger log[i].executed} :: 0 <= i < |log| && log[i].executed ==>
      |Recent(Times(log[..i]), log[i].time, windowMs)| < maxAttempts
  }

  /** How many recoveries requested from a to b were executed. */
  function ExecutedBetween(log: seq<Request>, a: nat, b: nat): nat {
    if log == [] then 0
    else
      var last := log[|log| - 1];
      ExecutedBetween(log[..|log| - 1], a, b) + if last.executed && a <= last.time <= b then 1 else 0
  }

  /** The recent stamps are exactly those within the window, with their multiplicities. */
  lemma {:induction false} RecentCounts(stamps: seq<nat>, now: nat, windowMs: nat, t: nat)
    ensures multiset(Recent(stamps, now, windowMs))[t] == if now - t > windowMs then 0 else multiset(stamps)[t]
  {
    if stamps != [] {
      var init, last := stamps[..|stamps| - 1], stamps[|stamps| - 1];
      RecentCounts(init, now, windowMs, t);
      assert stamps == init + [last];
    }
  }

  /** Purging twice is purging once, later. */
  lemma {:induction false} RecentOfRecent(stamps: seq<nat>, earlier: nat, now: nat, windowMs: nat)
    requires earlier <= now
    ensures Recent(Recent(stamps, earlier, windowMs), now, windowMs) == Recent(stamps, now, windowMs)
  {
    if stamps != [] {
      var init, last := stamps[..|stamps| - 1], stamps[|stamps| - 1];
      RecentOfRecent(init, earlier, now, windowMs);
      var kept := Recent(init, earlier, windowMs);
      assert (kept + [last])[..|kept|] == kept && kept + [] == kept;
    }
  }

  lemma {:induction false} RecentOfAppend(a: seq<nat>, b: seq<nat>, now: nat, windowMs: nat)
    ensures Recent(a + b, now, windowMs) == Recent(a, now, windowMs) + Recent(b, now, windowMs)
  {
    if b == [] {
      assert a + b == a;
    } else {
      var init := b[..|b| - 1];
      RecentOfAppend(a, init, now, windowMs);
      assert (a + b)[..|a + b| - 1] == a + init;
    }
  }

  /** Executed requests of the last window are among its stamps. */
  lemma {:induction false} ExecutedAreRecent(log: seq<Request>, a: nat, b: nat, now: nat, windowMs: nat)
    requires now <= a + windowMs
    ensures ExecutedBetween(log, a, b) <= |Recent(Times(log), now, windowMs)|
  {
    if log != [] {
      var init, last := log[..|log| - 1], log[|log| - 1];
      ExecutedAreRecent(init, a, b, now, windowMs);
      assert Times(log)[..|Times(log)| - 1] == Times(init);
    }
  }

  /** No interval as long as the window, or shorter, holds more executed recoveries than allowed. */
  lemma {:induction false} RateLimit(log: seq<Request>, maxAttempts: nat, windowMs: nat, a: nat, b: nat)
    requires Chronological(log) && WithinBudget(log, maxAttempts, windowMs) && b <= a + windowMs
    ensures ExecutedBetween(log, a, b) <= maxAttempts
  {
    if log != [] {
      var init, last := log[..|log| - 1], log[|log| - 1];
      if last.executed && a <= last.time <= b {
        ExecutedAreRecent(init, a, b, last.time, windowMs);
        assert log[|log| - 1].executed;
      } else {
        assert forall i :: 0 <= i < |init| ==> init[..i] == log[..i];
        RateLimit(init, maxAttempts, windowMs, a, b);
      }
    }
  }

  /** The stamps are the recent ones of all requests, and the budget was kept. */
  ghost predicate KeepsWindow(log: seq<Request>, stamps: seq<nat>, now: nat, maxAttempts: nat, windowMs: nat) {
    forall n: nat {:trigger Round(n)} :: n == |log| ==> Kept(log, stamps, now, maxAttempts, windowMs)
  }

  predicate Kept(log: seq<Request>, stamps: seq<nat>, now: nat, maxAttempts: nat, windowMs: nat) {
    && stamps == Recent(Times(log), now, windowMs)
    && Chronological(log) && WithinBudget(log, maxAttempts, windowMs)
    && forall i :: 0 <= i < |log| ==> log[i].time <= now
  }

  lemma NothingCounted(now: nat, maxAttempts: nat, windowMs: nat)
    ensures KeepsWindow([], [], now, maxAttempts, windowMs)
  {
    assert Round(0);
  }

  /** In a kept window the stamps are as many as the requests of that window. */
  lemma WindowSize(log: seq<Request>, stamps: seq<nat>, now: nat, maxAttempts: nat, windowMs: nat)
    requires KeepsWindow(log, stamps, now, maxAttempts, windowMs)
    ensures |stamps| == Earlier(log, now, windowMs)
  {
    assert Round(|log|);
  }

  /** One more request. */
  lemma BudgetKept(log: seq<Request>, stamps: seq<nat>, r: Request, maxAttempts: nat, windowMs: nat)
    requires KeepsWindow(log, stamps, r.time, maxAttempts, windowMs)
    requires r.executed ==> |stamps| < maxAttempts
    ensures KeepsWindow(log + [r], stamps + [r.time], r.time, maxAttempts, windowMs)
  {
    var after := log + [r];
    assert Round(|log|) && Round(|after|);
    assert Times(after) == Times(log) + [r.time] by {
      assert after[..|log|] == log;
    }
    RecentOfAppend(Times(log), [r.time], r.time, windowMs);
    forall i | 0 <= i < |after| && after[i].executed
      ensures |Recent(Times(after[..i]), after[i].time, windowMs)| < maxAttempts
    {
      assert i < |log| ==> after[..i] == log[..i] && log[i].executed;
      assert i == |log| ==> after[..i] == log;
    }
  }

  /** How many earlier requests, refused ones included, lie in the window before now. */
  function Earlier(log: seq<Request>, now: nat, windowMs: nat): nat {
    |Recent(Times(log), now, windowMs)|
  }

  /** One request was counted, and is executed exactly when it is permitted and within the budget. */
  predicate Counts(before: seq<Request>, after: seq<Request>, now: nat, permitted: bool, maxAttempts: nat,
      windowMs: nat)
  {
    after == before + [Request(now, permitted && Earlier(before, now, windowMs) < maxAttempts)]
  }

  lemma RecentStep(stamps: seq<nat>, k: nat, now: nat, windowMs: nat)
    requires k < |stamps|
    ensures Recent(stamps[..k + 1], now, windowMs)
            == Recent(stamps[..k], now, windowMs) + if now - stamps[k] > windowMs then [] else [stamps[k]]
  {
    assert stamps[..k + 1][..k] == stamps[..k];
  }

  /** The erase loop: walks the stamps once and takes out the expired ones where they stand. */
  method Purge(stamps: seq<nat>, now: nat, windowMs: nat) returns (left: seq<nat>)
    ensures left == Recent(stamps, now, windowMs)
  {
    left := stamps;
    var it := 0;
    ghost var done := 0;
    while it < |left|
      invariant it <= |left| && done + |left| - it == |stamps| && done >= 0
      invariant left[..it] == Recent(stamps[..done], now, windowMs) && left[it..] == stamps[done..]
      decreases |left| - it
    {
      RecentStep(stamps, done, now, windowMs);
      ghost var next := left[it + 1..];
      assert left[it] == left[it..][0] == stamps[done] && next == left[it..][1..] == stamps[done + 1..];
      if now - left[it] > windowMs {
        left := left[..it] + left[it + 1..];
      } else {
        it := it + 1;
        assert left[..it] == left[..it - 1] + [left[it - 1]];
      }
      done := done + 1;
    }
    assert stamps[..done] == stamps && left[..it] == left;
  }

  /** Moves the window on to a later moment. */
  method Advance(ghost log: seq<Request>, stamps: seq<nat>, ghost earlier: nat, now: nat,
      ghost maxAttempts: nat, windowMs: nat) returns (left: seq<nat>)
    requires KeepsWindow(log, stamps, earlier, maxAttempts, windowMs) && earlier <= now
    ensures KeepsWindow(log, left, now, maxAttempts, windowMs)
  {
    assert Round(|log|);
    RecentOfRecent(Times(log), earlier, now, windowMs);
    left := Purge(stamps, now, windowMs);
  }
}
