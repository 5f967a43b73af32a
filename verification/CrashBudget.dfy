/** How many automatic restarts a crashing instance gets (agent/internal/instances/crash.go). */
module CrashBudget {
  // Times are milliseconds on a clock that never goes back.

  const BUDGET := 3
  const WINDOW := 600_000

  /** The crashes in history less than WINDOW before now, in order. */
  function Recent(history: seq<int>, now: int): seq<int> {
    if history == [] then []
    else (if now - history[0] < WINDOW then [history[0]] else []) + Recent(history[1..], now)
  }

  /** Records a crash at now in the pruned history and says whether a restart is within budget. */
  method CrashRestartAllowed(history: seq<int>, now: int)
    returns (ok: bool, attempt: nat, kept: seq<int>)
    ensures kept == Recent(history, now) + [now]
    ensures attempt == |kept|
    ensures ok <==> |Recent(history, now)| < BUDGET
  {
    kept := [];
    for i := 0 to |history|
      invariant kept + Recent(history[i..], now) == Recent(history, now)
    {
      assert history[i..][1..] == history[i + 1..];
      var rest := Recent(history[i + 1..], now);
      if now - history[i] < WINDOW {
        assert kept + ([history[i]] + rest) == (kept + [history[i]]) + rest;
        kept := kept + [history[i]];
      } else {
        assert [] + rest == rest;
      }
    }
    assert history[|history|..] == [];
    kept := kept + [now];
    attempt := |kept|;
    ok := attempt <= BUDGET;
  }

  ghost predicate Monotone(times: seq<int>) {
    forall i, j :: 0 <= i < j < |times| ==> times[i] <= times[j]
  }

  /** The history held after the given crashes, starting from a cleared one. */
  function Kept(times: seq<int>): seq<int> {
    if times == [] then []
    else
      var last := times[|times| - 1];
      Recent(Kept(times[..|times| - 1]), last) + [last]
  }

  /** Whether the last of these crashes was granted a restart. */
  predicate LastGranted(times: seq<int>) {
    times != [] && |Recent(Kept(times[..|times| - 1]), times[|times| - 1])| < BUDGET
  }

  /** How many of these crashes, in [from, from + WINDOW), were granted a restart. */
  function GrantedIn(times: seq<int>, from: int): nat {
    if times == [] then 0
    else
      GrantedIn(times[..|times| - 1], from)
      + if from <= times[|times| - 1] < from + WINDOW && LastGranted(times) then 1 else 0
  }

  lemma {:induction false} RecentAppend(a: seq<int>, t: int, now: int)
    ensures Recent(a + [t], now) == Recent(a, now) + if now - t < WINDOW then [t] else []
  {
    if a == [] {
      assert [] + [t] == [t];
    } else {
      assert (a + [t])[1..] == a[1..] + [t];
      RecentAppend(a[1..], t, now);
    }
  }

  /** Pruning early and pruning again later is pruning once. */
  lemma {:induction false} RecentTwice(a: seq<int>, now: int, later: int)
    requires now <= later
    ensures Recent(Recent(a, now), later) == Recent(a, later)
  {
    if a != [] {
      RecentTwice(a[1..], now, later);
      var rest := Recent(a[1..], now);
      if now - a[0] < WINDOW {
        assert ([a[0]] + rest)[1..] == rest;
      } else {
        assert [] + rest == rest;
      }
    }
  }

  /** The pruned history is exactly the crashes of the last WINDOW before the latest one. */
  lemma {:induction false} KeptIsRecent(times: seq<int>)
    requires Monotone(times) && times != []
    ensures Kept(times) == Recent(times, times[|times| - 1])
  {
    var n := |times| - 1;
    var init, last := times[..n], times[n];
    assert times == init + [last];
    RecentAppend(init, last, last);
    if init != [] {
      KeptIsRecent(init);
      RecentTwice(init, init[n - 1], last);
    }
  }

  /** How many crashes happened at or after from. */
  function Since(times: seq<int>, from: int): nat {
    if times == [] then 0
    else Since(times[..|times| - 1], from) + if from <= times[|times| - 1] then 1 else 0
  }

  lemma {:induction false} SinceIsRecent(times: seq<int>, from: int, now: int)
    requires now < from + WINDOW
    ensures Since(times, from) <= |Recent(times, now)|
  {
    if times != [] {
      var n := |times| - 1;
      SinceIsRecent(times[..n], from, now);
      assert times == times[..n] + [times[n]];
      RecentAppend(times[..n], times[n], now);
    }
  }

  lemma {:induction false} RecentSince(times: seq<int>, now: int)
    ensures |Recent(times, now)| == Since(times, now - WINDOW + 1)
  {
    if times != [] {
      var n := |times| - 1;
      RecentSince(times[..n], now);
      assert times == times[..n] + [times[n]];
      RecentAppend(times[..n], times[n], now);
    }
  }

  lemma {:induction false} AllRecent(history: seq<int>, now: int)
    requires forall i :: 0 <= i < |history| ==> now - history[i] < WINDOW
    ensures Recent(history, now) == history
  {
    if history != [] {
      AllRecent(history[1..], now);
      assert history == [history[0]] + history[1..];
    }
  }

  lemma {:induction false} RecentIsSuffix(history: seq<int>, now: int) returns (k: nat)
    requires Monotone(history)
    ensures k <= |history| && Recent(history, now) == history[k..]
    ensures forall i :: 0 <= i < |history| ==> (now - history[i] < WINDOW <==> k <= i)
  {
    k := 0;
    if history != [] {
      if now - history[0] < WINDOW {
        AllRecent(history, now);
      } else {
        var rest := history[1..];
        assert forall i :: 0 < i < |history| ==> history[i] == rest[i - 1];
        k := RecentIsSuffix(rest, now);
        k := k + 1;
        assert [] + Recent(rest, now) == Recent(rest, now);
      }
    }
  }

  /** With monotone time the history held is the crashes less than WINDOW before the latest one: all of
      them, and none before. */
  lemma KeptAreLast(times: seq<int>) returns (k: nat)
    requires Monotone(times) && times != []
    ensures k <= |times| && Kept(times) == times[k..]
    ensures forall i :: 0 <= i < |times| ==> (times[|times| - 1] - times[i] < WINDOW <==> k <= i)
  {
    KeptIsRecent(times);
    k := RecentIsSuffix(times, times[|times| - 1]);
  }

  /** With monotone time a crash is granted a restart exactly when fewer than BUDGET of the crashes before
      it were less than WINDOW earlier. */
  lemma {:induction false} GrantedIff(times: seq<int>)
    requires Monotone(times) && times != []
    ensures LastGranted(times) <==> Since(times[..|times| - 1], times[|times| - 1] - WINDOW + 1) < BUDGET
  {
    var n := |times| - 1;
    var init := times[..n];
    RecentSince(init, times[n]);
    if init != [] {
      KeptIsRecent(init);
      RecentTwice(init, init[n - 1], times[n]);
    }
  }

  lemma {:induction false} GrantedAtMostSince(times: seq<int>, from: int)
    ensures GrantedIn(times, from) <= Since(times, from)
  {
    if times != [] {
      GrantedAtMostSince(times[..|times| - 1], from);
    }
  }

  /** However crashes fall, no span of WINDOW holds more than BUDGET restarts. */
  lemma {:induction false} AtMostBudgetPerWindow(times: seq<int>, from: int)
    requires Monotone(times)
    ensures GrantedIn(times, from) <= BUDGET
  {
    if times != [] {
      var n := |times| - 1;
      AtMostBudgetPerWindow(times[..n], from);
      if from <= times[n] < from + WINDOW && LastGranted(times) {
        KeptIsRecent(times);
        SinceIsRecent(times, from, times[n]);
        GrantedAtMostSince(times, from);
      }
    }
  }
}
