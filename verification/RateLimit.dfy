/** The in-memory fixed-window rate limiter of server/src/lib/rate-limit.ts. */
module RateLimit {
  // Clock readings are parameters: a check reads the clock once for the sweep and once for itself.

  datatype Entry = Entry(count: nat, resetAt: int)

  datatype Config = Config(windowMs: int, max: int)

  datatype Limiter = Limiter(hits: map<string, Entry>, lastSweep: int)

  datatype Op =
    | Check(key: string, sweepNow: int, now: int)
    | Reset(key: string)
    | RetryAfter(key: string, now: int)

  datatype Answer = Answer(ok: bool, retryAfterSeconds: int)

  // ---- what each operation does ----

  function Swept(l: Limiter, c: Config, now: int): Limiter {
    if now - l.lastSweep < c.windowMs then l
    else Limiter(map k | k in l.hits && now < l.hits[k].resetAt :: l.hits[k], now)
  }

  predicate Live(l: Limiter, key: string, now: int) {
    key in l.hits && now < l.hits[key].resetAt
  }

  function Counted(l: Limiter, c: Config, key: string, now: int): Limiter {
    var entry :=
      if Live(l, key, now) then Entry(l.hits[key].count + 1, l.hits[key].resetAt)
      else Entry(1, now + c.windowMs);
    l.(hits := l.hits[key := entry])
  }

  function CeilSeconds(ms: int): int { (ms + 999) / 1000 }

  function Answered(l: Limiter, c: Config, op: Op): Answer {
    match op
    case Check(key, _, now) =>
      if Live(l, key, now) && l.hits[key].count + 1 > c.max
      then Answer(false, CeilSeconds(l.hits[key].resetAt - now))
      else Answer(true, 0)
    case Reset(_) => Answer(true, 0)
    case RetryAfter(key, now) =>
      if Live(l, key, now) && l.hits[key].count >= c.max
      then Answer(false, CeilSeconds(l.hits[key].resetAt - now))
      else Answer(true, 0)
  }

  function Do(l: Limiter, c: Config, op: Op, sweeps: bool): Limiter {
    match op
    case Check(key, sweepNow, now) =>
      Counted(if sweeps then Swept(l, c, sweepNow) else l, c, key, now)
    case Reset(key) => l.(hits := l.hits - {key})
    case RetryAfter(_, _) => l
  }

  // ---- the limiter itself ----

  class RateLimiter {
    const config: Config
    var hits: map<string, Entry>
    var lastSweep: int

    function View(): Limiter
      reads this
    {
      Limiter(hits, lastSweep)
    }

    constructor (windowMs: int, max: int, now: int)
      ensures config == Config(windowMs, max)
      ensures View() == Limiter(map[], now)
    {
      config := Config(windowMs, max);
      hits, lastSweep := map[], now;
    }

    method Sweep(now: int)
      modifies this
      ensures View() == Swept(old(View()), config, now)
    {
      if now - lastSweep < config.windowMs {
        return;
      }
      lastSweep := now;
      var left := hits.Keys;
      while left != {}
        invariant lastSweep == now
        invariant left <= old(hits).Keys
        invariant hits == map k | k in old(hits) && (k in left || now < old(hits)[k].resetAt) :: old(hits)[k]
        decreases left
      {
        var k :| k in left;
        if hits[k].resetAt <= now {
          hits := hits - {k};
        }
        left := left - {k};
      }
    }

    method Check(key: string, sweepNow: int, now: int) returns (answer: Answer)
      modifies this
      ensures View() == Do(old(View()), config, Op.Check(key, sweepNow, now), true)
      ensures answer == Answered(Swept(old(View()), config, sweepNow), config, Op.Check(key, sweepNow, now))
    {
      Sweep(sweepNow);
      if key !in hits || hits[key].resetAt <= now {
        hits := hits[key := Entry(1, now + config.windowMs)];
        return Answer(true, 0);
      }
      var entry := Entry(hits[key].count + 1, hits[key].resetAt);
      hits := hits[key := entry];
      if entry.count > config.max {
        return Answer(false, CeilSeconds(entry.resetAt - now));
      }
      return Answer(true, 0);
    }

    method Reset(key: string)
      modifies this
      ensures View() == Do(old(View()), config, Op.Reset(key), true)
    {
      hits := hits - {key};
    }

    method RetryAfter(key: string, now: int) returns (seconds: int)
      ensures seconds == Answered(View(), config, Op.RetryAfter(key, now)).retryAfterSeconds
    {
      if key !in hits || hits[key].resetAt <= now || hits[key].count < config.max {
        return 0;
      }
      return CeilSeconds(hits[key].resetAt - now);
    }
  }

  // ---- sweeping never changes an answer ----

  /** The clock readings of a sequence of operations, from start on, never go back. */
  predicate Timed(ops: seq<Op>, start: int) {
    ops == [] ||
    match ops[0]
    case Check(_, sweepNow, now) => start <= sweepNow <= now && Timed(ops[1..], now)
    case Reset(_) => Timed(ops[1..], start)
    case RetryAfter(_, now) => start <= now && Timed(ops[1..], now)
  }

  function Seen(l: Limiter, c: Config, op: Op, sweeps: bool): Limiter {
    if sweeps && op.Check? then Swept(l, c, op.sweepNow) else l
  }

  function Answers(l: Limiter, c: Config, ops: seq<Op>, sweeps: bool): seq<Answer>
    decreases ops
  {
    if ops == [] then []
    else [Answered(Seen(l, c, ops[0], sweeps), c, ops[0])] + Answers(Do(l, c, ops[0], sweeps), c, ops[1..], sweeps)
  }

  /** From now on, no operation can tell the two apart. */
  ghost predicate Alike(l: Limiter, u: Limiter, now: int) {
    forall k :: Live(l, k, now) || Live(u, k, now) ==> k in l.hits && k in u.hits && l.hits[k] == u.hits[k]
  }

  lemma {:induction false} SweepingNeverShows(l: Limiter, u: Limiter, c: Config, ops: seq<Op>, start: int)
    requires Timed(ops, start) && Alike(l, u, start)
    ensures Answers(l, c, ops, true) == Answers(u, c, ops, false)
    decreases ops
  {
    if ops != [] {
      var op := ops[0];
      var next := if op.Reset? then start else op.now;
      var l', u' := Do(l, c, op, true), Do(u, c, op, false);
      assert Answered(Seen(l, c, op, true), c, op) == Answered(u, c, op);
      assert Alike(l', u', next);
      SweepingNeverShows(l', u', c, ops[1..], next);
    }
  }

  // ---- and keeps no entry for long ----

  function After(l: Limiter, c: Config, ops: seq<Op>): Limiter
    decreases ops
  {
    if ops == [] then l else After(Do(l, c, ops[0], true), c, ops[1..])
  }

  /** The last sweep left no entry that had expired by then. */
  ghost predicate Fresh(l: Limiter, start: int) {
    l.lastSweep <= start && forall k :: k in l.hits ==> l.lastSweep < l.hits[k].resetAt
  }

  /** In every run: after a hit, of whatever key, every entry still kept expired less than a window before it,
      if at all. */
  lemma {:induction false} NoneKeptLong(l: Limiter, c: Config, ops: seq<Op>, start: int, key: string)
    requires c.windowMs > 0 && Timed(ops, start) && Fresh(l, start)
    requires ops != [] && ops[|ops| - 1].Check? && key in After(l, c, ops).hits
    ensures ops[|ops| - 1].sweepNow - c.windowMs < After(l, c, ops).hits[key].resetAt
    decreases ops
  {
    var op := ops[0];
    var next := Do(l, c, op, true);
    if |ops| > 1 {
      NoneKeptLong(next, c, ops[1..], if op.Reset? then start else op.now, key);
    } else {
      assert After(l, c, ops) == next;
    }
  }

  // ---- how many hits get through ----

  predicate NeverReset(ops: seq<Op>, key: string) {
    forall i :: 0 <= i < |ops| ==> ops[i] != Reset(key)
  }

  /** The checks of key in [from, from + windowMs) that are let through. */
  function Admitted(l: Limiter, c: Config, ops: seq<Op>, key: string, from: int, sweeps: bool): nat
    decreases ops
  {
    if ops == [] then 0
    else
      var op := ops[0];
      var ok := Answered(Seen(l, c, op, sweeps), c, op).ok;
      (if op.Check? && op.key == key && ok && from <= op.now < from + c.windowMs then 1 else 0)
      + Admitted(Do(l, c, op, sweeps), c, ops[1..], key, from, sweeps)
  }

  lemma {:induction false} SameAdmitted(l: Limiter, u: Limiter, c: Config, ops: seq<Op>, key: string, from: int)
    requires Answers(l, c, ops, true) == Answers(u, c, ops, false)
    ensures Admitted(l, c, ops, key, from, true) == Admitted(u, c, ops, key, from, false)
    decreases ops
  {
    if ops != [] {
      var a, b := Answers(l, c, ops, true), Answers(u, c, ops, false);
      assert a[0] == b[0];
      assert a[1..] == Answers(Do(l, c, ops[0], true), c, ops[1..], true);
      assert b[1..] == Answers(Do(u, c, ops[0], false), c, ops[1..], false);
      SameAdmitted(Do(l, c, ops[0], true), Do(u, c, ops[0], false), c, ops[1..], key, from);
    }
  }

  /** What is still to be let through, given `before` hits counted in closed windows and `current`
      in the window that is open at start: a hit in a closed window means the open one began after
      from, and so is the last one the interval can reach; and the first hit of a window that began before
      from is not in the interval. */
  lemma {:induction false} Budget(u: Limiter, c: Config, ops: seq<Op>, key: string, from: int, start: int,
                                  before: nat, current: nat)
    requires c.windowMs > 0 && c.max >= 1
    requires Timed(ops, start) && NeverReset(ops, key)
    requires before < c.max && current <= c.max
    requires before + current > 0 ==> key in u.hits
    requires key in u.hits ==> current <= u.hits[key].count
    requires key in u.hits && current > 0 ==> from < u.hits[key].resetAt
    requires key in u.hits && u.hits[key].resetAt < from + c.windowMs ==> current < u.hits[key].count && current < c.max
    requires before > 0 ==> from + c.windowMs < u.hits[key].resetAt
    requires key in u.hits ==> u.hits[key].resetAt <= start + c.windowMs
    ensures before + current + Admitted(u, c, ops, key, from, false) <= 2 * c.max - 1
    decreases ops
  {
    if ops != [] {
      var op := ops[0];
      var u' := Do(u, c, op, false);
      assert NeverReset(ops[1..], key) by {
        forall i | 0 <= i < |ops[1..]| ensures ops[1..][i] != Reset(key) { assert ops[i + 1] != Reset(key); }
      }
      assert ops[0] != Reset(key);
      if op.Check? && op.key == key {
        var counts := from <= op.now < from + c.windowMs && Answered(u, c, op).ok;
        if Live(u, key, op.now) {
          Budget(u', c, ops[1..], key, from, op.now, before, if counts then current + 1 else current);
        } else if counts {
          assert before == 0;
          Budget(u', c, ops[1..], key, from, op.now, current, 1);
        } else if op.now < from {
          assert current == 0 && before == 0;
          Budget(u', c, ops[1..], key, from, op.now, 0, 0);
        } else {
          NoneLate(u', c, ops[1..], key, from, op.now);
        }
      } else {
        Budget(u', c, ops[1..], key, from, if op.Reset? then start else op.now, before, current);
      }
    }
  }

  lemma {:induction false} NoneLate(u: Limiter, c: Config, ops: seq<Op>, key: string, from: int, start: int)
    requires Timed(ops, start) && from + c.windowMs <= start
    ensures Admitted(u, c, ops, key, from, false) == 0
    decreases ops
  {
    if ops != [] {
      NoneLate(Do(u, c, ops[0], false), c, ops[1..], key, from, if ops[0].Reset? then start else ops[0].now);
    }
  }

  /** The limiter lets through fewer than twice max in any stretch of one window length, at every point
      of every run that does not reset the key. */
  lemma {:induction false} FewerThanTwicePerWindow(c: Config, ops: seq<Op>, key: string, from: int, start: int)
    requires c.windowMs > 0 && c.max >= 1
    requires Timed(ops, start) && NeverReset(ops, key)
    ensures Admitted(Limiter(map[], start), c, ops, key, from, true) <= 2 * c.max - 1
  {
    var empty := Limiter(map[], start);
    SweepingNeverShows(empty, empty, c, ops, start);
    SameAdmitted(empty, empty, c, ops, key, from);
    Budget(empty, c, ops, key, from, start, 0, 0);
  }

  // ---- and that many do get through ----

  function Times(key: string, now: int, n: nat): seq<Op> {
    if n == 0 then [] else [Op.Check(key, now, now)] + Times(key, now, n - 1)
  }

  /** A first hit at 0, all others its window allows at 1, and as many as the next one allows when it opens. */
  function Burst(c: Config, key: string): seq<Op>
    requires c.max >= 1
  {
    [Op.Check(key, 0, 0)] + (Times(key, 1, c.max - 1) + Times(key, c.windowMs, c.max))
  }

  lemma TimesFirst(key: string, now: int, n: nat, rest: seq<Op>)
    requires n > 0
    ensures Times(key, now, n) + rest == [Op.Check(key, now, now)] + (Times(key, now, n - 1) + rest)
  {
  }

  lemma {:induction false} TimedFirst(key: string, now: int, rest: seq<Op>, start: int)
    requires start <= now && Timed(rest, now)
    ensures Timed([Op.Check(key, now, now)] + rest, start)
  {
    assert ([Op.Check(key, now, now)] + rest)[1..] == rest;
  }

  lemma {:induction false} TimesTimed(key: string, now: int, n: nat, rest: seq<Op>, start: int)
    requires start <= now && Timed(rest, now)
    ensures Timed(Times(key, now, n) + rest, start)
    decreases n
  {
    if n == 0 {
      assert Times(key, now, n) + rest == rest;
      TimedEarlier(rest, now, start);
    } else {
      TimesTimed(key, now, n - 1, rest, now);
      TimesFirst(key, now, n, rest);
      TimedFirst(key, now, Times(key, now, n - 1) + rest, start);
    }
  }

  lemma {:induction false} TimedEarlier(ops: seq<Op>, now: int, start: int)
    requires start <= now && Timed(ops, now)
    ensures Timed(ops, start)
  {
    if ops != [] && ops[0].Reset? {
      TimedEarlier(ops[1..], now, start);
    }
  }

  /** n hits in a window that has room for them all get through, in the interval that begins at 1. */
  lemma {:induction false} TimesAdmitted(u: Limiter, c: Config, key: string, now: int, n: nat, rest: seq<Op>)
    returns (v: Limiter)
    requires Live(u, key, now) && 0 <= u.hits[key].count && u.hits[key].count + n <= c.max
    requires 1 <= now < 1 + c.windowMs
    ensures Admitted(u, c, Times(key, now, n) + rest, key, 1, false) == n + Admitted(v, c, rest, key, 1, false)
    ensures key in v.hits && v.hits[key] == Entry(u.hits[key].count + n, u.hits[key].resetAt)
    decreases n
  {
    if n == 0 {
      v := u;
      assert Times(key, now, n) + rest == rest;
    } else {
      var op := Op.Check(key, now, now);
      assert (Times(key, now, n) + rest)[1..] == Times(key, now, n - 1) + rest;
      assert (Times(key, now, n) + rest)[0] == op;
      v := TimesAdmitted(Do(u, c, op, false), c, key, now, n - 1, rest);
    }
  }

  lemma {:induction false} SecondWindow(u: Limiter, c: Config, key: string)
    requires c.windowMs >= 2 && c.max >= 1 && key in u.hits && u.hits[key].resetAt == c.windowMs
    ensures Admitted(u, c, Times(key, c.windowMs, c.max), key, 1, false) == c.max
  {
    var now := c.windowMs;
    var op := Op.Check(key, now, now);
    var rest := Times(key, now, c.max - 1);
    assert Times(key, now, c.max)[1..] == rest && Times(key, now, c.max)[0] == op;
    var v := TimesAdmitted(Do(u, c, op, false), c, key, now, c.max - 1, []);
    assert rest + [] == rest;
  }

  lemma {:induction false} BurstAdmitted(c: Config, key: string)
    requires c.windowMs >= 2 && c.max >= 1
    ensures Admitted(Limiter(map[], 0), c, Burst(c, key), key, 1, false) == 2 * c.max - 1
  {
    var empty, first := Limiter(map[], 0), Op.Check(key, 0, 0);
    var second := Times(key, c.windowMs, c.max);
    assert Burst(c, key)[1..] == Times(key, 1, c.max - 1) + second && Burst(c, key)[0] == first;
    var v := TimesAdmitted(Do(empty, c, first, false), c, key, 1, c.max - 1, second);
    SecondWindow(v, c, key);
  }

  lemma {:induction false} TimesNeverReset(key: string, now: int, n: nat, other: string)
    ensures NeverReset(Times(key, now, n), other)
  {
    if n > 0 {
      TimesNeverReset(key, now, n - 1, other);
      forall i | 0 <= i < |Times(key, now, n)| ensures Times(key, now, n)[i] != Reset(other) {
        assert i > 0 ==> Times(key, now, n)[i] == Times(key, now, n - 1)[i - 1];
      }
    }
  }

  /** For every window of more than a millisecond and every max, some run reaches that bound. */
  lemma {:induction false} BoundReached(c: Config, key: string)
    requires c.windowMs >= 2 && c.max >= 1
    ensures Timed(Burst(c, key), 0) && NeverReset(Burst(c, key), key)
    ensures Admitted(Limiter(map[], 0), c, Burst(c, key), key, 1, true) == 2 * c.max - 1
  {
    var empty, ops := Limiter(map[], 0), Burst(c, key);
    var late := Times(key, c.windowMs, c.max);
    assert late + [] == late;
    TimesTimed(key, c.windowMs, c.max, [], 1);
    TimesTimed(key, 1, c.max - 1, late, 0);
    assert ops[1..] == Times(key, 1, c.max - 1) + late;
    TimesNeverReset(key, 1, c.max - 1, key);
    TimesNeverReset(key, c.windowMs, c.max, key);
    SweepingNeverShows(empty, empty, c, ops, 0);
    SameAdmitted(empty, empty, c, ops, key, 1);
    BurstAdmitted(c, key);
  }

  // ---- what a refusal tells ----

  predicate Passes(l: Limiter, c: Config, key: string, now: int) { Answered(l, c, Op.Check(key, now, now)).ok }

  /** A key is told to wait exactly when its next hit would be refused. Then the wait is the least number of
      whole seconds after which a hit gets through. */
  lemma RetryAfterIsExact(l: Limiter, c: Config, key: string, now: int)
    ensures
      var seconds := Answered(l, c, Op.RetryAfter(key, now)).retryAfterSeconds;
      && (seconds > 0 <==> !Passes(l, c, key, now)) && seconds >= 0
      && Passes(l, c, key, now + 1000 * seconds)
      && (forall t :: now <= t <= now + 1000 * (seconds - 1) ==> !Passes(l, c, key, t))
  {
  }

  /** The same of the wait a refused hit is given, although that hit was counted. */
  lemma RefusedWaitIsExact(l: Limiter, c: Config, key: string, sweepNow: int, now: int)
    ensures
      var op := Op.Check(key, sweepNow, now);
      var answer, after := Answered(l, c, op), Do(l, c, op, false);
      !answer.ok ==>
        && answer.retryAfterSeconds > 0
        && Passes(after, c, key, now + 1000 * answer.retryAfterSeconds)
        && (forall t :: now <= t <= now + 1000 * (answer.retryAfterSeconds - 1) ==> !Passes(after, c, key, t))
  {
  }

  /** After a reset the key has all its hits again. */
  lemma {:induction false} ResetGivesAll(l: Limiter, c: Config, key: string, now: int, n: nat)
    requires c.windowMs > 0 && 1 <= n <= c.max
    ensures
      var r := Do(l, c, Op.Reset(key), true);
      Answers(r, c, Times(key, now, n), false) == seq(n, _ => Answer(true, 0))
  {
    var r, op := Do(l, c, Op.Reset(key), true), Op.Check(key, now, now);
    assert Times(key, now, n)[1..] == Times(key, now, n - 1) && Times(key, now, n)[0] == op;
    TimesPass(Do(r, c, op, false), c, key, now, n - 1);
  }

  lemma {:induction false} TimesPass(u: Limiter, c: Config, key: string, now: int, n: nat)
    requires Live(u, key, now) && u.hits[key].count + n <= c.max
    ensures Answers(u, c, Times(key, now, n), false) == seq(n, _ => Answer(true, 0))
    decreases n
  {
    if n > 0 {
      var op := Op.Check(key, now, now);
      assert Times(key, now, n)[1..] == Times(key, now, n - 1) && Times(key, now, n)[0] == op;
      TimesPass(Do(u, c, op, false), c, key, now, n - 1);
    }
  }

  // ---- keys do not affect each other ----

  function Only(ops: seq<Op>, key: string): seq<Op> {
    if ops == [] then [] else (if ops[0].key == key then [ops[0]] else []) + Only(ops[1..], key)
  }

  /** The answers that operations on a key got. */
  function Told(ops: seq<Op>, answers: seq<Answer>, key: string): seq<Answer>
    requires |ops| == |answers|
  {
    if ops == [] then [] else (if ops[0].key == key then [answers[0]] else []) + Told(ops[1..], answers[1..], key)
  }

  lemma {:induction false} AnswersAll(l: Limiter, c: Config, ops: seq<Op>, sweeps: bool)
    ensures |Answers(l, c, ops, sweeps)| == |ops|
    decreases ops
  {
    if ops != [] {
      AnswersAll(Do(l, c, ops[0], sweeps), c, ops[1..], sweeps);
    }
  }

  ghost predicate SameFor(l: Limiter, u: Limiter, key: string) {
    (key in l.hits <==> key in u.hits) && (key in l.hits ==> l.hits[key] == u.hits[key])
  }

  lemma {:induction false} OwnAnswers(l: Limiter, u: Limiter, c: Config, ops: seq<Op>, key: string)
    requires SameFor(l, u, key)
    ensures |Answers(l, c, ops, false)| == |ops|
    ensures Told(ops, Answers(l, c, ops, false), key) == Answers(u, c, Only(ops, key), false)
    decreases ops
  {
    AnswersAll(l, c, ops, false);
    if ops != [] {
      var op := ops[0];
      var rest := Answers(Do(l, c, op, false), c, ops[1..], false);
      assert Answers(l, c, ops, false)[1..] == rest;
      if op.key == key {
        OwnAnswers(Do(l, c, op, false), Do(u, c, op, false), c, ops[1..], key);
        assert Only(ops, key)[1..] == Only(ops[1..], key);
      } else {
        OwnAnswers(Do(l, c, op, false), u, c, ops[1..], key);
        assert [] + Only(ops[1..], key) == Only(ops[1..], key);
      }
    }
  }

  lemma {:induction false} OnlyTimed(ops: seq<Op>, key: string, start: int)
    requires Timed(ops, start)
    ensures Timed(Only(ops, key), start)
    decreases ops
  {
    if ops != [] {
      var next := if ops[0].Reset? then start else ops[0].now;
      OnlyTimed(ops[1..], key, next);
      if ops[0].key == key {
        assert Only(ops, key)[1..] == Only(ops[1..], key);
      } else {
        assert [] + Only(ops[1..], key) == Only(ops[1..], key);
        TimedEarlier(Only(ops[1..], key), next, start);
      }
    }
  }

  /** In every run, with the sweeps that other keys' hits set off, a key gets the answers it would get alone. */
  lemma {:induction false} KeysAreIndependent(c: Config, ops: seq<Op>, key: string, start: int)
    requires Timed(ops, start)
    ensures
      var empty := Limiter(map[], start);
      && |Answers(empty, c, ops, true)| == |ops|
      && Told(ops, Answers(empty, c, ops, true), key) == Answers(empty, c, Only(ops, key), true)
  {
    var empty := Limiter(map[], start);
    SweepingNeverShows(empty, empty, c, ops, start);
    OnlyTimed(ops, key, start);
    SweepingNeverShows(empty, empty, c, Only(ops, key), start);
    OwnAnswers(empty, empty, c, ops, key);
  }
}
