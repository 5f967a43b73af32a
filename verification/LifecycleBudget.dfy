/** The crash budget in whole runs: how many crash restarts the watchers of an instance can grant. */
module LifecycleBudget {
  import opened Common
  import opened InstanceRecord
  import opened Lifecycle
  import opened LifecycleRuns
  import CrashBudget

  /** A crash that goes into the history: not asked for, not clean, and restarts are on. */
  predicate Counts(s: State, step: Step) {
    && step.WorldStep? && step.world.ExitSection?
    && s.record.container == Some(step.world.id)
    && !s.record.stopRequested && !step.world.clean
    && s.record.spec.Some? && s.record.spec.value.restartOnCrash
  }

  /** A stop of a crashed instance, which clears the history. */
  predicate Clears(s: State, step: Step) {
    step.StopStep? && step.stop.StopSection? && StopBegin(s.record).0.RestartsCancelled?
  }

  predicate NoneClears(s: State, steps: seq<Step>)
    requires Run(s, steps)
    decreases steps
  {
    steps == [] || (!Clears(s, steps[0]) && NoneClears(Do(s, steps[0]), steps[1..]))
  }

  /** The watcher's verdict is to restart the instance after the delay. */
  predicate Grants(s: State, step: Step) {
    && step.WorldStep? && step.world.ExitSection?
    && Exited(s.record, step.world.id, step.world.clean, step.world.now).0.RestartLater?
  }

  /** How many restarts are granted during the run at times in [from, from + WINDOW). */
  function GrantsIn(s: State, steps: seq<Step>, from: int): nat
    requires Run(s, steps)
    decreases steps
  {
    if steps == [] then 0
    else
      (if Grants(s, steps[0]) && from <= steps[0].world.now < from + CrashBudget.WINDOW then 1 else 0)
      + GrantsIn(Do(s, steps[0]), steps[1..], from)
  }

  /** The times watchers read off the clock, in the order of the steps. */
  function Clock(steps: seq<Step>): seq<int> {
    if steps == [] then []
    else
      (if steps[0].WorldStep? && steps[0].world.ExitSection? then [steps[0].world.now] else []) + Clock(steps[1..])
  }

  /** The crashes counted since the history was cleared last, after one step and after a run. */
  function Next(s: State, past: seq<int>, step: Step): seq<int> {
    if Counts(s, step) then past + [step.world.now] else if Clears(s, step) then [] else past
  }

  function PastAfter(s: State, past: seq<int>, steps: seq<Step>): seq<int>
    requires Run(s, steps)
    decreases steps
  {
    if steps == [] then past else PastAfter(Do(s, steps[0]), Next(s, past, steps[0]), steps[1..])
  }

  lemma {:induction false} CountedIsKept(past: seq<int>, now: int)
    ensures CrashBudget.Kept(past + [now]) == CrashBudget.Recent(CrashBudget.Kept(past), now) + [now]
  {
    assert (past + [now])[..|past|] == past;
  }

  lemma StartKeepsHistory(s: State, t: ThreadId, act: StartAct)
    requires StartEnabled(s, t, act)
    ensures DoStart(s, t, act).record.crashes == s.record.crashes
  {
  }

  lemma StopHistory(s: State, t: ThreadId, act: StopAct)
    requires StopEnabled(s, t, act)
    ensures DoStop(s, t, act).record.crashes == if Clears(s, StopStep(t, act)) then [] else s.record.crashes
  {
  }

  lemma OtherKeepsHistory(s: State, t: ThreadId, act: OtherAct)
    requires OtherEnabled(s, t, act)
    ensures DoOther(s, t, act).record.crashes == s.record.crashes
  {
  }

  lemma WorldHistory(s: State, act: WorldAct)
    requires WorldEnabled(s, act)
    ensures
      DoWorld(s, act).record.crashes ==
        if Counts(s, WorldStep(act)) then CrashBudget.Recent(s.record.crashes, act.now) + [act.now]
        else s.record.crashes
  {
  }

  /** Only a counted crash and a stop that clears touch the history. */
  lemma HistoryStep(s: State, step: Step)
    requires Enabled(s, step)
    ensures
      Do(s, step).record.crashes ==
        if Counts(s, step) then CrashBudget.Recent(s.record.crashes, step.world.now) + [step.world.now]
        else if Clears(s, step) then [] else s.record.crashes
  {
    match step
    case StartStep(t, act) => StartKeepsHistory(s, t, act);
    case StopStep(t, act) => StopHistory(s, t, act);
    case OtherStep(t, act) => OtherKeepsHistory(s, t, act);
    case WorldStep(act) => WorldHistory(s, act);
    case _ =>
  }

  lemma {:induction false} KeptByStep(s: State, past: seq<int>, step: Step)
    requires s.record.crashes == CrashBudget.Kept(past) && Enabled(s, step)
    ensures Do(s, step).record.crashes == CrashBudget.Kept(Next(s, past, step))
  {
    HistoryStep(s, step);
    if Counts(s, step) {
      CountedIsKept(past, step.world.now);
    }
  }

  lemma OneLess(before: seq<int>, x: int, after: seq<int>)
    requires CrashBudget.Monotone(before + [x] + after)
    ensures CrashBudget.Monotone(before + after)
  {
    var all := before + [x] + after;
    assert before + after == all[..|before|] + all[|before| + 1..];
  }

  lemma Suffix(before: seq<int>, after: seq<int>)
    requires CrashBudget.Monotone(before + after)
    ensures CrashBudget.Monotone(after)
  {
    assert after == (before + after)[|before|..];
  }

  /** A step that reads the clock at now, counted or not, leaves what is still to come in order. */
  lemma {:induction false} ClockStep(s: State, past: seq<int>, steps: seq<Step>, more: seq<int>)
    requires steps != [] && CrashBudget.Monotone(past + Clock(steps) + more)
    ensures CrashBudget.Monotone(Next(s, past, steps[0]) + Clock(steps[1..]) + more)
  {
    var rest := Clock(steps[1..]);
    if steps[0].WorldStep? && steps[0].world.ExitSection? {
      var now := steps[0].world.now;
      assert past + ([now] + rest) + more == past + [now] + (rest + more);
      OneLess(past, now, rest + more);
      assert past + rest + more == past + (rest + more);
      assert past + [now] + rest + more == past + [now] + (rest + more);
    } else {
      assert Clock(steps) == [] + rest == rest;
      assert past + rest + more == past + (rest + more);
      Suffix(past, rest + more);
      assert [] + rest + more == rest + more;
    }
  }

  lemma {:induction false} InOrderAfter(s: State, past: seq<int>, steps: seq<Step>)
    requires steps != [] && CrashBudget.Monotone(past + Clock(steps))
    ensures CrashBudget.Monotone(Next(s, past, steps[0]) + Clock(steps[1..]))
  {
    assert past + Clock(steps) + [] == past + Clock(steps);
    ClockStep(s, past, steps, []);
    assert Next(s, past, steps[0]) + Clock(steps[1..]) + [] == Next(s, past, steps[0]) + Clock(steps[1..]);
  }

  lemma {:induction false} KeptAlong(s: State, past: seq<int>, steps: seq<Step>, more: seq<int>)
    requires s.record.crashes == CrashBudget.Kept(past) && Run(s, steps)
    requires CrashBudget.Monotone(past + Clock(steps) + more)
    ensures After(s, steps).record.crashes == CrashBudget.Kept(PastAfter(s, past, steps))
    ensures CrashBudget.Monotone(PastAfter(s, past, steps) + more)
    decreases steps
  {
    if steps == [] {
      assert past + Clock(steps) + more == past + more;
    } else {
      KeptByStep(s, past, steps[0]);
      ClockStep(s, past, steps, more);
      KeptAlong(Do(s, steps[0]), Next(s, past, steps[0]), steps[1..], more);
    }
  }

  /** The watcher grants a restart exactly when the crash it counts is granted one. */
  lemma {:induction false} GrantedStep(s: State, past: seq<int>, step: Step, from: int)
    requires s.record.crashes == CrashBudget.Kept(past) && Enabled(s, step) && !Clears(s, step)
    ensures
      CrashBudget.GrantedIn(Next(s, past, step), from) == CrashBudget.GrantedIn(past, from)
        + if Grants(s, step) && from <= step.world.now < from + CrashBudget.WINDOW then 1 else 0
  {
    if Counts(s, step) {
      assert (past + [step.world.now])[..|past|] == past;
    }
  }

  lemma {:induction false} GrantsBounded(s: State, past: seq<int>, steps: seq<Step>, from: int)
    requires s.record.crashes == CrashBudget.Kept(past) && Run(s, steps) && NoneClears(s, steps)
    requires CrashBudget.Monotone(past + Clock(steps))
    ensures CrashBudget.GrantedIn(past, from) + GrantsIn(s, steps, from) <= CrashBudget.BUDGET
    decreases steps
  {
    if steps == [] {
      assert past + Clock(steps) == past;
      CrashBudget.AtMostBudgetPerWindow(past, from);
    } else {
      var step := steps[0];
      KeptByStep(s, past, step);
      GrantedStep(s, past, step, from);
      InOrderAfter(s, past, steps);
      GrantsBounded(Do(s, step), Next(s, past, step), steps[1..], from);
    }
  }

  lemma {:induction false} KeptFromStart(init: State, steps: seq<Step>, more: seq<int>)
    requires init.record.crashes == [] && Run(init, steps) && CrashBudget.Monotone(Clock(steps) + more)
    ensures After(init, steps).record.crashes == CrashBudget.Kept(PastAfter(init, [], steps))
    ensures CrashBudget.Monotone(PastAfter(init, [], steps) + more)
  {
    assert [] + Clock(steps) + more == Clock(steps) + more;
    KeptAlong(init, [], steps, more);
  }

  /** In every run of an instance: a crash that counts is granted a restart exactly when fewer than the
      budget of those counted since the history was cleared last were less than one window earlier. */
  lemma {:induction false} RestartGrantedIff(init: State, before: seq<Step>, step: Step)
    requires Initial(init) && Run(init, before) && Enabled(After(init, before), step)
    requires Counts(After(init, before), step) && CrashBudget.Monotone(Clock(before) + [step.world.now])
    ensures
      Grants(After(init, before), step) <==>
        CrashBudget.Since(PastAfter(init, [], before), step.world.now - 600_000 + 1) < 3
  {
    var past, now := PastAfter(init, [], before), step.world.now;
    KeptFromStart(init, before, [now]);
    CrashBudget.GrantedIff(past + [now]);
    assert (past + [now])[..|past|] == past;
  }

  /** In every run of an instance, from its first state on: between two stops that clear the history,
      no span of one window holds more than the budget of granted restarts. */
  lemma {:induction false} RestartsWithinBudget(init: State, before: seq<Step>, during: seq<Step>, from: int)
    requires Initial(init) && Run(init, before)
    requires Run(After(init, before), during) && NoneClears(After(init, before), during)
    requires CrashBudget.Monotone(Clock(before) + Clock(during))
    ensures GrantsIn(After(init, before), during, from) <= CrashBudget.BUDGET
  {
    KeptFromStart(init, before, Clock(during));
    GrantsBounded(After(init, before), PastAfter(init, [], before), during, from);
  }
}
