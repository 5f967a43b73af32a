/** The database server under a game: what can stop it from ensureDatabase to the game's recorded exit. */
module LifecycleDatabase {
  import opened Common
  import opened InstanceRecord
  import opened Lifecycle
  import opened LifecycleInv
  import opened LifecycleRuns

  /** A game that uses the database is running, or is past ensureDatabase on its way up. */
  predicate Shielded(s: State) {
    || (s.record.container.Some? && s.gameUsesDb)
    || (&& s.opOwner.Some? && s.opOwner.value in s.threads
        && var pc := s.threads[s.opOwner.value];
           ((pc.Ensured? && pc.ok) || pc.Creating? || pc.Tracking?) && pc.spec.database)
  }

  /** The manager tells Docker to stop or remove the database container. */
  predicate StopsDb(s: State, step: Step)
    requires Enabled(s, step)
  {
    match step
    case EnsureStep(_, act) => act.DbRestarted?
    case DumpStep(t, act) => act.DumpDbRestarted? || (act.DumpDbStopped? && !s.threads[t].gameUp)
    case StopStep(t, act) => act.DbStopped? && !s.threads[t].up
    case OtherStep(_, act) => act.Removed?
    case _ => false
  }

  /** A dump or import at pc took the server for its own and finds no game to spare it for. */
  predicate DumpThreatens(pc: Pc, container: Option<ContainerId>) {
    || pc.DumpEnsuring?
    || (pc == DumpRuns(false) && container.None?)
    || pc == DumpStopsDb(false)
  }

  predicate Threat(s: State) {
    || (&& s.dbOwner.Some? && s.dbOwner.value in s.threads
        && DumpThreatens(s.threads[s.dbOwner.value], s.record.container))
    || (s.opOwner.Some? && s.opOwner.value in s.threads && s.threads[s.opOwner.value] == Removing(true))
  }

  /** The database is up and no dump, import or Remove is on its way to stopping it. */
  predicate Safe(s: State) { s.dbUp && !Threat(s) }

  /** What can end that: the server goes down by itself, a dump's inspect of it fails, or a Remove goes
      on although it could not stop the game. */
  datatype Cause = Died | Unanswered | GaveUp

  function Lapse(s: State, step: Step): Option<Cause>
    requires Enabled(s, step)
  {
    match step
    case WorldStep(DbDied) => Some(Died)
    case DumpStep(_, InspectFailed) => Some(Unanswered)
    case StopStep(t, StopGaveUp) => if s.threads[t].op.Remove? then Some(GaveUp) else None
    case _ => None
  }

  // ---- one step, one lemma per group ----

  /** The step keeps a game that was safe safe unless it is a lapse, and a game comes under the shield
      safe. */
  predicate StepSafe(s: State, step: Step)
    requires Enabled(s, step)
  {
    Shielded(Do(s, step)) ==>
      && (Shielded(s) && Safe(s) ==> (Safe(Do(s, step)) <==> Lapse(s, step).None?))
      && (!Shielded(s) ==> step.EnsureStep? && Safe(Do(s, step)))
  }

  lemma QueueStepSafe(s: State, t: ThreadId, act: QueueAct)
    requires Locks(s) && Owner(s) && QueueEnabled(s, t, act)
    ensures StepSafe(s, QueueStep(t, act))
  {
  }

  lemma StartStepSafe(s: State, t: ThreadId, act: StartAct)
    requires Locks(s) && Owner(s) && StartEnabled(s, t, act)
    ensures StepSafe(s, StartStep(t, act))
  {
  }

  lemma EnsureStepSafe(s: State, t: ThreadId, act: EnsureAct)
    requires Locks(s) && Owner(s) && EnsureEnabled(s, t, act)
    ensures StepSafe(s, EnsureStep(t, act))
  {
  }

  lemma StopStepSafe(s: State, t: ThreadId, act: StopAct)
    requires Inv(s) && StopEnabled(s, t, act)
    ensures StepSafe(s, StopStep(t, act))
  {
  }

  lemma OtherStepSafe(s: State, t: ThreadId, act: OtherAct)
    requires Inv(s) && OtherEnabled(s, t, act)
    ensures StepSafe(s, OtherStep(t, act))
  {
  }

  lemma DumpStepSafe(s: State, t: ThreadId, act: DumpAct)
    requires Locks(s) && Owner(s) && DumpEnabled(s, t, act)
    ensures StepSafe(s, DumpStep(t, act))
  {
  }

  lemma WorldStepSafe(s: State, act: WorldAct)
    requires Inv(s) && WorldEnabled(s, act)
    ensures StepSafe(s, WorldStep(act))
  {
  }

  lemma EveryStepSafe(s: State, step: Step)
    requires Inv(s) && Enabled(s, step)
    ensures StepSafe(s, step)
  {
    match step
    case QueueStep(t, act) => QueueStepSafe(s, t, act);
    case StartStep(t, act) => StartStepSafe(s, t, act);
    case EnsureStep(t, act) => EnsureStepSafe(s, t, act);
    case StopStep(t, act) => StopStepSafe(s, t, act);
    case OtherStep(t, act) => OtherStepSafe(s, t, act);
    case DumpStep(t, act) => DumpStepSafe(s, t, act);
    case WorldStep(act) => WorldStepSafe(s, act);
  }

  /** While a game is shielded and safe, nothing the manager can do next stops the database. */
  lemma SafeIsNotStopped(s: State, step: Step)
    requires Inv(s) && Shielded(s) && Safe(s) && Enabled(s, step)
    ensures !StopsDb(s, step)
  {
  }

  /** A game comes under the shield only at the end of its own ensureDatabase, and is safe then; from
      then on exactly the three lapses make it unsafe. */
  lemma ExactlyLapsesEndSafety(s: State, step: Step)
    requires Reachable(s) && Enabled(s, step) && Shielded(Do(s, step))
    ensures !Shielded(s) ==> step.EnsureStep? && step.ensure.DbEnsured? && Safe(Do(s, step))
    ensures Shielded(s) && Safe(s) ==> (Safe(Do(s, step)) <==> Lapse(s, step).None?)
  {
    ReachableInv(s);
    EveryStepSafe(s, step);
  }

  // ---- whole runs ----

  /** The game stays shielded all along and no step is a lapse. */
  predicate Sheltered(s: State, steps: seq<Step>)
    requires Run(s, steps)
    decreases steps
  {
    && Shielded(s)
    && (steps == [] || (Lapse(s, steps[0]).None? && Sheltered(Do(s, steps[0]), steps[1..])))
  }

  /** The database is up all along and no step stops it. */
  predicate DbKept(s: State, steps: seq<Step>)
    requires Run(s, steps)
    decreases steps
  {
    && s.dbUp
    && (steps == [] || (!StopsDb(s, steps[0]) && DbKept(Do(s, steps[0]), steps[1..])))
  }

  /** From a safe state on, however operations interleave: without a lapse the database is up and
      nothing stops it until the game's exit is recorded. */
  lemma {:induction false} DatabaseShielded(s: State, steps: seq<Step>)
    requires Reachable(s) && Safe(s) && Run(s, steps) && Sheltered(s, steps)
    ensures DbKept(s, steps) && Safe(After(s, steps))
    decreases steps
  {
    if steps != [] {
      ReachableInv(s);
      SafeIsNotStopped(s, steps[0]);
      EveryStepSafe(s, steps[0]);
      StepReaches(s, steps[0]);
      DatabaseShielded(Do(s, steps[0]), steps[1..]);
    }
  }

  /** Some run without a lapse, with the game shielded all along, ends where the manager can stop a
      database that is up. */
  ghost predicate CanStop(s: State) {
    exists steps, last ::
      && Run(s, steps) && Sheltered(s, steps) && After(s, steps).dbUp
      && Enabled(After(s, steps), last) && StopsDb(After(s, steps), last)
  }

  lemma CanStopNow(s: State, last: Step)
    requires Shielded(s) && s.dbUp && Enabled(s, last) && StopsDb(s, last)
    ensures CanStop(s)
  {
    assert Run(s, []) && After(s, []) == s;
  }

  lemma CanStopLater(s: State, step: Step)
    requires Shielded(s) && Enabled(s, step) && Lapse(s, step).None? && CanStop(Do(s, step))
    ensures CanStop(s)
  {
    var rest, last :| Run(Do(s, step), rest) && Sheltered(Do(s, step), rest) && After(Do(s, step), rest).dbUp
                      && Enabled(After(Do(s, step), rest), last) && StopsDb(After(Do(s, step), rest), last);
    assert ([step] + rest)[1..] == rest;
    assert Run(s, [step] + rest) && After(s, [step] + rest) == After(Do(s, step), rest);
  }

  lemma RunOverCanStop(s: State, t: ThreadId)
    requires Shielded(s) && s.dbUp && s.record.container.None? && t in s.threads && s.threads[t] == DumpRuns(false)
    requires s.opOwner != Some(t)
    ensures CanStop(s)
  {
    var step := DumpStep(t, DumpUpSection);
    CanStopNow(Do(s, step), DumpStep(t, DumpDbStopped));
    CanStopLater(s, step);
  }

  lemma ThreatCanStop(s: State)
    requires Inv(s) && Shielded(s) && s.dbUp && Threat(s)
    ensures CanStop(s)
  {
    if s.opOwner.Some? && s.threads[s.opOwner.value] == Removing(true) {
      CanStopNow(s, OtherStep(s.opOwner.value, Removed));
    } else {
      var t := s.dbOwner.value;
      if s.threads[t].DumpEnsuring? {
        CanStopNow(s, DumpStep(t, DumpDbRestarted));
      } else if s.threads[t].DumpStopsDb? {
        CanStopNow(s, DumpStep(t, DumpDbStopped));
      } else {
        RunOverCanStop(s, t);
      }
    }
  }

  /** Docker starts a server that died again, under a dump that means to stop it. */
  lemma ThreatWhileDown(s: State)
    requires Inv(s) && Shielded(s) && !s.dbUp && Threat(s)
    ensures CanStop(s)
  {
    var next := DoWorld(s, DbRevived);
    InvKept(s, WorldStep(DbRevived));
    ThreatCanStop(next);
    CanStopLater(s, WorldStep(DbRevived));
  }

  lemma DownAtInspect(s: State, t: ThreadId)
    requires Inv(s) && Shielded(s) && !s.dbUp && s.dbOwner == Some(t) && t in s.threads && s.threads[t].DumpInspect?
    ensures CanStop(s)
  {
    var step := DumpStep(t, InspectAnswered(false));
    InvKept(s, step);
    ThreatWhileDown(Do(s, step));
    CanStopLater(s, step);
  }

  lemma DownAtDbWait(s: State, t: ThreadId)
    requires Inv(s) && Shielded(s) && !s.dbUp && s.dbOwner.None? && t in s.threads && s.threads[t].DumpWaitDb?
    ensures CanStop(s)
  {
    var step := QueueStep(t, LockDb);
    InvKept(s, step);
    DownAtInspect(Do(s, step), t);
    CanStopLater(s, step);
  }

  lemma DownWithDbFree(s: State)
    requires Inv(s) && Shielded(s) && !s.dbUp && s.dbOwner.None?
    ensures CanStop(s)
  {
    var t := Above(s.threads.Keys);
    var step := QueueStep(t, ArriveDump);
    assert t !in s.threads.Keys;
    InvKept(s, step);
    DownAtDbWait(Do(s, step), t);
    CanStopLater(s, step);
  }

  lemma DownAtUnlock(s: State, t: ThreadId)
    requires Inv(s) && Shielded(s) && !s.dbUp && s.dbOwner == Some(t) && t in s.threads
    requires s.threads[t].Ensured? || s.threads[t].DumpReturning?
    ensures CanStop(s)
  {
    var step := QueueStep(t, UnlockDb);
    InvKept(s, step);
    DownWithDbFree(Do(s, step));
    CanStopLater(s, step);
  }

  lemma DownAtRunOver(s: State, t: ThreadId)
    requires Inv(s) && Shielded(s) && !s.dbUp && s.dbOwner == Some(t) && t in s.threads
    requires s.threads[t] == DumpRuns(true) || s.threads[t].DumpStopsDb?
    ensures CanStop(s)
  {
    var step := DumpStep(t, if s.threads[t].DumpRuns? then Ran else DumpDbStopped);
    InvKept(s, step);
    DownAtUnlock(Do(s, step), t);
    CanStopLater(s, step);
  }

  lemma DownAtRun(s: State, t: ThreadId)
    requires Inv(s) && Shielded(s) && !s.dbUp && s.dbOwner == Some(t) && t in s.threads
    requires s.threads[t] == DumpRuns(false)
    ensures CanStop(s)
  {
    var step := DumpStep(t, DumpUpSection);
    InvKept(s, step);
    DownAtRunOver(Do(s, step), t);
    CanStopLater(s, step);
  }

  lemma DownCanStop(s: State)
    requires Inv(s) && Shielded(s) && !s.dbUp
    ensures CanStop(s)
  {
    if Threat(s) {
      ThreatWhileDown(s);
    } else if s.dbOwner.None? {
      DownWithDbFree(s);
    } else {
      var t := s.dbOwner.value;
      if s.threads[t].DumpInspect? {
        DownAtInspect(s, t);
      } else if s.threads[t] == DumpRuns(false) {
        DownAtRun(s, t);
      } else if s.threads[t].DumpRuns? || s.threads[t].DumpStopsDb? {
        DownAtRunOver(s, t);
      } else {
        DownAtUnlock(s, t);
      }
    }
  }

  /** In every reachable state with a game under the shield: some run without a lapse stops its
      database exactly when the database is down now, or a dump or Remove threatens it. */
  lemma CanStopIffNotSafe(s: State)
    requires Reachable(s) && Shielded(s)
    ensures CanStop(s) <==> !Safe(s)
  {
    ReachableInv(s);
    if Safe(s) {
      if CanStop(s) {
        var steps, last :| Run(s, steps) && Sheltered(s, steps) && After(s, steps).dbUp
                           && Enabled(After(s, steps), last) && StopsDb(After(s, steps), last);
        DatabaseShielded(s, steps);
        RunKeepsInv(s, steps);
        ShelteredToTheEnd(s, steps);
        SafeIsNotStopped(After(s, steps), last);
        assert false;
      }
    } else if s.dbUp {
      ThreatCanStop(s);
    } else {
      DownCanStop(s);
    }
  }

  lemma {:induction false} ShelteredToTheEnd(s: State, steps: seq<Step>)
    requires Run(s, steps) && Sheltered(s, steps)
    ensures Shielded(After(s, steps))
    decreases steps
  {
    if steps != [] {
      ShelteredToTheEnd(Do(s, steps[0]), steps[1..]);
    }
  }

  /** For a dump or import that holds dbMu while the database is up, and with no Remove that gave up: the
      database can be stopped exactly when the dump's position and the container id say so. */
  lemma DumpStopsIff(s: State, t: ThreadId)
    requires Reachable(s) && Shielded(s) && s.dbUp && s.dbOwner == Some(t)
    requires s.opOwner.Some? ==> s.opOwner.value in s.threads && s.threads[s.opOwner.value] != Removing(true)
    ensures t in s.threads
    ensures CanStop(s) <==> DumpThreatens(s.threads[t], s.record.container)
  {
    ReachableInv(s);
    CanStopIffNotSafe(s);
  }

  lemma {:induction false} RunTwo(s: State, first: Step, second: Step)
    requires Enabled(s, first) && Enabled(Do(s, first), second)
    ensures Run(s, [first, second]) && After(s, [first, second]) == Do(Do(s, first), second)
  {
    var next := Do(s, first);
    assert [first, second][1..] == [second] && [second][1..] == [];
    assert Run(Do(next, second), []);
    assert Run(next, [second]) && After(next, [second]) == Do(next, second);
  }

  /** How a dump that started the server ends: it looks for a game, then stops the server or not. */
  function DumpEnd(t: ThreadId): seq<Step> { [DumpStep(t, DumpUpSection), DumpStep(t, DumpDbStopped)] }

  /** Such a dump stops the server exactly when no container id is recorded yet: under a game that is
      only starting. */
  lemma {:induction false} DumpStopsStartingGame(s: State, t: ThreadId)
    requires s.dbUp && t in s.threads && s.threads[t] == DumpRuns(false)
    ensures Run(s, DumpEnd(t))
    ensures After(s, DumpEnd(t)).dbUp <==> s.record.container.Some?
  {
    RunTwo(s, DumpStep(t, DumpUpSection), DumpStep(t, DumpDbStopped));
  }

  // ---- each lapse happens ----

  const DB_GAME := Spec(false, false, true)

  /** Only thread 0 is there, at pc with a first start; no container id yet. */
  ghost predicate Scene(s: State, pc: Pc, db: Option<ThreadId>, dbUp: bool) {
    && Reachable(s) && s.record.container.None? && s.record.phase.Stopped? && !s.record.installing
    && s.threads == map[0 := pc] && s.dbOwner == db && s.dbUp == dbUp && s.watchers == map[]
    && s.opOwner == (if HoldsOp(pc) then Some(0) else None)
  }

  lemma GameArrives() returns (s: State)
    ensures Scene(s, WaitOp(Start(DB_GAME)), None, false)
  {
    var s0 := State(Record(Stopped, None, false, false, false, None, []), map[], None, None, map[], [], false, false);
    assert Run(s0, []) && After(s0, []) == s0;
    s := Take(s0, QueueStep(0, Arrive(Start(DB_GAME))));
  }

  lemma GameLocks() returns (s: State)
    ensures Scene(s, StartEntry(Start(DB_GAME), DB_GAME), None, false)
  {
    var before := GameArrives();
    s := Take(before, QueueStep(0, LockOp));
  }

  lemma GamePrepares() returns (s: State)
    ensures Scene(s, Preparing(Start(DB_GAME), DB_GAME), None, false)
  {
    var before := GameLocks();
    s := Take(before, StartStep(0, StartSection));
  }

  lemma GameBegins() returns (s: State)
    ensures Scene(s, StartWaitDb(Start(DB_GAME), DB_GAME), None, false)
  {
    var before := GamePrepares();
    s := Take(before, StartStep(0, Prepared(true)));
  }

  lemma GameTakesDatabase() returns (s: State)
    ensures Scene(s, Ensuring(Start(DB_GAME), DB_GAME), Some(0), false)
  {
    var before := GameBegins();
    s := Take(before, QueueStep(0, LockDb));
  }

  lemma GameHasDatabase() returns (s: State)
    ensures Scene(s, Ensured(Start(DB_GAME), DB_GAME, true), Some(0), true)
  {
    var before := GameTakesDatabase();
    s := Take(before, EnsureStep(0, DbEnsured));
  }

  lemma GameStarts() returns (s: State)
    ensures Scene(s, Creating(Start(DB_GAME), DB_GAME), None, true)
  {
    var before := GameHasDatabase();
    s := Take(before, QueueStep(0, UnlockDb));
  }

  /** The game starts and a dump is about to inspect the database. */
  lemma DumpInspects() returns (s: State)
    ensures Reachable(s) && Shielded(s) && Safe(s) && s.record.container.None?
    ensures 1 in s.threads && s.threads[1].DumpInspect?
  {
    var before := GameStarts();
    var arrived := Take(before, QueueStep(1, ArriveDump));
    s := Take(arrived, QueueStep(1, LockDb));
  }

  lemma GameIsTracked() returns (s: State)
    ensures Scene(s, Tracking(Start(DB_GAME), DB_GAME, 7), None, true)
  {
    var before := GameStarts();
    s := Take(before, StartStep(0, Created(7)));
  }

  lemma GameRuns() returns (s: State)
    ensures Reachable(s) && s.record.phase.Running? && s.record.container == Some(7) && s.gameUsesDb && s.dbUp
    ensures s.threads == map[0 := Done] && s.opOwner.None? && s.dbOwner.None? && !s.record.installing
  {
    var before := GameIsTracked();
    var tracked := Take(before, StartStep(0, TrackSection));
    s := Take(tracked, QueueStep(0, UnlockOp));
  }

  lemma RemoveLocks() returns (s: State)
    ensures Reachable(s) && s.record.phase.Running? && s.record.container == Some(7) && s.gameUsesDb && s.dbUp
    ensures s.threads == map[0 := Done, 1 := StopEntry(Remove)] && s.opOwner == Some(1) && s.dbOwner.None?
    ensures !s.record.installing
  {
    var before := GameRuns();
    var arrived := Take(before, QueueStep(1, Arrive(Remove)));
    s := Take(arrived, QueueStep(1, LockOp));
  }

  /** The game runs and a Remove waits for its exit. */
  lemma RemoveWaits() returns (s: State)
    ensures Reachable(s) && Shielded(s) && Safe(s)
    ensures 1 in s.threads && s.threads[1] == AwaitExit(Remove, 7)
  {
    var before := RemoveLocks();
    s := Take(before, StopStep(1, StopSection));
  }

  /** Each cause comes up with a game under the shield and safe, and the database can be stopped under
      that game right after: by the manager alone, without another lapse. */
  lemma EachLapseCounts(cause: Cause)
    ensures exists s, step ::
      && Reachable(s) && Shielded(s) && Safe(s) && Enabled(s, step) && Lapse(s, step) == Some(cause)
      && Shielded(Do(s, step)) && CanStop(Do(s, step))
  {
    var s;
    var step;
    match cause {
      case Died => s := DumpInspects(); step := WorldStep(DbDied);
      case Unanswered => s := DumpInspects(); step := DumpStep(1, InspectFailed);
      case GaveUp => s := RemoveWaits(); step := StopStep(1, StopGaveUp);
    }
    assert Enabled(s, step) && Lapse(s, step) == Some(cause) && Shielded(Do(s, step));
    ExactlyLapsesEndSafety(s, step);
    StepReaches(s, step);
    CanStopIffNotSafe(Do(s, step));
  }
}
