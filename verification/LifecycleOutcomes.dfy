/** What operations bring about: a granted crash restart can bring the game up again, a start that returns
    well has the game up with the settings it was given, and a stop leaves no database server running. */
module LifecycleOutcomes {
  import opened Common
  import opened InstanceRecord
  import opened Lifecycle
  import opened LifecycleInv
  import opened LifecycleRuns
  import opened LifecycleRemoval
  import opened LifecycleBudget

  // ---- an exit, and the restart it can bring ----

  /** The exit of the tracked container settles on stopped when it was asked for or clean, else on crashed,
      and leaves the settings as they are. */
  lemma ExitSettles(r: Record, id: ContainerId, clean: bool, now: int)
    requires r.container == Some(id)
    ensures
      var n := Exited(r, id, clean, now).1;
      && n.container.None? && n.phase == (if r.stopRequested || clean then Stopped else Crashed)
      && n.spec == r.spec && n.stopRequested == r.stopRequested && n.installing == r.installing && n.ready == r.ready
  {
  }

  predicate IsRestart(pc: Pc) { pc.Sleeping? || (pc.WaitOp? && pc.op.CrashRestart?) }

  /** No step of thread t makes thread u, if it is not there, one that is to restart the instance. */
  ghost predicate MakesNoRestart(s: State, t: ThreadId, n: State, u: ThreadId) {
    n.threads.Keys == s.threads.Keys + {t} && (u == t && u in n.threads ==> !IsRestart(n.threads[u]))
  }

  lemma QueueMakesNoRestart(s: State, t: ThreadId, act: QueueAct, u: ThreadId)
    requires QueueEnabled(s, t, act) && u !in s.threads
    ensures MakesNoRestart(s, t, DoQueue(s, t, act), u)
  {
  }

  lemma {:induction false} MovesMakeNoRestart(s: State, step: Step, u: ThreadId)
    requires Enabled(s, step) && u !in s.threads && !step.QueueStep? && !step.WorldStep?
    ensures u !in Do(s, step).threads
  {
    match step
    case StartStep(t, act) => assert DoStart(s, t, act).threads.Keys == s.threads.Keys;
    case EnsureStep(t, act) => assert DoEnsure(s, t, act).threads.Keys == s.threads.Keys;
    case StopStep(t, act) => assert DoStop(s, t, act).threads.Keys == s.threads.Keys;
    case OtherStep(t, act) => assert DoOther(s, t, act).threads.Keys == s.threads.Keys;
    case DumpStep(t, act) => assert DoDump(s, t, act).threads.Keys == s.threads.Keys;
  }

  lemma WorldMakesRestart(s: State, act: WorldAct, u: ThreadId)
    requires WorldEnabled(s, act) && u !in s.threads
    ensures u in DoWorld(s, act).threads && IsRestart(DoWorld(s, act).threads[u])
       <==> Grants(s, WorldStep(act)) && u == act.spawned
  {
  }

  /** A thread that is to restart a crashed instance comes with a grant, and every grant makes one. */
  lemma RestartsComeFromGrants(s: State, step: Step, u: ThreadId)
    requires Enabled(s, step) && u !in s.threads
    ensures u in Do(s, step).threads && IsRestart(Do(s, step).threads[u])
       <==> Grants(s, step) && u == step.world.spawned
  {
    match step
    case QueueStep(t, act) => QueueMakesNoRestart(s, t, act, u);
    case WorldStep(act) => WorldMakesRestart(s, act, u);
    case _ => MovesMakeNoRestart(s, step, u);
  }

  lemma FromRestartCheck(s: State, u: ThreadId)
    requires At(s, u, RestartCheck) && RestartStillWanted(s.record)
    ensures CanTrackBy(s, u)
  {
    var step := OtherStep(u, RestartSection);
    InvKept(s, step);
    FromStartEntry(Do(s, step), u, CrashRestart, s.record.spec.value);
    CanTrackLater(s, step, u);
  }

  lemma FromRestartWait(s: State, u: ThreadId)
    requires At(s, u, WaitOp(CrashRestart)) && s.opOwner.None? && RestartStillWanted(s.record)
    ensures CanTrackBy(s, u)
  {
    var step := QueueStep(u, LockOp);
    InvKept(s, step);
    FromRestartCheck(Do(s, step), u);
    CanTrackLater(s, step, u);
  }

  lemma FromSleeping(s: State, u: ThreadId)
    requires At(s, u, Sleeping) && s.opOwner.None? && RestartStillWanted(s.record)
    ensures CanTrackBy(s, u)
  {
    var step := QueueStep(u, DelayOver);
    InvKept(s, step);
    FromRestartWait(Do(s, step), u);
    CanTrackLater(s, step, u);
  }

  /** A granted crash restart is wanted, and its own thread can bring the game up again: in every reachable
      state with opMu free, without a new request. */
  lemma GrantedRestartRuns(s: State, step: Step)
    requires Reachable(s) && Enabled(s, step) && Grants(s, step) && s.opOwner.None?
    ensures RestartStillWanted(Do(s, step).record)
    ensures CanTrackBy(Do(s, step), step.world.spawned)
  {
    ReachableInv(s);
    InvKept(s, step);
    FromSleeping(Do(s, step), step.world.spawned);
  }

  // ---- a start has the settings it was given ----

  /** What the record says while its settings are in use: a start or an install under way has its own, and
      an instance that waits for the ready line has a pattern for it. */
  ghost predicate InUse(s: State) {
    && (s.record.phase.Starting? ==> s.record.ready)
    && (s.opOwner.Some? && s.opOwner.value in s.threads ==>
          var pc := s.threads[s.opOwner.value];
          && (InStart(pc) && !pc.StartFailing? ==>
                s.record.spec == Some(pc.spec) && s.record.ready == pc.spec.readyPattern)
          && (pc.InstallRuns? ==> s.record.spec == Some(pc.spec)))
  }

  lemma QueueInUse(s: State, t: ThreadId, act: QueueAct)
    requires Locks(s) && InUse(s) && QueueEnabled(s, t, act)
    ensures InUse(DoQueue(s, t, act))
  {
  }

  lemma StartInUse(s: State, t: ThreadId, act: StartAct)
    requires Inv(s) && InUse(s) && StartEnabled(s, t, act)
    ensures InUse(DoStart(s, t, act))
  {
    StartHoldsOp(s, t, act);
  }

  lemma EnsureInUse(s: State, t: ThreadId, act: EnsureAct)
    requires Locks(s) && InUse(s) && EnsureEnabled(s, t, act)
    ensures InUse(DoEnsure(s, t, act))
  {
  }

  lemma StopInUse(s: State, t: ThreadId, act: StopAct)
    requires Inv(s) && InUse(s) && StopEnabled(s, t, act)
    ensures InUse(DoStop(s, t, act))
  {
    StopHoldsOp(s, t, act);
  }

  lemma OtherInUse(s: State, t: ThreadId, act: OtherAct)
    requires Inv(s) && InUse(s) && OtherEnabled(s, t, act)
    ensures InUse(DoOther(s, t, act))
  {
    OtherHoldsOp(s, t, act);
  }

  lemma DumpInUse(s: State, t: ThreadId, act: DumpAct)
    requires Locks(s) && InUse(s) && DumpEnabled(s, t, act)
    ensures InUse(DoDump(s, t, act))
  {
  }

  lemma WorldInUse(s: State, act: WorldAct)
    requires Inv(s) && InUse(s) && WorldEnabled(s, act)
    ensures InUse(DoWorld(s, act))
  {
  }

  lemma StepInUse(s: State, step: Step)
    requires Inv(s) && InUse(s) && Enabled(s, step)
    ensures InUse(Do(s, step))
  {
    match step
    case QueueStep(t, act) => QueueInUse(s, t, act);
    case StartStep(t, act) => StartInUse(s, t, act);
    case EnsureStep(t, act) => EnsureInUse(s, t, act);
    case StopStep(t, act) => StopInUse(s, t, act);
    case OtherStep(t, act) => OtherInUse(s, t, act);
    case DumpStep(t, act) => DumpInUse(s, t, act);
    case WorldStep(act) => WorldInUse(s, act);
  }

  lemma {:induction false} RunInUse(s: State, steps: seq<Step>)
    requires Inv(s) && InUse(s) && Run(s, steps)
    ensures InUse(After(s, steps))
    decreases steps
  {
    if steps != [] {
      InvKept(s, steps[0]);
      StepInUse(s, steps[0]);
      RunInUse(Do(s, steps[0]), steps[1..]);
    }
  }

  lemma ReachableInUse(s: State)
    requires Reachable(s)
    ensures InUse(s)
  {
    var init, steps :| Initial(init) && Run(init, steps) && After(init, steps) == s;
    RunInUse(init, steps);
  }

  /** An instance that is starting is never stuck there: it becomes running with the first line that
      matches, and no other line changes anything. */
  lemma StartingRunsOnMatch(s: State, matches: bool)
    requires Reachable(s)
    ensures Do(s, WorldStep(Line(matches))) ==
            if s.record.phase.Starting? && matches then s.(record := s.record.(phase := Running)) else s
  {
    ReachableInUse(s);
  }

  /** A container is tracked with the settings its start was given, whatever happened since its first
      section: it waits for a ready line exactly if they have a pattern for it. */
  lemma TrackedAsAsked(s: State, t: ThreadId)
    requires Reachable(s) && StartEnabled(s, t, TrackSection)
    ensures
      var spec, n := s.threads[t].spec, DoStart(s, t, TrackSection);
      && n.record.spec == Some(spec) && n.record.ready == spec.readyPattern && n.gameUsesDb == spec.database
      && n.record.container == Some(s.threads[t].id)
      && n.record.phase == (if spec.readyPattern then Starting else Running)
  {
    ReachableInUse(s);
    ReachableInv(s);
    StartHoldsOp(s, t, TrackSection);
  }

  /** A start, restart or crash restart ends well exactly when it leaves a game up, and badly only with the
      instance stopped. */
  lemma StartEnds(s: State, t: ThreadId, act: StartAct)
    requires Reachable(s) && StartEnabled(s, t, act) && DoStart(s, t, act).threads[t].Returning?
    ensures
      var n := DoStart(s, t, act);
      && (n.threads[t].ok <==> Up(n.record.phase)) && (n.threads[t].ok <==> n.record.container.Some?)
      && (!n.threads[t].ok ==> n.record.phase.Stopped?)
  {
    ReachableInv(s);
    StartHoldsOp(s, t, act);
  }

  /** An install ran with the settings it was given, and ends with the instance stopped. */
  lemma InstallEnds(s: State, t: ThreadId, ok: bool)
    requires Reachable(s) && OtherEnabled(s, t, InstallOver(ok))
    ensures
      var n := DoOther(s, t, InstallOver(ok));
      && n.record.spec == Some(s.threads[t].spec) && n.record.phase.Stopped? && !n.record.installing
      && n.threads[t] == Returning(Install(s.threads[t].spec), ok)
  {
    ReachableInUse(s);
    ReachableInv(s);
    OtherHoldsOp(s, t, InstallOver(ok));
  }

  // ---- a stop stops the database too ----

  /** Stopping the database after the game: no game is up at that moment, so the server does not run
      after it. */
  lemma StopStopsDatabase(s: State, t: ThreadId)
    requires Reachable(s) && StopEnabled(s, t, DbStopped)
    ensures
      var n := DoStop(s, t, DbStopped);
      !n.dbUp && n.record.container.None? && n.record.phase.Stopped? && n.dbOwner.None?
  {
    ReachableInv(s);
    StopHoldsOp(s, t, DbStopped);
  }

  /** The step gives Stop or Remove its result after it told the database to stop. */
  predicate StopsWell(s: State, step: Step)
    requires Enabled(s, step)
  {
    step.StopStep? && Do(s, step).threads[step.t].Returning? && Do(s, step).threads[step.t].ok
  }

  lemma ReturnsAfterDatabase(s: State, t: ThreadId, act: StopAct)
    requires StopEnabled(s, t, act) && DoStop(s, t, act).threads[t].Returning? && DoStop(s, t, act).threads[t].ok
    ensures act.DbStopped?
  {
  }

  /** A Stop returns without an error only from that step: neither the game nor its database runs then. */
  lemma StopEnds(s: State, step: Step)
    requires Reachable(s) && Enabled(s, step) && StopsWell(s, step)
    ensures !Do(s, step).dbUp && Do(s, step).record.phase.Stopped? && Do(s, step).record.container.None?
  {
    ReturnsAfterDatabase(s, step.t, step.stop);
    StopStopsDatabase(s, step.t);
  }

  /** A Remove that goes on leaves no database server either, whether or not it could stop the game. */
  lemma RemoveEnds(s: State, t: ThreadId)
    requires Reachable(s) && OtherEnabled(s, t, Removed)
    ensures
      var n := DoOther(s, t, Removed);
      && !n.dbUp && n.threads[t] == Returning(Remove, true)
      && (n.record.phase.Stopped? || (n.record.stopRequested && s.threads[t].stopFailed))
  {
    ReachableInv(s);
    ReachableSettles(s);
    OtherHoldsOp(s, t, Removed);
  }
}
