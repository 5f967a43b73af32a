/** What holds in every interleaving of an instance's operations, from its first state on. */
module LifecycleRuns {
  import opened Common
  import opened InstanceRecord
  import opened Lifecycle
  import opened LifecycleInv

  // ---- whole runs ----

  predicate Run(s: State, steps: seq<Step>)
    decreases steps
  {
    steps == [] || (Enabled(s, steps[0]) && Run(Do(s, steps[0]), steps[1..]))
  }

  function After(s: State, steps: seq<Step>): State
    requires Run(s, steps)
    decreases steps
  {
    if steps == [] then s else After(Do(s, steps[0]), steps[1..])
  }

  /** A record just made, or one Reconcile filled in: nothing runs, or the container a previous agent
      process left running was tracked again. */
  predicate Initial(s: State) {
    && s.threads == map[] && s.opOwner.None? && s.dbOwner.None? && s.exits == []
    && !s.record.installing && s.record.crashes == []
    && if s.record.container.None? then s.watchers == map[] && (s.record.phase.Stopped? || s.record.phase.Crashed?)
       else
         && s.watchers == map[s.record.container.value := Waiting] && s.record.phase.Running?
  }

  ghost predicate Reachable(s: State) {
    exists init, steps :: Initial(init) && Run(init, steps) && After(init, steps) == s
  }

  lemma {:induction false} RunKeepsInv(s: State, steps: seq<Step>)
    requires Inv(s) && Run(s, steps)
    ensures Inv(After(s, steps))
    decreases steps
  {
    if steps != [] {
      InvKept(s, steps[0]);
      RunKeepsInv(Do(s, steps[0]), steps[1..]);
    }
  }

  lemma ReachableInv(s: State)
    requires Reachable(s)
    ensures Inv(s)
  {
    var init, steps :| Initial(init) && Run(init, steps) && After(init, steps) == s;
    RunKeepsInv(init, steps);
  }

  lemma {:induction false} RunOneMore(s: State, steps: seq<Step>, step: Step)
    requires Run(s, steps) && Enabled(After(s, steps), step)
    ensures Run(s, steps + [step]) && After(s, steps + [step]) == Do(After(s, steps), step)
    decreases steps
  {
    if steps == [] {
      assert [step][1..] == [];
    } else {
      assert (steps + [step])[1..] == steps[1..] + [step];
      RunOneMore(Do(s, steps[0]), steps[1..], step);
    }
  }

  lemma StepReaches(s: State, step: Step)
    requires Reachable(s) && Enabled(s, step)
    ensures Reachable(Do(s, step))
  {
    var init, steps :| Initial(init) && Run(init, steps) && After(init, steps) == s;
    RunOneMore(init, steps, step);
  }

  lemma Take(s: State, step: Step) returns (s': State)
    requires Reachable(s) && Enabled(s, step)
    ensures s' == Do(s, step) && Reachable(s')
  {
    StepReaches(s, step);
    s' := Do(s, step);
  }

  /** An id that none of these are, for a thread or a container. */
  lemma {:induction false} Above(ids: set<nat>) returns (t: nat)
    ensures forall u :: u in ids ==> u < t
    decreases ids
  {
    if ids == {} {
      t := 0;
    } else {
      var u :| u in ids;
      t := Above(ids - {u});
      t := if u < t then t else u + 1;
      assert forall v :: v in ids ==> v == u || v in ids - {u};
    }
  }

  // ---- what the record says ----

  /** A container id is held exactly while the instance is starting, running or stopping, and
      `installing` is set exactly while an Install that holds opMu is past its first section. */
  lemma ContainerExactlyWhileUp(s: State)
    requires Reachable(s)
    ensures s.record.container.Some? <==> Up(s.record.phase)
    ensures s.record.installing <==> s.record.phase.Installing?
    ensures s.record.installing <==> exists t :: s.opOwner == Some(t) && t in s.threads && s.threads[t].InstallRuns?
  {
    ReachableInv(s);
  }

  /** No container is tracked over a live one; a watcher is never superseded; a stop never finds an
      install running, nor a start or a second install; a restart's start always goes ahead. */
  lemma DeadBranches(s: State, step: Step)
    requires Reachable(s) && Enabled(s, step)
    ensures step.StartStep? && step.start.TrackSection? ==> s.record.container.None?
    ensures step.WorldStep? && step.world.ExitSection? ==> s.record.container == Some(step.world.id)
    ensures step.StopStep? && step.stop.StopSection? ==> !StopBegin(s.record).0.InstallCancelled?
    ensures step.StartStep? && step.start.StartSection? ==>
              && !StartBegin(s.record, s.threads[step.t].spec).0.BusyInstalling?
              && (s.threads[step.t].op.Restart? ==> StartBegin(s.record, s.threads[step.t].spec).0.StartMayRun?)
    ensures step.OtherStep? && step.other.InstallSection? ==>
              !InstallBegin(s.record, s.threads[step.t].spec).0.AlreadyInstalling?
  {
    ReachableInv(s);
  }

  /** Every container ever tracked is the current one or has had its exit recorded, once. */
  lemma EachExitOnce(s: State, id: ContainerId)
    requires Reachable(s)
    ensures multiset(s.exits)[id] == if id in s.watchers && s.record.container != Some(id) then 1 else 0
  {
    ReachableInv(s);
    CountDistinct(s.exits, id);
  }

  lemma {:induction false} CountDistinct(xs: seq<ContainerId>, x: ContainerId)
    requires forall i, j :: 0 <= i < j < |xs| ==> xs[i] != xs[j]
    ensures multiset(xs)[x] == if x in xs then 1 else 0
  {
    if xs != [] {
      assert xs == [xs[0]] + xs[1..];
      CountDistinct(xs[1..], x);
    }
  }

  // ---- an operator's stop is final ----

  predicate BeginsRun(s: State, step: Step)
    requires Enabled(s, step)
  {
    && step.QueueStep? && step.queue.LockOp?
    && var op := s.threads[step.t].op; op.Start? || op.Restart? || op.Install?
  }

  /** No Start, Restart or Install gets opMu during the run. */
  predicate NoneBegins(s: State, steps: seq<Step>)
    requires Run(s, steps)
    decreases steps
  {
    steps == [] || (!BeginsRun(s, steps[0]) && NoneBegins(Do(s, steps[0]), steps[1..]))
  }

  predicate CannotStart(pc: Pc) {
    || ((pc.StopEntry? || pc.StopWaitDb? || pc.StopReadsUp? || pc.StopDb?) && (pc.op.Stop? || pc.op.Remove?))
    || pc.Removing? || pc.RestartCheck? || pc.Returning?
  }

  ghost predicate Quiet(s: State) {
    && s.record.phase.Stopped?
    && (s.opOwner.Some? && s.opOwner.value in s.threads ==> CannotStart(s.threads[s.opOwner.value]))
  }

  lemma QueueStaysQuiet(s: State, t: ThreadId, act: QueueAct)
    requires Inv(s) && Quiet(s) && QueueEnabled(s, t, act) && !BeginsRun(s, QueueStep(t, act))
    ensures Quiet(DoQueue(s, t, act))
  {
  }

  lemma NoStartWhileQuiet(s: State, t: ThreadId, act: StartAct)
    requires Locks(s) && Quiet(s)
    ensures !StartEnabled(s, t, act)
  {
    assert t in s.threads ==> (HoldsOp(s.threads[t]) <==> s.opOwner == Some(t));
  }

  lemma StopStaysQuiet(s: State, t: ThreadId, act: StopAct)
    requires Inv(s) && Quiet(s) && StopEnabled(s, t, act)
    ensures Quiet(DoStop(s, t, act))
  {
  }

  lemma OtherStaysQuiet(s: State, t: ThreadId, act: OtherAct)
    requires Inv(s) && Quiet(s) && OtherEnabled(s, t, act)
    ensures Quiet(DoOther(s, t, act))
  {
  }

  lemma NoEnsureWhileQuiet(s: State, t: ThreadId, act: EnsureAct)
    requires Locks(s) && Quiet(s)
    ensures !EnsureEnabled(s, t, act)
  {
    assert t in s.threads ==> (HoldsOp(s.threads[t]) <==> s.opOwner == Some(t));
  }

  lemma DumpStaysQuiet(s: State, t: ThreadId, act: DumpAct)
    requires Inv(s) && Quiet(s) && DumpEnabled(s, t, act)
    ensures Quiet(DoDump(s, t, act))
  {
  }

  lemma WorldStaysQuiet(s: State, act: WorldAct)
    requires Inv(s) && Quiet(s) && WorldEnabled(s, act)
    ensures Quiet(DoWorld(s, act))
  {
  }

  lemma QuietKept(s: State, step: Step)
    requires Inv(s) && Quiet(s) && Enabled(s, step) && !BeginsRun(s, step)
    ensures Quiet(Do(s, step))
  {
    match step
    case QueueStep(t, act) => QueueStaysQuiet(s, t, act);
    case StartStep(t, act) => NoStartWhileQuiet(s, t, act); assert false;
    case EnsureStep(t, act) => NoEnsureWhileQuiet(s, t, act); assert false;
    case StopStep(t, act) => StopStaysQuiet(s, t, act);
    case OtherStep(t, act) => OtherStaysQuiet(s, t, act);
    case DumpStep(t, act) => DumpStaysQuiet(s, t, act);
    case WorldStep(act) => WorldStaysQuiet(s, act);
  }

  lemma {:induction false} StaysQuiet(s: State, steps: seq<Step>)
    requires Inv(s) && Quiet(s) && Run(s, steps) && NoneBegins(s, steps)
    ensures Quiet(After(s, steps))
    decreases steps
  {
    if steps != [] {
      InvKept(s, steps[0]);
      QuietKept(s, steps[0]);
      StaysQuiet(Do(s, steps[0]), steps[1..]);
    }
  }

  /** When a Stop returns without an error the instance is stopped, and it stays so, whatever crash
      restarts, watchers and console lines are still to come, until a Start, Restart or Install. */
  lemma {:induction false} StopIsFinal(s: State, t: ThreadId, steps: seq<Step>)
    requires Reachable(s) && t in s.threads && s.threads[t] == Returning(Stop, true)
    requires Run(s, steps) && NoneBegins(s, steps)
    ensures After(s, steps).record.phase.Stopped? && After(s, steps).record.container.None?
  {
    ReachableInv(s);
    StaysQuiet(s, steps);
    RunKeepsInv(s, steps);
  }

  // ---- the locks cannot deadlock ----

  predicate Blocked(s: State, t: ThreadId) {
    && t in s.threads
    && ((s.threads[t].WaitOp? && s.opOwner.Some?) || (WaitsDb(s.threads[t]) && s.dbOwner.Some?))
  }

  /** Who a blocked thread waits for in the end: the holder of its lock, or the holder of dbMu when
      that one waits for dbMu itself. */
  function WaitsFor(s: State, t: ThreadId): ThreadId
    requires Blocked(s, t)
  {
    if WaitsDb(s.threads[t]) then s.dbOwner.value
    else if Blocked(s, s.opOwner.value) && s.dbOwner.Some? then s.dbOwner.value
    else s.opOwner.value
  }

  /** A step thread t can take, wherever it is, unless it is blocked or has nothing left to do. */
  function StepOf(t: ThreadId, pc: Pc): Step {
    match pc
    case Sleeping => QueueStep(t, DelayOver)
    case WaitOp(_) => QueueStep(t, LockOp)
    case StartEntry(_, _) => StartStep(t, StartSection)
    case Preparing(_, _) => StartStep(t, Prepared(false))
    case StartWaitDb(_, _) | StopWaitDb(_) | DumpWaitDb => QueueStep(t, LockDb)
    case Ensuring(_, _) => EnsureStep(t, DbNotEnsured)
    case Ensured(_, _, _) | DumpReturning => QueueStep(t, UnlockDb)
    case Creating(_, _) => StartStep(t, NotCreated)
    case Tracking(_, _, _) => StartStep(t, TrackSection)
    case StartFailing(_) => StartStep(t, FailSection)
    case StopEntry(_) => StopStep(t, StopSection)
    case AwaitExit(_, _) => StopStep(t, StopGaveUp)
    case StopReadsUp(_) => StopStep(t, UpSection)
    case StopDb(_, _) => StopStep(t, DbStopped)
    case InstallEntry(_) => OtherStep(t, InstallSection)
    case InstallRuns(_) => OtherStep(t, InstallOver(false))
    case Removing(_) => OtherStep(t, Removed)
    case RestartCheck => OtherStep(t, RestartSection)
    case Returning(_, _) => QueueStep(t, UnlockOp)
    case DumpInspect => DumpStep(t, InspectFailed)
    case DumpEnsuring => DumpStep(t, DumpDbNotEnsured)
    case DumpRuns(wasUp) => DumpStep(t, if wasUp then Ran else DumpUpSection)
    case DumpStopsDb(_) => DumpStep(t, DumpDbStopped)
    case Done => WorldStep(Line(false))
  }

  lemma HolderCanStep(s: State, u: ThreadId)
    requires Inv(s) && u in s.threads && !Blocked(s, u) && (HoldsOp(s.threads[u]) || HoldsDb(s.threads[u]))
    ensures Enabled(s, StepOf(u, s.threads[u]))
  {
  }

  /** A thread waiting for opMu holds nothing and one waiting for dbMu at most opMu, so waiting always
      ends at a thread that holds a lock, is not blocked itself and can take a step. */
  lemma NoDeadlock(s: State, t: ThreadId)
    requires Reachable(s) && Blocked(s, t)
    ensures s.threads[t].WaitOp? ==> !HoldsOp(s.threads[t]) && !HoldsDb(s.threads[t])
    ensures WaitsDb(s.threads[t]) ==> !HoldsDb(s.threads[t])
    ensures
      var u := WaitsFor(s, t);
      && u != t && u in s.threads && !Blocked(s, u)
      && (HoldsOp(s.threads[u]) || HoldsDb(s.threads[u]))
      && Enabled(s, StepOf(u, s.threads[u]))
  {
    ReachableInv(s);
    HolderCanStep(s, WaitsFor(s, t));
  }
}
