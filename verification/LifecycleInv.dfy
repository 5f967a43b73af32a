/** What every step of an instance's lifecycle keeps: the locks go with the positions of the threads,
    a container id with the instance being up, the install flag with an Install under way, and
    what the holder of opMu relies on. One lemma per group of steps and part of the invariant;
    together they are InvKept. */
module LifecycleInv {
  import opened Common
  import opened InstanceRecord
  import opened Lifecycle

  // ---- what every reachable state satisfies ----

  ghost predicate Locks(s: State) {
    && (forall t :: t in s.threads ==> (HoldsOp(s.threads[t]) <==> s.opOwner == Some(t)))
    && (forall t :: t in s.threads ==> (HoldsDb(s.threads[t]) <==> s.dbOwner == Some(t)))
    && (s.opOwner.Some? ==> s.opOwner.value in s.threads)
    && (s.dbOwner.Some? ==> s.dbOwner.value in s.threads)
  }

  ghost predicate Containers(s: State) {
    && (s.record.container.Some? <==> Up(s.record.phase))
    && (s.record.container.Some? ==>
          s.record.container.value in s.watchers && s.watchers[s.record.container.value].Waiting?)
    && (forall id :: id in s.watchers && s.watchers[id].Waiting? ==> s.record.container == Some(id))
    && (forall id :: id in s.watchers && !s.watchers[id].Waiting? ==> id in s.exits)
    && (forall i :: 0 <= i < |s.exits| ==> s.exits[i] in s.watchers && !s.watchers[s.exits[i]].Waiting?)
    && (forall i, j :: 0 <= i < j < |s.exits| ==> s.exits[i] != s.exits[j])
  }

  predicate Installs(pc: Pc) { pc.InstallRuns? }

  ghost predicate InstallFlag(s: State) {
    && (s.record.installing <==> s.record.phase.Installing?)
    && (s.record.installing <==>
          s.opOwner.Some? && s.opOwner.value in s.threads && Installs(s.threads[s.opOwner.value]))
  }

  /** Between start's first section and its end nothing runs and nothing else can start anything. */
  predicate InStart(pc: Pc) {
    || pc.Preparing? || pc.StartWaitDb? || pc.Ensuring? || pc.Ensured? || pc.Creating? || pc.Tracking?
    || pc.StartFailing?
  }

  predicate Starts(op: Op) { op.Start? || op.Restart? || op.CrashRestart? }

  /** What the thread holding opMu relies on. */
  predicate OwnerSees(s: State, pc: Pc) {
    if InStart(pc) then
      && s.record.container.None? && !s.record.stopRequested && Starts(pc.op)
      && (pc.Tracking? ==> pc.id !in s.watchers)
    else match pc
      case StartEntry(op, _) => Starts(op) && (op.Restart? ==> s.record.phase.Stopped?)
      case StopEntry(op) => op.Stop? || op.Restart? || op.Remove?
      case AwaitExit(op, id) =>
        && (op.Stop? || op.Restart? || op.Remove?)
        && id in s.watchers && s.record.stopRequested
        && if s.watchers[id].Waiting? then s.record.phase.Stopping? else s.record.phase.Stopped?
      case StopWaitDb(op) => (op.Stop? || op.Remove?) && s.record.phase.Stopped?
      case StopReadsUp(op) => (op.Stop? || op.Remove?) && s.record.phase.Stopped?
      case StopDb(op, up) => (op.Stop? || op.Remove?) && s.record.phase.Stopped? && !up
      case Removing(stopFailed) => stopFailed || s.record.phase.Stopped?
      case Returning(op, ok) => op.Stop? && ok ==> s.record.phase.Stopped?
      case _ => true
  }

  ghost predicate Owner(s: State) {
    s.opOwner.Some? && s.opOwner.value in s.threads ==> OwnerSees(s, s.threads[s.opOwner.value])
  }

  ghost predicate Inv(s: State) {
    Locks(s) && Containers(s) && InstallFlag(s) && Owner(s)
  }

  function OwnerAfter(owner: Option<ThreadId>, t: ThreadId, holds: bool): Option<ThreadId> {
    if holds then Some(t) else if owner == Some(t) then None else owner
  }

  /** The step moves one thread and hands the locks over the way that thread's position says. */
  predicate Moves(s: State, t: ThreadId, s': State) {
    && t in s'.threads
    && s'.threads == s.threads[t := s'.threads[t]]
    && (HoldsOp(s'.threads[t]) ==> s.opOwner.None? || s.opOwner == Some(t))
    && (HoldsDb(s'.threads[t]) ==> s.dbOwner.None? || s.dbOwner == Some(t))
    && s'.opOwner == OwnerAfter(s.opOwner, t, HoldsOp(s'.threads[t]))
    && s'.dbOwner == OwnerAfter(s.dbOwner, t, HoldsDb(s'.threads[t]))
  }

  /** A thread's own part of Locks, which is all its steps use. */
  predicate LocksOf(s: State, t: ThreadId) {
    if t in s.threads then
      && (HoldsOp(s.threads[t]) <==> s.opOwner == Some(t))
      && (HoldsDb(s.threads[t]) <==> s.dbOwner == Some(t))
    else s.opOwner != Some(t) && s.dbOwner != Some(t)
  }

  lemma LocksMoved(s: State, t: ThreadId, s': State)
    requires Locks(s) && Moves(s, t, s')
    ensures Locks(s')
  {
  }

  lemma QueueMoves(s: State, t: ThreadId, act: QueueAct)
    requires LocksOf(s, t) && QueueEnabled(s, t, act)
    ensures Moves(s, t, DoQueue(s, t, act))
  {
  }

  lemma QueueKeepsLocks(s: State, t: ThreadId, act: QueueAct)
    requires Locks(s) && QueueEnabled(s, t, act)
    ensures Locks(DoQueue(s, t, act))
  {
    QueueMoves(s, t, act);
    LocksMoved(s, t, DoQueue(s, t, act));
  }

  lemma QueueKeepsContainers(s: State, t: ThreadId, act: QueueAct)
    requires Locks(s) && Containers(s) && InstallFlag(s) && Owner(s) && QueueEnabled(s, t, act)
    ensures Containers(DoQueue(s, t, act)) && InstallFlag(DoQueue(s, t, act))
  {
  }

  lemma QueueKeepsOwner(s: State, t: ThreadId, act: QueueAct)
    requires Locks(s) && Containers(s) && InstallFlag(s) && Owner(s) && QueueEnabled(s, t, act)
    ensures Owner(DoQueue(s, t, act))
  {
  }

  lemma StartHoldsOp(s: State, t: ThreadId, act: StartAct)
    requires Locks(s) && StartEnabled(s, t, act)
    ensures s.opOwner == Some(t)
  {
    assert HoldsOp(s.threads[t]);
  }

  lemma StartMoves(s: State, t: ThreadId, act: StartAct)
    requires LocksOf(s, t) && StartEnabled(s, t, act)
    ensures Moves(s, t, DoStart(s, t, act))
  {
  }

  lemma StartKeepsLocks(s: State, t: ThreadId, act: StartAct)
    requires Locks(s) && StartEnabled(s, t, act)
    ensures Locks(DoStart(s, t, act))
  {
    StartMoves(s, t, act);
    LocksMoved(s, t, DoStart(s, t, act));
  }

  lemma StartKeepsContainers(s: State, t: ThreadId, act: StartAct)
    requires Locks(s) && Containers(s) && InstallFlag(s) && Owner(s) && StartEnabled(s, t, act)
    ensures Containers(DoStart(s, t, act)) && InstallFlag(DoStart(s, t, act))
  {
  }

  lemma StartOwnerSees(s: State, t: ThreadId, act: StartAct)
    requires Containers(s) && StartEnabled(s, t, act) && s.opOwner == Some(t) && OwnerSees(s, s.threads[t])
    ensures Owner(DoStart(s, t, act))
  {
  }

  lemma StartKeepsOwner(s: State, t: ThreadId, act: StartAct)
    requires Locks(s) && Containers(s) && InstallFlag(s) && Owner(s) && StartEnabled(s, t, act)
    ensures Owner(DoStart(s, t, act))
  {
    StartHoldsOp(s, t, act);
    StartOwnerSees(s, t, act);
  }

  lemma EnsureMoves(s: State, t: ThreadId, act: EnsureAct)
    requires LocksOf(s, t) && EnsureEnabled(s, t, act)
    ensures Moves(s, t, DoEnsure(s, t, act))
  {
  }

  lemma EnsureKeepsLocks(s: State, t: ThreadId, act: EnsureAct)
    requires Locks(s) && EnsureEnabled(s, t, act)
    ensures Locks(DoEnsure(s, t, act))
  {
    EnsureMoves(s, t, act);
    LocksMoved(s, t, DoEnsure(s, t, act));
  }

  lemma EnsureKeepsContainers(s: State, t: ThreadId, act: EnsureAct)
    requires Locks(s) && Containers(s) && InstallFlag(s) && Owner(s) && EnsureEnabled(s, t, act)
    ensures Containers(DoEnsure(s, t, act)) && InstallFlag(DoEnsure(s, t, act))
  {
  }

  lemma EnsureKeepsOwner(s: State, t: ThreadId, act: EnsureAct)
    requires Locks(s) && Containers(s) && InstallFlag(s) && Owner(s) && EnsureEnabled(s, t, act)
    ensures Owner(DoEnsure(s, t, act))
  {
  }

  lemma StopHoldsOp(s: State, t: ThreadId, act: StopAct)
    requires Locks(s) && StopEnabled(s, t, act)
    ensures s.opOwner == Some(t)
  {
    assert HoldsOp(s.threads[t]);
  }

  lemma StopMoves(s: State, t: ThreadId, act: StopAct)
    requires LocksOf(s, t) && StopEnabled(s, t, act)
    ensures Moves(s, t, DoStop(s, t, act))
  {
  }

  lemma StopKeepsLocks(s: State, t: ThreadId, act: StopAct)
    requires Locks(s) && StopEnabled(s, t, act)
    ensures Locks(DoStop(s, t, act))
  {
    StopMoves(s, t, act);
    LocksMoved(s, t, DoStop(s, t, act));
  }

  lemma StopKeepsContainers(s: State, t: ThreadId, act: StopAct)
    requires Locks(s) && Containers(s) && InstallFlag(s) && Owner(s) && StopEnabled(s, t, act)
    ensures Containers(DoStop(s, t, act)) && InstallFlag(DoStop(s, t, act))
  {
  }

  lemma StopOwnerSees(s: State, t: ThreadId, act: StopAct)
    requires Containers(s) && InstallFlag(s) && StopEnabled(s, t, act)
    requires s.opOwner == Some(t) && OwnerSees(s, s.threads[t])
    ensures Owner(DoStop(s, t, act))
  {
  }

  lemma StopKeepsOwner(s: State, t: ThreadId, act: StopAct)
    requires Locks(s) && Containers(s) && InstallFlag(s) && Owner(s) && StopEnabled(s, t, act)
    ensures Owner(DoStop(s, t, act))
  {
    StopHoldsOp(s, t, act);
    StopOwnerSees(s, t, act);
  }

  lemma OtherHoldsOp(s: State, t: ThreadId, act: OtherAct)
    requires Locks(s) && OtherEnabled(s, t, act)
    ensures s.opOwner == Some(t)
  {
    assert HoldsOp(s.threads[t]);
  }

  lemma OtherMoves(s: State, t: ThreadId, act: OtherAct)
    requires LocksOf(s, t) && OtherEnabled(s, t, act)
    ensures Moves(s, t, DoOther(s, t, act))
  {
  }

  lemma OtherKeepsLocks(s: State, t: ThreadId, act: OtherAct)
    requires Locks(s) && OtherEnabled(s, t, act)
    ensures Locks(DoOther(s, t, act))
  {
    OtherMoves(s, t, act);
    LocksMoved(s, t, DoOther(s, t, act));
  }

  lemma OtherKeepsContainers(s: State, t: ThreadId, act: OtherAct)
    requires Locks(s) && Containers(s) && InstallFlag(s) && Owner(s) && OtherEnabled(s, t, act)
    ensures Containers(DoOther(s, t, act)) && InstallFlag(DoOther(s, t, act))
  {
  }

  lemma OtherOwnerSees(s: State, t: ThreadId, act: OtherAct)
    requires Containers(s) && OtherEnabled(s, t, act) && s.opOwner == Some(t) && OwnerSees(s, s.threads[t])
    ensures Owner(DoOther(s, t, act))
  {
  }

  lemma OtherKeepsOwner(s: State, t: ThreadId, act: OtherAct)
    requires Locks(s) && Containers(s) && InstallFlag(s) && Owner(s) && OtherEnabled(s, t, act)
    ensures Owner(DoOther(s, t, act))
  {
    OtherHoldsOp(s, t, act);
    OtherOwnerSees(s, t, act);
  }

  lemma DumpMoves(s: State, t: ThreadId, act: DumpAct)
    requires LocksOf(s, t) && DumpEnabled(s, t, act)
    ensures Moves(s, t, DoDump(s, t, act))
  {
  }

  lemma DumpKeepsLocks(s: State, t: ThreadId, act: DumpAct)
    requires Locks(s) && DumpEnabled(s, t, act)
    ensures Locks(DoDump(s, t, act))
  {
    DumpMoves(s, t, act);
    LocksMoved(s, t, DoDump(s, t, act));
  }

  lemma DumpKeepsContainers(s: State, t: ThreadId, act: DumpAct)
    requires Locks(s) && Containers(s) && InstallFlag(s) && Owner(s) && DumpEnabled(s, t, act)
    ensures Containers(DoDump(s, t, act)) && InstallFlag(DoDump(s, t, act))
  {
  }

  lemma DumpKeepsOwner(s: State, t: ThreadId, act: DumpAct)
    requires Locks(s) && Containers(s) && InstallFlag(s) && Owner(s) && DumpEnabled(s, t, act)
    ensures Owner(DoDump(s, t, act))
  {
  }

  lemma WorldKeepsLocks(s: State, act: WorldAct)
    requires Inv(s) && WorldEnabled(s, act)
    ensures Locks(DoWorld(s, act))
  {
  }

  lemma ExitKeepsContainers(s: State, act: WorldAct)
    requires Containers(s) && InstallFlag(s) && act.ExitSection? && WorldEnabled(s, act)
    ensures Containers(DoWorld(s, act))
  {
    var n := DoWorld(s, act);
    assert s.record.container == Some(act.id);
    assert n.exits == s.exits + [act.id];
    assert forall i :: 0 <= i < |s.exits| ==> s.exits[i] in s.watchers && s.exits[i] != act.id;
  }

  lemma WorldKeepsContainers(s: State, act: WorldAct)
    requires Locks(s) && Containers(s) && InstallFlag(s) && Owner(s) && WorldEnabled(s, act)
    ensures Containers(DoWorld(s, act)) && InstallFlag(DoWorld(s, act))
  {
    if act.ExitSection? {
      ExitKeepsContainers(s, act);
    }
  }

  lemma WorldKeepsOwner(s: State, act: WorldAct)
    requires Inv(s) && WorldEnabled(s, act)
    ensures Owner(DoWorld(s, act))
  {
  }

  lemma InvKept(s: State, step: Step)
    requires Inv(s) && Enabled(s, step)
    ensures Inv(Do(s, step))
  {
    match step
    case QueueStep(t, act) =>
      QueueKeepsLocks(s, t, act); QueueKeepsContainers(s, t, act); QueueKeepsOwner(s, t, act);
    case StartStep(t, act) =>
      StartKeepsLocks(s, t, act); StartKeepsContainers(s, t, act); StartKeepsOwner(s, t, act);
    case EnsureStep(t, act) =>
      EnsureKeepsLocks(s, t, act); EnsureKeepsContainers(s, t, act); EnsureKeepsOwner(s, t, act);
    case StopStep(t, act) =>
      StopKeepsLocks(s, t, act); StopKeepsContainers(s, t, act); StopKeepsOwner(s, t, act);
    case OtherStep(t, act) =>
      OtherKeepsLocks(s, t, act); OtherKeepsContainers(s, t, act); OtherKeepsOwner(s, t, act);
    case DumpStep(t, act) =>
      DumpKeepsLocks(s, t, act); DumpKeepsContainers(s, t, act); DumpKeepsOwner(s, t, act);
    case WorldStep(act) =>
      WorldKeepsLocks(s, act); WorldKeepsContainers(s, act); WorldKeepsOwner(s, act);
  }
}
