/** When a Remove is final: what can still bring a game up on the record it took out of the registry. */
module LifecycleRemoval {
  import opened Common
  import opened InstanceRecord
  import opened Lifecycle
  import opened LifecycleInv
  import opened LifecycleRuns

  /** Requests made after a Remove returned get a new record; only those already here stay on this one. */
  predicate NoArrivals(steps: seq<Step>) {
    forall i :: 0 <= i < |steps| ==> !Arrives(steps[i])
  }

  predicate Arrives(step: Step) { step.QueueStep? && step.queue.Arrive? }

  predicate Tracks(step: Step) { step.StartStep? && step.start.TrackSection? }

  /** Some run without new requests ends with thread u tracking a container. */
  ghost predicate CanTrackBy(s: State, u: ThreadId) {
    exists steps, last ::
      Run(s, steps) && NoArrivals(steps) && Enabled(After(s, steps), last) && Tracks(last) && last.t == u
  }

  /** Some run without new requests tracks a container. */
  ghost predicate CanTrack(s: State) { exists u :: CanTrackBy(s, u) }

  /** Thread u waits for opMu with a Start or a Restart. */
  predicate StartWaitsAt(s: State, u: ThreadId) {
    u in s.threads && s.threads[u].WaitOp? && (s.threads[u].op.Start? || s.threads[u].op.Restart?)
  }

  ghost predicate StartWaits(s: State) { exists u :: StartWaitsAt(s, u) }

  // ---- what a Remove leaves ----

  predicate InRemoval(pc: Pc) { pc.Removing? || (pc.Returning? && pc.op.Remove?) }

  /** A Remove past its stop has the instance stopped, or will have it stopped by the exit it gave up on. */
  predicate Settles(r: Record) { r.phase.Stopped? || (r.stopRequested && !r.phase.Crashed? && !r.installing) }

  ghost predicate RemovalSettles(s: State) {
    s.opOwner.Some? && s.opOwner.value in s.threads && InRemoval(s.threads[s.opOwner.value]) ==> Settles(s.record)
  }

  lemma QueueSettles(s: State, t: ThreadId, act: QueueAct)
    requires Inv(s) && RemovalSettles(s) && QueueEnabled(s, t, act)
    ensures RemovalSettles(DoQueue(s, t, act))
  {
  }

  lemma StartSettles(s: State, t: ThreadId, act: StartAct)
    requires Inv(s) && RemovalSettles(s) && StartEnabled(s, t, act)
    ensures RemovalSettles(DoStart(s, t, act))
  {
    StartHoldsOp(s, t, act);
  }

  lemma EnsureSettles(s: State, t: ThreadId, act: EnsureAct)
    requires Inv(s) && RemovalSettles(s) && EnsureEnabled(s, t, act)
    ensures RemovalSettles(DoEnsure(s, t, act))
  {
  }

  lemma StopSettles(s: State, t: ThreadId, act: StopAct)
    requires Inv(s) && RemovalSettles(s) && StopEnabled(s, t, act)
    ensures RemovalSettles(DoStop(s, t, act))
  {
    StopHoldsOp(s, t, act);
  }

  lemma OtherSettles(s: State, t: ThreadId, act: OtherAct)
    requires Inv(s) && RemovalSettles(s) && OtherEnabled(s, t, act)
    ensures RemovalSettles(DoOther(s, t, act))
  {
    OtherHoldsOp(s, t, act);
  }

  lemma DumpSettles(s: State, t: ThreadId, act: DumpAct)
    requires Inv(s) && RemovalSettles(s) && DumpEnabled(s, t, act)
    ensures RemovalSettles(DoDump(s, t, act))
  {
  }

  lemma WorldSettles(s: State, act: WorldAct)
    requires Inv(s) && RemovalSettles(s) && WorldEnabled(s, act)
    ensures RemovalSettles(DoWorld(s, act))
  {
  }

  lemma StepSettles(s: State, step: Step)
    requires Inv(s) && RemovalSettles(s) && Enabled(s, step)
    ensures RemovalSettles(Do(s, step))
  {
    match step
    case QueueStep(t, act) => QueueSettles(s, t, act);
    case StartStep(t, act) => StartSettles(s, t, act);
    case EnsureStep(t, act) => EnsureSettles(s, t, act);
    case StopStep(t, act) => StopSettles(s, t, act);
    case OtherStep(t, act) => OtherSettles(s, t, act);
    case DumpStep(t, act) => DumpSettles(s, t, act);
    case WorldStep(act) => WorldSettles(s, act);
  }

  lemma {:induction false} RunSettles(s: State, steps: seq<Step>)
    requires Inv(s) && RemovalSettles(s) && Run(s, steps)
    ensures RemovalSettles(After(s, steps))
    decreases steps
  {
    if steps != [] {
      InvKept(s, steps[0]);
      StepSettles(s, steps[0]);
      RunSettles(Do(s, steps[0]), steps[1..]);
    }
  }

  lemma ReachableSettles(s: State)
    requires Reachable(s)
    ensures RemovalSettles(s)
  {
    var init, steps :| Initial(init) && Run(init, steps) && After(init, steps) == s;
    RunSettles(init, steps);
  }

  // ---- nothing waits: the removal is final ----

  predicate CannotTrack(pc: Pc) {
    || CannotStart(pc) || pc.InstallEntry? || pc.InstallRuns?
    || (pc.AwaitExit? && (pc.op.Stop? || pc.op.Remove?))
  }

  /** No Start or Restart waits, what holds opMu starts nothing, and the record is at rest or will be once
      the exit it waits for is recorded. */
  ghost predicate Gone(s: State) {
    && (s.record.phase.Stopped? || s.record.phase.Installing? || (s.record.stopRequested && Up(s.record.phase)))
    && !StartWaits(s)
    && (s.opOwner.Some? && s.opOwner.value in s.threads ==> CannotTrack(s.threads[s.opOwner.value]))
  }

  lemma QueueBringsNoStart(s: State, t: ThreadId, act: QueueAct, u: ThreadId)
    requires QueueEnabled(s, t, act) && !act.Arrive? && !StartWaitsAt(s, u)
    ensures !StartWaitsAt(DoQueue(s, t, act), u)
  {
  }

  lemma QueueStaysGone(s: State, t: ThreadId, act: QueueAct)
    requires Locks(s) && Owner(s) && Gone(s) && QueueEnabled(s, t, act) && !act.Arrive?
    ensures Gone(DoQueue(s, t, act))
  {
    assert !StartWaitsAt(s, t);
    forall u ensures !StartWaitsAt(DoQueue(s, t, act), u) {
      QueueBringsNoStart(s, t, act, u);
    }
  }

  lemma NoStartWhileGone(s: State, t: ThreadId, act: StartAct)
    requires Locks(s) && Gone(s)
    ensures !StartEnabled(s, t, act)
  {
    assert t in s.threads ==> (HoldsOp(s.threads[t]) <==> s.opOwner == Some(t));
  }

  lemma NoEnsureWhileGone(s: State, t: ThreadId, act: EnsureAct)
    requires Locks(s) && Gone(s)
    ensures !EnsureEnabled(s, t, act)
  {
    assert t in s.threads ==> (HoldsOp(s.threads[t]) <==> s.opOwner == Some(t));
  }

  lemma StopStaysGone(s: State, t: ThreadId, act: StopAct)
    requires Inv(s) && Gone(s) && StopEnabled(s, t, act)
    ensures Gone(DoStop(s, t, act))
  {
    StopHoldsOp(s, t, act);
    forall u ensures !StartWaitsAt(DoStop(s, t, act), u) {
      assert !StartWaitsAt(s, u);
    }
  }

  lemma OtherStaysGone(s: State, t: ThreadId, act: OtherAct)
    requires Inv(s) && Gone(s) && OtherEnabled(s, t, act)
    ensures Gone(DoOther(s, t, act))
  {
    OtherHoldsOp(s, t, act);
    forall u ensures !StartWaitsAt(DoOther(s, t, act), u) {
      assert !StartWaitsAt(s, u);
    }
  }

  lemma DumpStaysGone(s: State, t: ThreadId, act: DumpAct)
    requires Inv(s) && Gone(s) && DumpEnabled(s, t, act)
    ensures Gone(DoDump(s, t, act))
  {
    forall u ensures !StartWaitsAt(DoDump(s, t, act), u) {
      assert !StartWaitsAt(s, u);
    }
  }

  lemma WorldStaysGone(s: State, act: WorldAct)
    requires Inv(s) && Gone(s) && WorldEnabled(s, act)
    ensures Gone(DoWorld(s, act))
  {
    forall u ensures !StartWaitsAt(DoWorld(s, act), u) {
      assert !StartWaitsAt(s, u);
    }
  }

  /** Pending crash restarts, waiting installs, dumps, watchers and console lines change nothing about it. */
  lemma GoneKept(s: State, step: Step)
    requires Inv(s) && Gone(s) && Enabled(s, step) && !Arrives(step)
    ensures Gone(Do(s, step))
  {
    match step
    case QueueStep(t, act) => QueueStaysGone(s, t, act);
    case StartStep(t, act) => NoStartWhileGone(s, t, act); assert false;
    case EnsureStep(t, act) => NoEnsureWhileGone(s, t, act); assert false;
    case StopStep(t, act) => StopStaysGone(s, t, act);
    case OtherStep(t, act) => OtherStaysGone(s, t, act);
    case DumpStep(t, act) => DumpStaysGone(s, t, act);
    case WorldStep(act) => WorldStaysGone(s, act);
  }

  lemma {:induction false} StaysGone(s: State, steps: seq<Step>)
    requires Inv(s) && Gone(s) && Run(s, steps) && NoArrivals(steps)
    ensures Inv(After(s, steps)) && Gone(After(s, steps))
    decreases steps
  {
    if steps != [] {
      assert !Arrives(steps[0]);
      InvKept(s, steps[0]);
      GoneKept(s, steps[0]);
      assert forall i :: 0 <= i < |steps[1..]| ==> steps[1..][i] == steps[i + 1];
      StaysGone(Do(s, steps[0]), steps[1..]);
    }
  }

  lemma GoneCannotTrack(s: State)
    requires Inv(s) && Gone(s)
    ensures !CanTrack(s)
  {
    if u :| CanTrackBy(s, u) {
      var steps, last :| Run(s, steps) && NoArrivals(steps) && Enabled(After(s, steps), last) && Tracks(last);
      StaysGone(s, steps);
      NoStartWhileGone(After(s, steps), last.t, last.start);
      assert false;
    }
  }

  // ---- something waits: it can bring the game up ----

  lemma CanTrackLater(s: State, step: Step, u: ThreadId)
    requires Enabled(s, step) && !Arrives(step) && CanTrackBy(Do(s, step), u)
    ensures CanTrackBy(s, u)
  {
    var rest, last :| Run(Do(s, step), rest) && NoArrivals(rest) && Enabled(After(Do(s, step), rest), last)
                      && Tracks(last) && last.t == u;
    var steps := [step] + rest;
    assert steps[1..] == rest && steps[0] == step;
    assert Run(s, steps) && After(s, steps) == After(Do(s, step), rest);
    assert forall i :: 0 < i < |steps| ==> steps[i] == rest[i - 1];
  }

  ghost predicate At(s: State, u: ThreadId, pc: Pc) { Inv(s) && u in s.threads && s.threads[u] == pc }

  lemma FromTracking(s: State, u: ThreadId, op: Op, spec: Spec, id: ContainerId)
    requires At(s, u, Tracking(op, spec, id))
    ensures CanTrackBy(s, u)
  {
    var last := StartStep(u, TrackSection);
    assert Run(s, []) && After(s, []) == s && NoArrivals([]) && Enabled(s, last) && Tracks(last);
  }

  lemma FromCreating(s: State, u: ThreadId, op: Op, spec: Spec)
    requires At(s, u, Creating(op, spec))
    ensures CanTrackBy(s, u)
  {
    var id := Above(s.watchers.Keys);
    assert id !in s.watchers.Keys;
    var step := StartStep(u, Created(id));
    InvKept(s, step);
    FromTracking(Do(s, step), u, op, spec, id);
    CanTrackLater(s, step, u);
  }

  lemma FromEnsured(s: State, u: ThreadId, op: Op, spec: Spec)
    requires At(s, u, Ensured(op, spec, true))
    ensures CanTrackBy(s, u)
  {
    var step := QueueStep(u, UnlockDb);
    InvKept(s, step);
    FromCreating(Do(s, step), u, op, spec);
    CanTrackLater(s, step, u);
  }

  lemma FromEnsuring(s: State, u: ThreadId, op: Op, spec: Spec)
    requires At(s, u, Ensuring(op, spec))
    ensures CanTrackBy(s, u)
  {
    var step := EnsureStep(u, DbEnsured);
    InvKept(s, step);
    FromEnsured(Do(s, step), u, op, spec);
    CanTrackLater(s, step, u);
  }

  lemma FromDbFree(s: State, u: ThreadId, op: Op, spec: Spec)
    requires At(s, u, StartWaitDb(op, spec)) && s.dbOwner.None?
    ensures CanTrackBy(s, u)
  {
    var step := QueueStep(u, LockDb);
    InvKept(s, step);
    FromEnsuring(Do(s, step), u, op, spec);
    CanTrackLater(s, step, u);
  }

  /** How many steps a dump or import that holds dbMu is from giving it back. */
  function DumpLeft(pc: Pc): nat {
    match pc
    case DumpInspect => 4
    case DumpEnsuring | DumpRuns(_) => 3
    case DumpStopsDb(_) => 2
    case DumpReturning => 1
    case _ => 0
  }

  /** Whoever holds dbMu while a start waits for it is a dump or import. */
  lemma DumpHolds(s: State, u: ThreadId)
    requires Inv(s) && u in s.threads && s.threads[u].StartWaitDb? && s.dbOwner.Some?
    ensures s.dbOwner.value in s.threads && DumpLeft(s.threads[s.dbOwner.value]) > 0 && s.dbOwner.value != u
  {
    var v := s.dbOwner.value;
    assert HoldsDb(s.threads[v]) && HoldsOp(s.threads[u]);
    assert s.opOwner == Some(u);
    assert HoldsOp(s.threads[v]) <==> s.opOwner == Some(v);
  }

  /** What it does next, and that it gets closer to giving dbMu back. */
  function DumpNext(pc: Pc): DumpAct {
    match pc
    case DumpInspect => InspectFailed
    case DumpEnsuring => DumpDbNotEnsured
    case DumpRuns(wasUp) => if wasUp then Ran else DumpUpSection
    case _ => DumpDbStopped
  }

  lemma DumpGoesOn(s: State, v: ThreadId)
    requires v in s.threads && DumpLeft(s.threads[v]) > 1
    ensures DumpEnabled(s, v, DumpNext(s.threads[v]))
    ensures
      var n := DoDump(s, v, DumpNext(s.threads[v]));
      && v in n.threads && n.threads == s.threads[v := n.threads[v]] && n.dbOwner == s.dbOwner
      && 0 < DumpLeft(n.threads[v]) < DumpLeft(s.threads[v])
  {
  }

  lemma FromDbHeld(s: State, u: ThreadId, op: Op, spec: Spec, v: ThreadId)
    requires At(s, u, StartWaitDb(op, spec)) && v in s.threads && v != u && s.dbOwner == Some(v)
    requires DumpLeft(s.threads[v]) > 0
    ensures CanTrackBy(s, u)
    decreases DumpLeft(s.threads[v])
  {
    if s.threads[v].DumpReturning? {
      var step := QueueStep(v, UnlockDb);
      InvKept(s, step);
      FromDbFree(Do(s, step), u, op, spec);
      CanTrackLater(s, step, u);
    } else {
      DumpGoesOn(s, v);
      var step := DumpStep(v, DumpNext(s.threads[v]));
      InvKept(s, step);
      FromDbHeld(Do(s, step), u, op, spec, v);
      CanTrackLater(s, step, u);
    }
  }

  lemma FromDbWait(s: State, u: ThreadId, op: Op, spec: Spec)
    requires At(s, u, StartWaitDb(op, spec))
    ensures CanTrackBy(s, u)
  {
    if s.dbOwner.None? {
      FromDbFree(s, u, op, spec);
    } else {
      DumpHolds(s, u);
      FromDbHeld(s, u, op, spec, s.dbOwner.value);
    }
  }

  lemma FromPreparing(s: State, u: ThreadId, op: Op, spec: Spec)
    requires At(s, u, Preparing(op, spec))
    ensures CanTrackBy(s, u)
  {
    var step := StartStep(u, Prepared(true));
    InvKept(s, step);
    if spec.database {
      FromDbWait(Do(s, step), u, op, spec);
    } else {
      FromCreating(Do(s, step), u, op, spec);
    }
    CanTrackLater(s, step, u);
  }

  lemma FromStartEntry(s: State, u: ThreadId, op: Op, spec: Spec)
    requires At(s, u, StartEntry(op, spec)) && !Up(s.record.phase)
    ensures CanTrackBy(s, u)
  {
    var step := StartStep(u, StartSection);
    InvKept(s, step);
    FromPreparing(Do(s, step), u, op, spec);
    CanTrackLater(s, step, u);
  }

  lemma FromStopEntry(s: State, u: ThreadId, spec: Spec)
    requires At(s, u, StopEntry(Restart(spec))) && s.record.phase.Stopped?
    ensures CanTrackBy(s, u)
  {
    var step := StopStep(u, StopSection);
    InvKept(s, step);
    FromStartEntry(Do(s, step), u, Restart(spec), spec);
    CanTrackLater(s, step, u);
  }

  lemma FromWaiting(s: State, u: ThreadId)
    requires Inv(s) && StartWaitsAt(s, u) && s.opOwner.None? && s.record.phase.Stopped?
    ensures CanTrackBy(s, u)
  {
    var step := QueueStep(u, LockOp);
    InvKept(s, step);
    match s.threads[u].op
    case Start(spec) => FromStartEntry(Do(s, step), u, Start(spec), spec); CanTrackLater(s, step, u);
    case Restart(spec) => FromStopEntry(Do(s, step), u, spec); CanTrackLater(s, step, u);
  }

  lemma FromReturning(s: State, t: ThreadId, u: ThreadId)
    requires At(s, t, Returning(Remove, true)) && StartWaitsAt(s, u) && s.record.phase.Stopped?
    ensures CanTrackBy(s, u)
  {
    var step := QueueStep(t, UnlockOp);
    InvKept(s, step);
    FromWaiting(Do(s, step), u);
    CanTrackLater(s, step, u);
  }

  /** A Remove that gave up on the stop: the exit is still to come, and settles on stopped. */
  lemma FromGivenUp(s: State, t: ThreadId, u: ThreadId)
    requires At(s, t, Returning(Remove, true)) && StartWaitsAt(s, u) && RemovalSettles(s)
    ensures CanTrackBy(s, u)
  {
    assert s.opOwner == Some(t);
    if s.record.phase.Stopped? {
      FromReturning(s, t, u);
    } else {
      var spawned := Above(s.threads.Keys);
      assert spawned !in s.threads.Keys;
      var step := WorldStep(ExitSection(s.record.container.value, true, 0, spawned));
      InvKept(s, step);
      FromReturning(Do(s, step), t, u);
      CanTrackLater(s, step, u);
    }
  }

  lemma ReturningIsGone(s: State, t: ThreadId)
    requires At(s, t, Returning(Remove, true)) && RemovalSettles(s) && !StartWaits(s)
    ensures Gone(s)
  {
    assert s.opOwner == Some(t);
  }

  /** When a Remove returns: without a new request, some run tracks a container on its record exactly when
      a Start or a Restart waits for opMu. Nothing else that is pending - crash restarts, installs, dumps,
      the exit of a game that could not be stopped - brings anything up. */
  lemma RemoveIsFinalIff(s: State, t: ThreadId)
    requires Reachable(s) && t in s.threads && s.threads[t] == Returning(Remove, true)
    ensures CanTrack(s) <==> StartWaits(s)
  {
    ReachableInv(s);
    ReachableSettles(s);
    if StartWaits(s) {
      var u :| StartWaitsAt(s, u);
      FromGivenUp(s, t, u);
    } else {
      ReturningIsGone(s, t);
      GoneCannotTrack(s);
    }
  }

  // ---- and a start does wait there ----

  const GAME := Spec(false, false, false)

  /** Thread 0 is at pc with a Remove and thread 1 waits with a Start. */
  ghost predicate Meeting(s: State, pc: Pc, db: Option<ThreadId>) {
    && Reachable(s) && s.record.container.None? && s.record.phase.Stopped? && !s.record.installing
    && s.threads == map[0 := pc, 1 := WaitOp(Start(GAME))] && s.opOwner == Some(0) && s.dbOwner == db
  }

  lemma RemoveBegins() returns (s: State)
    ensures Meeting(s, StopEntry(Remove), None)
  {
    var s0 := State(Record(Stopped, None, false, false, false, None, []), map[], None, None, map[], [], false, false);
    assert Run(s0, []) && After(s0, []) == s0;
    var s1 := Take(s0, QueueStep(0, Arrive(Remove)));
    var s2 := Take(s1, QueueStep(0, LockOp));
    s := Take(s2, QueueStep(1, Arrive(Start(GAME))));
  }

  lemma RemoveTakesDatabase() returns (s: State)
    ensures Meeting(s, StopReadsUp(Remove), Some(0))
  {
    var before := RemoveBegins();
    var stopped := Take(before, StopStep(0, StopSection));
    s := Take(stopped, QueueStep(0, LockDb));
  }

  lemma RemoveStopsDatabase() returns (s: State)
    ensures Meeting(s, Removing(false), None)
  {
    var before := RemoveTakesDatabase();
    var read := Take(before, StopStep(0, UpSection));
    s := Take(read, StopStep(0, DbStopped));
  }

  /** A start can wait when a Remove returns, so a Remove is not always final. */
  lemma RemovalMeetsStart() returns (s: State, t: ThreadId)
    ensures Reachable(s) && t in s.threads && s.threads[t] == Returning(Remove, true)
    ensures StartWaits(s) && CanTrack(s)
  {
    var before := RemoveStopsDatabase();
    s := Take(before, OtherStep(0, Removed));
    t := 0;
    assert StartWaitsAt(s, 1);
    RemoveIsFinalIff(s, t);
  }
}
