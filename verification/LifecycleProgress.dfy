/** Operations that can always still end well: a stop in progress, a restart's way through its stop, and a dump. */
module LifecycleProgress {
  import opened Common
  import opened InstanceRecord
  import opened Lifecycle
  import opened LifecycleInv
  import opened LifecycleRuns
  import opened LifecycleRemoval

  // ---- a stop ----

  /** Thread t's Stop returned without an error, and neither the game nor its database runs. */
  ghost predicate StoppedWell(s: State, t: ThreadId) {
    && t in s.threads && s.threads[t] == Returning(Stop, true)
    && s.record.phase.Stopped? && s.record.container.None? && !s.dbUp
  }

  /** Some run without new requests ends so. */
  ghost predicate CanStopWell(s: State, t: ThreadId) {
    exists steps :: Run(s, steps) && NoArrivals(steps) && StoppedWell(After(s, steps), t)
  }

  lemma CanStopLater(s: State, step: Step, t: ThreadId)
    requires Enabled(s, step) && !Arrives(step) && CanStopWell(Do(s, step), t)
    ensures CanStopWell(s, t)
  {
    var rest :| Run(Do(s, step), rest) && NoArrivals(rest) && StoppedWell(After(Do(s, step), rest), t);
    var steps := [step] + rest;
    assert steps[1..] == rest && steps[0] == step;
    assert Run(s, steps) && After(s, steps) == After(Do(s, step), rest);
    assert forall i :: 0 < i < |steps| ==> steps[i] == rest[i - 1];
  }

  lemma FromStopDb(s: State, t: ThreadId, up: bool)
    requires At(s, t, StopDb(Stop, up))
    ensures CanStopWell(s, t)
  {
    var step := StopStep(t, DbStopped);
    assert HoldsOp(s.threads[t]);
    var n := Do(s, step);
    assert StoppedWell(n, t);
    assert Run(n, []) && After(n, []) == n && NoArrivals([]);
    assert CanStopWell(n, t);
    CanStopLater(s, step, t);
  }

  lemma FromStopReadsUp(s: State, t: ThreadId)
    requires At(s, t, StopReadsUp(Stop))
    ensures CanStopWell(s, t)
  {
    var step := StopStep(t, UpSection);
    InvKept(s, step);
    FromStopDb(Do(s, step), t, s.record.container.Some?);
    CanStopLater(s, step, t);
  }

  /** A dump's next step towards giving back dbMu, and how many of them are left. */
  function Ending(pc: Pc): DumpAct
    requires InDump(pc) && !pc.DumpWaitDb? && !pc.DumpReturning?
  {
    match pc
    case DumpInspect => InspectFailed
    case DumpEnsuring => DumpDbNotEnsured
    case DumpRuns(wasUp) => if wasUp then Ran else DumpUpSection
    case DumpStopsDb(_) => DumpDbStopped
  }

  function Left(pc: Pc): nat {
    if pc.DumpInspect? || pc.DumpRuns? then 2 else if pc.DumpEnsuring? || pc.DumpStopsDb? then 1 else 0
  }

  lemma DumpMovesOn(s: State, d: ThreadId)
    requires Locks(s) && s.dbOwner == Some(d) && d in s.threads && InDump(s.threads[d]) && !s.threads[d].DumpReturning?
    ensures
      var step := DumpStep(d, Ending(s.threads[d]));
      && Enabled(s, step)
      && var n := Do(s, step);
         && n.dbOwner == s.dbOwner && d in n.threads && InDump(n.threads[d]) && Left(n.threads[d]) < Left(s.threads[d])
         && n.record == s.record && n.threads == s.threads[d := n.threads[d]]
  {
    assert HoldsDb(s.threads[d]);
  }

  lemma {:induction false} FromStopWait(s: State, t: ThreadId)
    requires At(s, t, StopWaitDb(Stop))
    ensures CanStopWell(s, t)
    decreases if s.dbOwner.Some? && s.dbOwner.value in s.threads then 1 + Left(s.threads[s.dbOwner.value]) else 0
  {
    if s.dbOwner.None? {
      var step := QueueStep(t, LockDb);
      InvKept(s, step);
      FromStopReadsUp(Do(s, step), t);
      CanStopLater(s, step, t);
    } else {
      var d := s.dbOwner.value;
      assert HoldsOp(s.threads[t]) && HoldsDb(s.threads[d]);
      assert InDump(s.threads[d]);
      var step := if s.threads[d].DumpReturning? then QueueStep(d, UnlockDb) else DumpStep(d, Ending(s.threads[d]));
      if !s.threads[d].DumpReturning? {
        DumpMovesOn(s, d);
      }
      InvKept(s, step);
      FromStopWait(Do(s, step), t);
      CanStopLater(s, step, t);
    }
  }

  function WatcherLeft(s: State, id: ContainerId): nat {
    if id !in s.watchers then 0 else match s.watchers[id] case Waiting => 2 case Recorded => 1 case Returned => 0
  }

  /** The next step of an awaited exit: it is recorded, its watcher returns, the thread that waits sees it. */
  lemma ExitMovesOn(s: State, t: ThreadId, op: Op, id: ContainerId) returns (step: Step)
    requires At(s, t, AwaitExit(op, id))
    ensures id in s.watchers && Enabled(s, step) && !Arrives(step) && Inv(Do(s, step))
    ensures
      if s.watchers[id].Returned? then At(Do(s, step), t, AfterStop(op))
      else At(Do(s, step), t, AwaitExit(op, id)) && WatcherLeft(Do(s, step), id) < WatcherLeft(s, id)
    ensures s.watchers[id].Returned? ==> !Up(Do(s, step).record.phase)
  {
    assert HoldsOp(s.threads[t]);
    match s.watchers[id] {
      case Waiting =>
        var spawned := Above(s.threads.Keys);
        assert spawned !in s.threads.Keys;
        step := WorldStep(ExitSection(id, true, 0, spawned));
      case Recorded => step := WorldStep(WatcherReturned(id));
      case Returned => step := StopStep(t, ExitSeen);
    }
    InvKept(s, step);
  }

  lemma {:induction false} FromAwaitExit(s: State, t: ThreadId, id: ContainerId)
    requires At(s, t, AwaitExit(Stop, id))
    ensures CanStopWell(s, t)
    decreases WatcherLeft(s, id)
  {
    var step := ExitMovesOn(s, t, Stop, id);
    if s.watchers[id].Returned? {
      FromStopWait(Do(s, step), t);
    } else {
      FromAwaitExit(Do(s, step), t, id);
    }
    CanStopLater(s, step, t);
  }

  lemma FromStopBegin(s: State, t: ThreadId)
    requires At(s, t, StopEntry(Stop))
    ensures CanStopWell(s, t)
  {
    var step := StopStep(t, StopSection);
    InvKept(s, step);
    match StopBegin(s.record).0 {
      case AwaitExitOf(id) => FromAwaitExit(Do(s, step), t, id);
      case _ => FromStopWait(Do(s, step), t);
    }
    CanStopLater(s, step, t);
  }

  predicate InStop(pc: Pc) {
    (pc.StopEntry? || pc.AwaitExit? || pc.StopWaitDb? || pc.StopReadsUp? || pc.StopDb?) && pc.op.Stop?
  }

  /** In every reachable state, wherever a Stop that holds opMu has got to, some run without new requests has it
      return without an error, with neither the game nor its database running. */
  lemma StopCanEnd(s: State, t: ThreadId)
    requires Reachable(s) && t in s.threads && InStop(s.threads[t])
    ensures CanStopWell(s, t)
  {
    ReachableInv(s);
    match s.threads[t] {
      case StopEntry(_) => FromStopBegin(s, t);
      case AwaitExit(_, id) => FromAwaitExit(s, t, id);
      case StopWaitDb(_) => FromStopWait(s, t);
      case StopReadsUp(_) => FromStopReadsUp(s, t);
      case StopDb(_, up) => FromStopDb(s, t, up);
    }
  }

  // ---- a restart ----

  lemma {:induction false} FromRestartExit(s: State, t: ThreadId, spec: Spec, id: ContainerId)
    requires At(s, t, AwaitExit(Restart(spec), id))
    ensures CanTrackBy(s, t)
    decreases WatcherLeft(s, id)
  {
    var step := ExitMovesOn(s, t, Restart(spec), id);
    if s.watchers[id].Returned? {
      FromStartEntry(Do(s, step), t, Restart(spec), spec);
    } else {
      FromRestartExit(Do(s, step), t, spec, id);
    }
    CanTrackLater(s, step, t);
  }

  /** In every reachable state, a Restart that holds opMu and begins, or waits for the game's exit, can bring the
      game up again. */
  lemma RestartCanEnd(s: State, t: ThreadId, spec: Spec)
    requires Reachable(s) && t in s.threads
    requires s.threads[t] == StopEntry(Restart(spec)) || (s.threads[t].AwaitExit? && s.threads[t].op == Restart(spec))
    ensures CanTrackBy(s, t)
  {
    ReachableInv(s);
    if s.threads[t].AwaitExit? {
      FromRestartExit(s, t, spec, s.threads[t].id);
    } else {
      var step := StopStep(t, StopSection);
      InvKept(s, step);
      match StopBegin(s.record).0 {
        case AwaitExitOf(id) => FromRestartExit(Do(s, step), t, spec, id);
        case _ => FromStartEntry(Do(s, step), t, Restart(spec), spec);
      }
      CanTrackLater(s, step, t);
    }
  }

  // ---- a dump ----

  /** A dump goes to work exactly when it found the server up and answering or made sure of it itself, and then
      the server is up; one that finds no server, or cannot look, is to start it. */
  lemma DumpsRunOnDatabase(s: State, t: ThreadId, act: DumpAct)
    requires DumpEnabled(s, t, act)
    ensures
      var n := DoDump(s, t, act);
      && (n.threads[t].DumpRuns? <==> act == InspectAnswered(true) || act.DumpDbEnsured?)
      && (n.threads[t].DumpRuns? ==> n.dbUp && n.threads[t].wasUp == act.InspectAnswered?)
      && (act == InspectFailed || (act.InspectAnswered? && !s.dbUp) ==> n.threads[t].DumpEnsuring?)
  {
  }

  /** A dump that started the server stops it at its end exactly when no game's container was recorded. */
  lemma DumpLeavesDatabase(s: State, t: ThreadId)
    requires Inv(s) && t in s.threads && s.threads[t] == DumpRuns(false)
    ensures
      var up := DumpStep(t, DumpUpSection);
      && Enabled(s, up) && Enabled(Do(s, up), DumpStep(t, DumpDbStopped))
      && var n := Do(Do(s, up), DumpStep(t, DumpDbStopped));
         n.threads[t].DumpReturning? && n.dbUp == (s.dbUp && s.record.container.Some?)
  {
  }
}
