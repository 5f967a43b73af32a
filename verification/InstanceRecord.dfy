/** The in-memory record of one instance (agent/internal/instances/manager.go) and what each critical
    section under its `mu` does to it. A section is a function on the record's value; the class below
    runs the same sections on mutable fields. */
module InstanceRecord {
  import opened Common
  import CrashBudget

  type ContainerId = nat

  datatype Phase = Stopped | Starting | Running | Stopping | Crashed | Installing

  datatype Spec = Spec(restartOnCrash: bool, readyPattern: bool, database: bool)

  datatype Record = Record(
    phase: Phase,
    container: Option<ContainerId>,
    stopRequested: bool,
    installing: bool,
    ready: bool,
    spec: Option<Spec>,
    crashes: seq<int>)

  predicate Up(phase: Phase) { phase.Starting? || phase.Running? || phase.Stopping? }

  // ---- the sections ----

  datatype InstallVerdict = MustStopFirst | AlreadyInstalling | InstallMayRun

  function InstallBegin(r: Record, spec: Spec): (InstallVerdict, Record) {
    if Up(r.phase) then (MustStopFirst, r)
    else if r.installing then (AlreadyInstalling, r)
    else (InstallMayRun, r.(spec := Some(spec), installing := true, phase := Installing))
  }

  function InstallEnd(r: Record): Record { r.(installing := false, phase := Stopped) }

  datatype StartVerdict = AlreadyUp | BusyInstalling | StartMayRun

  function StartBegin(r: Record, spec: Spec): (StartVerdict, Record) {
    if Up(r.phase) then (AlreadyUp, r)
    else if r.phase.Installing? then (BusyInstalling, r)
    else (StartMayRun, r.(spec := Some(spec), stopRequested := false, ready := spec.readyPattern))
  }

  function StartFailed(r: Record): Record { r.(phase := Stopped) }

  /** `readyNow` comes from the caller: a start gives the absence of a ready pattern, Reconcile true. */
  function Tracked(r: Record, id: ContainerId, readyNow: bool): Record {
    r.(container := Some(id), phase := if readyNow then Running else Starting)
  }

  /** A console line was handled; `matches` says whether the ready pattern matched it. */
  function LineHandled(r: Record, matches: bool): Record {
    if r.phase.Starting? && r.ready && matches then r.(phase := Running) else r
  }

  datatype ExitVerdict = Superseded | Settled | RestartLater

  /** The watcher of container id saw it exit at now; `clean` means exit code 0 and no error. */
  function Exited(r: Record, id: ContainerId, clean: bool, now: int): (ExitVerdict, Record) {
    if r.container != Some(id) then (Superseded, r)
    else
      var r := r.(container := None);
      if r.stopRequested || clean then (Settled, r.(phase := Stopped))
      else if r.spec.Some? && r.spec.value.restartOnCrash then
        var recent := CrashBudget.Recent(r.crashes, now);
        (if |recent| < CrashBudget.BUDGET then RestartLater else Settled,
         r.(crashes := recent + [now], phase := Crashed))
      else (Settled, r.(phase := Crashed))
  }

  datatype StopVerdict = InstallCancelled | RestartsCancelled | NothingRuns | AwaitExitOf(id: ContainerId)

  function StopBegin(r: Record): (StopVerdict, Record) {
    if r.installing then (InstallCancelled, r)
    else if r.phase.Crashed? then
      (RestartsCancelled, r.(stopRequested := true, crashes := [], phase := Stopped))
    else if r.container.None? || !Up(r.phase) then (NothingRuns, r)
    else (AwaitExitOf(r.container.value), r.(stopRequested := true, phase := Stopping))
  }

  /** A delayed crash restart goes ahead only while the instance is still crashed. */
  predicate RestartStillWanted(r: Record) { r.spec.Some? && r.phase.Crashed? }

  // ---- the same sections on the record itself ----

  class Instance {
    var phase: Phase
    var container: Option<ContainerId>
    var stopRequested: bool
    var installing: bool
    var ready: bool
    var spec: Option<Spec>
    var crashes: seq<int>

    function View(): Record
      reads this
    {
      Record(phase, container, stopRequested, installing, ready, spec, crashes)
    }

    constructor ()
      ensures View() == Record(Stopped, None, false, false, false, None, [])
    {
      phase, container, stopRequested, installing := Stopped, None, false, false;
      ready, spec, crashes := false, None, [];
    }

    method BeginInstall(newSpec: Spec) returns (verdict: InstallVerdict)
      modifies this
      ensures (verdict, View()) == InstallBegin(old(View()), newSpec)
    {
      if Up(phase) {
        return MustStopFirst;
      }
      if installing {
        return AlreadyInstalling;
      }
      spec := Some(newSpec);
      installing := true;
      phase := Installing;
      return InstallMayRun;
    }

    method EndInstall()
      modifies this
      ensures View() == InstallEnd(old(View()))
    {
      installing := false;
      phase := Stopped;
    }

    method BeginStart(newSpec: Spec) returns (verdict: StartVerdict)
      modifies this
      ensures (verdict, View()) == StartBegin(old(View()), newSpec)
    {
      match phase {
        case Running | Starting | Stopping => return AlreadyUp;
        case Installing => return BusyInstalling;
        case _ =>
      }
      spec := Some(newSpec);
      stopRequested := false;
      ready := newSpec.readyPattern;
      return StartMayRun;
    }

    method FailStart()
      modifies this
      ensures View() == StartFailed(old(View()))
    {
      phase := Stopped;
    }

    method Track(id: ContainerId, readyNow: bool)
      modifies this
      ensures View() == Tracked(old(View()), id, readyNow)
    {
      container := Some(id);
      if readyNow {
        phase := Running;
      } else {
        phase := Starting;
      }
    }

    method HandleLine(matches: bool)
      modifies this
      ensures View() == LineHandled(old(View()), matches)
    {
      if phase == Starting && ready && matches {
        phase := Running;
      }
    }

    method RecordExit(id: ContainerId, clean: bool, now: int) returns (verdict: ExitVerdict)
      modifies this
      ensures (verdict, View()) == Exited(old(View()), id, clean, now)
    {
      if container != Some(id) {
        return Superseded;
      }
      container := None;
      verdict := Settled;
      if stopRequested || clean {
        phase := Stopped;
      } else {
        if spec.Some? && spec.value.restartOnCrash {
          var ok, _, kept := CrashBudget.CrashRestartAllowed(crashes, now);
          crashes := kept;
          if ok {
            verdict := RestartLater;
          }
        }
        phase := Crashed;
      }
    }

    method BeginStop() returns (verdict: StopVerdict)
      modifies this
      ensures (verdict, View()) == StopBegin(old(View()))
    {
      if installing {
        return InstallCancelled;
      }
      if phase == Crashed {
        stopRequested := true;
        crashes := [];
        phase := Stopped;
        return RestartsCancelled;
      }
      if container.None? || !Up(phase) {
        return NothingRuns;
      }
      stopRequested := true;
      phase := Stopping;
      return AwaitExitOf(container.value);
    }
  }
}
