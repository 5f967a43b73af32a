/** Every interleaving of the operations on one instance; a critical section under `mu` is one step. */
module Lifecycle {
  import opened Common
  import opened InstanceRecord
  import CrashBudget

  // The threads are the requests that take `opMu`, dumps and imports that take only `dbMu`, and
  // delayed crash restarts; container watchers, the console pump and the database container itself
  // are steps of the world around them.
  type ThreadId = nat

  datatype Op =
    | Start(spec: Spec)
    | Stop
    | Restart(spec: Spec)
    | Install(spec: Spec)
    | Remove
    | CrashRestart

  /** Where a thread is. `holds opMu` / `holds dbMu` are the predicates HoldsOp and HoldsDb. */
  datatype Pc =
    | Sleeping                              // crash restart: waiting out its delay
    | WaitOp(op: Op)
    | StartEntry(op: Op, spec: Spec)
    | Preparing(op: Op, spec: Spec)         // folders, image, config files, mounts
    | StartWaitDb(op: Op, spec: Spec)
    | Ensuring(op: Op, spec: Spec)          // ensureDatabase
    | Ensured(op: Op, spec: Spec, ok: bool) // about to release dbMu
    | Creating(op: Op, spec: Spec)          // create, attach and start the container
    | Tracking(op: Op, spec: Spec, id: ContainerId)
    | StartFailing(op: Op)
    | StopEntry(op: Op)
    | AwaitExit(op: Op, id: ContainerId)
    | StopWaitDb(op: Op)
    | StopReadsUp(op: Op)
    | StopDb(op: Op, up: bool)
    | InstallEntry(spec: Spec)
    | InstallRuns(spec: Spec)
    | Removing(stopFailed: bool)
    | RestartCheck
    | Returning(op: Op, ok: bool)           // about to release opMu
    | DumpWaitDb
    | DumpInspect
    | DumpEnsuring
    | DumpRuns(wasUp: bool)
    | DumpStopsDb(gameUp: bool)
    | DumpReturning                         // about to release dbMu
    | Done

  /** A container's watcher: waiting for the exit, exit recorded, returned (`exited` closed). */
  datatype Watcher = Waiting | Recorded | Returned

  datatype State = State(
    record: Record,
    threads: map<ThreadId, Pc>,
    opOwner: Option<ThreadId>,
    dbOwner: Option<ThreadId>,
    watchers: map<ContainerId, Watcher>,
    exits: seq<ContainerId>,      // history: exits recorded, in order
    dbUp: bool,
    gameUsesDb: bool)             // history: the tracked container was started with a database

  /** Coming in, and taking and giving back the two locks. */
  datatype QueueAct = Arrive(op: Op) | ArriveDump | DelayOver | LockOp | LockDb | UnlockDb | UnlockOp

  datatype StartAct =
    | StartSection
    | Prepared(ok: bool)
    | Created(id: ContainerId)
    | NotCreated
    | TrackSection
    | FailSection

  /** ensureDatabase within a start; DbRestarted stops a server that has other settings. */
  datatype EnsureAct = DbRestarted | DbEnsured | DbNotEnsured

  datatype StopAct = StopSection | ExitSeen | StopGaveUp | UpSection | DbStopped

  datatype OtherAct = InstallSection | InstallOver(ok: bool) | Removed | RestartSection

  datatype DumpAct =
    | InspectAnswered(reachable: bool)
    | InspectFailed
    | DumpDbRestarted
    | DumpDbEnsured
    | DumpDbNotEnsured
    | Ran                       // with a database that was up already
    | DumpUpSection
    | DumpDbStopped

  datatype WorldAct =
    | ExitSection(id: ContainerId, clean: bool, now: int, spawned: ThreadId)
    | WatcherReturned(id: ContainerId)
    | Line(matches: bool)
    | DbDied
    | DbRevived

  datatype Step =
    | QueueStep(t: ThreadId, queue: QueueAct)
    | StartStep(t: ThreadId, start: StartAct)
    | EnsureStep(t: ThreadId, ensure: EnsureAct)
    | StopStep(t: ThreadId, stop: StopAct)
    | OtherStep(t: ThreadId, other: OtherAct)
    | DumpStep(t: ThreadId, dump: DumpAct)
    | WorldStep(world: WorldAct)

  predicate HoldsOp(pc: Pc) {
    !(pc.Sleeping? || pc.WaitOp? || pc.Done? || InDump(pc))
  }

  predicate InDump(pc: Pc) {
    pc.DumpWaitDb? || pc.DumpInspect? || pc.DumpEnsuring? || pc.DumpRuns? || pc.DumpStopsDb? || pc.DumpReturning?
  }

  predicate HoldsDb(pc: Pc) {
    || pc.Ensuring? || pc.Ensured? || pc.StopReadsUp? || pc.StopDb?
    || (InDump(pc) && !pc.DumpWaitDb?)
  }

  predicate WaitsDb(pc: Pc) { pc.StartWaitDb? || pc.StopWaitDb? || pc.DumpWaitDb? }

  /** What an operation does first once it holds opMu. */
  function Entry(op: Op): Pc {
    match op
    case Start(spec) => StartEntry(op, spec)
    case Stop | Restart(_) | Remove => StopEntry(op)
    case Install(spec) => InstallEntry(spec)
    case CrashRestart => RestartCheck
  }

  /** What follows a stop of the game that succeeded. */
  function AfterStop(op: Op): Pc {
    if op.Restart? then StartEntry(op, op.spec) else StopWaitDb(op)
  }

  function Go(s: State, t: ThreadId, pc: Pc): State { s.(threads := s.threads[t := pc]) }

  predicate QueueEnabled(s: State, t: ThreadId, act: QueueAct) {
    if act.Arrive? || act.ArriveDump? then t !in s.threads && (act.Arrive? ==> !act.op.CrashRestart?)
    else
      && t in s.threads
      && match act
         case DelayOver => s.threads[t].Sleeping?
         case LockOp => s.threads[t].WaitOp? && s.opOwner.None?
         case LockDb => WaitsDb(s.threads[t]) && s.dbOwner.None?
         case UnlockDb => s.threads[t].Ensured? || s.threads[t].DumpReturning?
         case _ => s.threads[t].Returning?
  }

  function DoQueue(s: State, t: ThreadId, act: QueueAct): State
    requires QueueEnabled(s, t, act)
  {
    match act
    case Arrive(op) => Go(s, t, WaitOp(op))
    case ArriveDump => Go(s, t, DumpWaitDb)
    case DelayOver => Go(s, t, WaitOp(CrashRestart))
    case LockOp => Go(s, t, Entry(s.threads[t].op)).(opOwner := Some(t))
    case LockDb =>
      var next := match s.threads[t]
        case StartWaitDb(op, spec) => Ensuring(op, spec)
        case StopWaitDb(op) => StopReadsUp(op)
        case _ => DumpInspect;
      Go(s, t, next).(dbOwner := Some(t))
    case UnlockDb =>
      var next := match s.threads[t]
        case Ensured(op, spec, ok) => if ok then Creating(op, spec) else StartFailing(op)
        case _ => Done;
      Go(s, t, next).(dbOwner := None)
    case UnlockOp => Go(s, t, Done).(opOwner := None)
  }

  predicate StartEnabled(s: State, t: ThreadId, act: StartAct) {
    && t in s.threads
    && match act
       case StartSection => s.threads[t].StartEntry?
       case Prepared(_) => s.threads[t].Preparing?
       case Created(id) => s.threads[t].Creating? && id !in s.watchers
       case NotCreated => s.threads[t].Creating?
       case TrackSection => s.threads[t].Tracking?
       case FailSection => s.threads[t].StartFailing?
  }

  function DoStart(s: State, t: ThreadId, act: StartAct): State
    requires StartEnabled(s, t, act)
  {
    var op := s.threads[t].op;
    match act
    case StartSection =>
      var spec := s.threads[t].spec;
      var (verdict, r) := StartBegin(s.record, spec);
      Go(s.(record := r), t, match verdict
        case AlreadyUp => Returning(op, true)
        case BusyInstalling => Returning(op, false)
        case StartMayRun => Preparing(op, spec))
    case Prepared(ok) =>
      var spec := s.threads[t].spec;
      Go(s, t, if !ok then StartFailing(op) else if spec.database then StartWaitDb(op, spec) else Creating(op, spec))
    case Created(id) => Go(s, t, Tracking(op, s.threads[t].spec, id))
    case NotCreated => Go(s, t, StartFailing(op))
    case TrackSection =>
      var id := s.threads[t].id;
      Go(s.(record := Tracked(s.record, id, !s.threads[t].spec.readyPattern), watchers := s.watchers[id := Waiting],
            gameUsesDb := s.threads[t].spec.database), t, Returning(op, true))
    case FailSection => Go(s.(record := StartFailed(s.record)), t, Returning(op, false))
  }

  predicate EnsureEnabled(s: State, t: ThreadId, act: EnsureAct) {
    t in s.threads && s.threads[t].Ensuring? && (act.DbRestarted? ==> s.dbUp)
  }

  function DoEnsure(s: State, t: ThreadId, act: EnsureAct): State
    requires EnsureEnabled(s, t, act)
  {
    var Ensuring(op, spec) := s.threads[t];
    match act
    case DbRestarted => s.(dbUp := false)
    case DbEnsured => Go(s.(dbUp := true), t, Ensured(op, spec, true))
    case DbNotEnsured => Go(s, t, Ensured(op, spec, false))
  }

  predicate StopEnabled(s: State, t: ThreadId, act: StopAct) {
    && t in s.threads
    && match act
       case StopSection => s.threads[t].StopEntry?
       case ExitSeen =>
         && s.threads[t].AwaitExit? && s.threads[t].id in s.watchers
         && s.watchers[s.threads[t].id].Returned?
       case StopGaveUp => s.threads[t].AwaitExit?
       case UpSection => s.threads[t].StopReadsUp?
       case DbStopped => s.threads[t].StopDb?
  }

  function DoStop(s: State, t: ThreadId, act: StopAct): State
    requires StopEnabled(s, t, act)
  {
    var op := s.threads[t].op;
    match act
    case StopSection =>
      var (verdict, r) := StopBegin(s.record);
      Go(s.(record := r), t, match verdict
        case AwaitExitOf(id) => AwaitExit(op, id)
        case InstallCancelled | RestartsCancelled | NothingRuns => AfterStop(op))
    case ExitSeen => Go(s, t, AfterStop(op))
    case StopGaveUp => Go(s, t, if op.Remove? then Removing(true) else Returning(op, false))
    case UpSection => Go(s, t, StopDb(op, s.record.container.Some?))
    case DbStopped =>
      Go(s.(dbUp := s.dbUp && s.threads[t].up, dbOwner := None), t,
         if op.Remove? then Removing(false) else Returning(op, true))
  }

  predicate OtherEnabled(s: State, t: ThreadId, act: OtherAct) {
    && t in s.threads
    && match act
       case InstallSection => s.threads[t].InstallEntry?
       case InstallOver(_) => s.threads[t].InstallRuns?
       case Removed => s.threads[t].Removing?
       case RestartSection => s.threads[t].RestartCheck?
  }

  function DoOther(s: State, t: ThreadId, act: OtherAct): State
    requires OtherEnabled(s, t, act)
  {
    match act
    case InstallSection =>
      var spec := s.threads[t].spec;
      var (verdict, r) := InstallBegin(s.record, spec);
      Go(s.(record := r), t, if verdict.InstallMayRun? then InstallRuns(spec) else Returning(Install(spec), false))
    case InstallOver(ok) => Go(s.(record := InstallEnd(s.record)), t, Returning(Install(s.threads[t].spec), ok))
    case Removed => Go(s.(dbUp := false), t, Returning(Remove, true))
    case RestartSection =>
      Go(s, t, if RestartStillWanted(s.record) then StartEntry(CrashRestart, s.record.spec.value)
               else Returning(CrashRestart, true))
  }

  predicate DumpEnabled(s: State, t: ThreadId, act: DumpAct) {
    && t in s.threads
    && match act
       case InspectAnswered(reachable) => s.threads[t].DumpInspect? && (reachable ==> s.dbUp)
       case InspectFailed => s.threads[t].DumpInspect?
       case DumpDbRestarted => s.threads[t].DumpEnsuring? && s.dbUp
       case DumpDbEnsured | DumpDbNotEnsured => s.threads[t].DumpEnsuring?
       case Ran => s.threads[t] == DumpRuns(true)
       case DumpUpSection => s.threads[t] == DumpRuns(false)
       case DumpDbStopped => s.threads[t].DumpStopsDb?
  }

  function DoDump(s: State, t: ThreadId, act: DumpAct): State
    requires DumpEnabled(s, t, act)
  {
    match act
    case InspectAnswered(reachable) =>
      Go(s, t, if !s.dbUp then DumpEnsuring else if reachable then DumpRuns(true) else DumpReturning)
    case InspectFailed => Go(s, t, DumpEnsuring)
    case DumpDbRestarted => s.(dbUp := false)
    case DumpDbEnsured => Go(s.(dbUp := true), t, DumpRuns(false))
    case DumpDbNotEnsured => Go(s, t, DumpReturning)
    case Ran => Go(s, t, DumpReturning)
    case DumpUpSection => Go(s, t, DumpStopsDb(s.record.container.Some?))
    case DumpDbStopped => Go(s.(dbUp := s.dbUp && s.threads[t].gameUp), t, DumpReturning)
  }

  predicate WorldEnabled(s: State, act: WorldAct) {
    match act
    case ExitSection(id, _, _, spawned) => id in s.watchers && s.watchers[id].Waiting? && spawned !in s.threads
    case WatcherReturned(id) => id in s.watchers && s.watchers[id].Recorded?
    case Line(_) => true
    case DbDied => s.dbUp
    case DbRevived => !s.dbUp
  }

  function DoWorld(s: State, act: WorldAct): State
    requires WorldEnabled(s, act)
  {
    match act
    case ExitSection(id, clean, now, spawned) =>
      var (verdict, r) := Exited(s.record, id, clean, now);
      s.(record := r,
         watchers := s.watchers[id := Recorded],
         exits := if verdict.Superseded? then s.exits else s.exits + [id],
         threads := if verdict.RestartLater? then s.threads[spawned := Sleeping] else s.threads)
    case WatcherReturned(id) => s.(watchers := s.watchers[id := Returned])
    case Line(matches) => s.(record := LineHandled(s.record, matches))
    case DbDied => s.(dbUp := false)
    case DbRevived => s.(dbUp := true)
  }

  predicate Enabled(s: State, step: Step) {
    match step
    case QueueStep(t, act) => QueueEnabled(s, t, act)
    case StartStep(t, act) => StartEnabled(s, t, act)
    case EnsureStep(t, act) => EnsureEnabled(s, t, act)
    case StopStep(t, act) => StopEnabled(s, t, act)
    case OtherStep(t, act) => OtherEnabled(s, t, act)
    case DumpStep(t, act) => DumpEnabled(s, t, act)
    case WorldStep(act) => WorldEnabled(s, act)
  }

  function Do(s: State, step: Step): State
    requires Enabled(s, step)
  {
    match step
    case QueueStep(t, act) => DoQueue(s, t, act)
    case StartStep(t, act) => DoStart(s, t, act)
    case EnsureStep(t, act) => DoEnsure(s, t, act)
    case StopStep(t, act) => DoStop(s, t, act)
    case OtherStep(t, act) => DoOther(s, t, act)
    case DumpStep(t, act) => DoDump(s, t, act)
    case WorldStep(act) => DoWorld(s, act)
  }
}
