/** The Sidecar supervisor as a concurrent protocol.

    Every asynchronous activity (launch, restart timer, process watcher,
    stability timer, shutdown caller) is a task with a program counter. One
    action runs one critical section of one task, lets a process really die,
    or adds a caller of shutdown() or shutdown_for_restart(). Actions may come
    in any order, so a run of actions is an interleaving. */
module SidecarProtocol {
  import opened Options
  import opened SidecarState

  /** What one watcher remembers between events. */
  datatype Watcher = Watcher(
    generation: nat, token: string, ready: bool, stopping: bool, deadline: bool)

  /** The program points of perform_shutdown. */
  datatype Stage =
    | TakeHandle | AwaitExit | WriteRequest | Graceful | WriteFailed | Recheck
    | LastCheck | KillNow | KillSent | KillFailed | Forced | Unconfirmed | Finish

  datatype Task =
    | Boot
    | ExternalCheck(url: string, externalToken: Option<string>)
    | Launch
    | LaunchFailed
    | Schedule
    | GiveUp
    | Announce(ticket: nat)
    | Timer(ticket: nat)
    | Started(w: Watcher)
    | Watch(w: Watcher)
    | HealthCheck(w: Watcher, url: string)
    | StopRequest(w: Watcher)
    | StopKill(w: Watcher)
    | StopReport(w: Watcher)
    | Exited(exitedGeneration: nat)
    | StabilityTimer(stableGeneration: nat)
    | ExitCall
    | RestartCall
    | RestartBegin
    | ShutdownWait
    | Owning(stage: Stage, target: Option<nat>, restart: bool)
    | Validate(target: Option<nat>)
    | RestartOk(target: Option<nat>)
    | RestartFailed
    | ExitReturned
    | WaitReturned
    | Done

  /** How the environment resolves a step: results of calls the manager cannot
      see into, and the next event a watcher receives. */
  datatype Choice =
    | Succeeds | Fails
    | UseExternal(externalUrl: string, externalToken: Option<string>) | BadExternalUrl
    | Spawns(newToken: string)
    | DeadlineFires | HandshakeTimesOut | ReadyLine(url: string) | BadLine
    | ProcessError | Terminated | StreamCloses

  datatype Action =
    | Step(task: nat, choice: Choice)
    | ProcessDies(generation: nat, code: Option<int>, signal: Option<int>)
    | CallExit
    | CallRestart

  datatype Handle = InManager | HeldBy(task: nat) | Dropped

  /** One spawned process: how it really ended (if it did), whether the manager
      recorded that, where its control handle is, and what was done to it. */
  datatype Process = Process(
    exit: Option<ChildExit>, recorded: bool, handle: Handle, forced: bool, kills: nat, writes: nat)

  /** Facts about the past that no code reads. `intent`, `timer` and `owner` are
      the tasks that last got the right to launch, reserved a restart and began
      the shutdown. */
  datatype History = History(
    refusals: nat, claims: seq<nat>, claimsSinceReset: nat, resets: nat, launches: nat,
    intent: nat, timer: nat, owner: Option<nat>)

  /** Everything the tasks share. */
  datatype World = World(m: Manager, procs: map<nat, Process>, h: History)

  /** What one step does: the shared state it leaves, the program point its task
      reaches, and a task it starts. */
  datatype Outcome = Outcome(world: World, task: Task, started: Option<Task>)

  function Go(w: World, t: Task): Outcome {
    Outcome(w, t, None)
  }

  function Moved(w: World, m: Manager, t: Task): Outcome {
    Outcome(w.(m := m), t, None)
  }

  // ----- launch, restart and stability -----

  function BootStep(w: World, i: nat, c: Choice): Outcome {
    match c
    case UseExternal(url, token) => Moved(w, w.m.SetExternalStarting(url, token), ExternalCheck(url, token))
    case BadExternalUrl => Moved(w, w.m.SetError(), Done)
    case _ =>
      Go(w.(m := w.m.(managed := true), h := w.h.(launches := w.h.launches + 1, intent := i)), Launch)
  }

  function ExternalStep(w: World, url: string, token: Option<string>, c: Choice): Outcome {
    Moved(w, if c.Succeeds? then w.m.SetExternalReady(url, token) else w.m.SetError(), Done)
  }

  /** `Fails`: the launch gives up before it reaches spawn_and_register_child. */
  function LaunchStep(w: World, c: Choice): Outcome {
    if c.Fails? then Go(w, LaunchFailed) else
    var (m, spawn) := w.m.SpawnAndRegister(c.Spawns?);
    match spawn
    case ShutDown => Go(w, Done)
    case Refused => Go(w.(h := w.h.(refusals := w.h.refusals + 1)), LaunchFailed)
    case SpawnFailed => Go(w, LaunchFailed)
    case Registered(g) =>
      Go(w.(m := m, procs := w.procs[g := Process(None, false, InManager, false, 0, 0)]),
         Started(Watcher(g, if c.Spawns? then c.newToken else "", false, false, false)))
  }

  function LaunchFailedStep(w: World): Outcome {
    var (m, ok) := w.m.SetErrorUnlessShuttingDown();
    Moved(w, m, if ok then Schedule else Done)
  }

  function ScheduleStep(w: World, i: nat): Outcome {
    var (m, r) := w.m.ReserveRestart();
    match r
    case Reserved(reservation) =>
      Go(w.(m := m, h := w.h.(timer := i)), Announce(reservation.ticket))
    case NotNeeded => Go(w, Done)
    case BudgetSpent => Go(w, GiveUp)
  }

  function AnnounceStep(w: World, ticket: nat): Outcome {
    var (m, ok) := w.m.SetRestarting(ticket);
    Moved(w, m, if ok then Timer(ticket) else Done)
  }

  function TimerStep(w: World, i: nat, ticket: nat): Outcome {
    var (m, ok) := w.m.ClaimRestart(ticket);
    if !ok then Go(w, Done) else
      Go(w.(m := m, h := w.h.(claims := w.h.claims + [ticket],
                              claimsSinceReset := w.h.claimsSinceReset + 1,
                              launches := w.h.launches + 1,
                              intent := i)), Launch)
  }

  function StabilityStep(w: World, g: nat): Outcome {
    var (m, ok) := w.m.ResetBudgetIfStable(g);
    if !ok then Go(w, Done) else
      Go(w.(m := m, h := w.h.(claimsSinceReset := 0, resets := w.h.resets + 1)), Done)
  }

  // ----- the watcher of one process -----

  function TerminatedStep(w: World, i: nat, v: Watcher): Outcome {
    // The event arrives only after the process really ended, with its code.
    var g := v.generation;
    if g !in w.procs || w.procs[g].exit.None? then Go(w, Watch(v)) else
    var p := w.procs[g];
    var (m, marked) := w.m.MarkExited(g, p.exit.value.code, p.exit.value.signal);
    if !marked then Go(w, Done) else
      Go(World(m,
               w.procs[g := p.(recorded := true, handle := if p.handle.InManager? then Dropped else p.handle)],
               w.h.(intent := i)), Exited(g))
  }

  /** The events that only move the watcher to another program point. */
  function Turn(m: Manager, v: Watcher, c: Choice): Task {
    match c
    case HandshakeTimesOut => if v.ready || v.stopping then Watch(v) else StopRequest(v)
    case ReadyLine(url) => if v.ready || v.stopping then Watch(v) else HealthCheck(v.(ready := true), url)
    case BadLine => if v.ready || v.stopping then Watch(v) else StopRequest(v)
    case ProcessError => if v.stopping || m.shuttingDown then Watch(v) else StopRequest(v)
    case _ => Watch(v)
  }

  function WatchStep(w: World, i: nat, v: Watcher, c: Choice): Outcome {
    if c.Terminated? then TerminatedStep(w, i, v)
    else if c.StreamCloses? then WatchErrorStep(w, v, Done)
    else if c.DeadlineFires? && v.deadline then WatchErrorStep(w, v, Watch(v.(deadline := false)))
    else Go(w, Turn(w.m, v, c))
  }

  /** append_error_if_current and set_error_if_current, called by a watcher. */
  function WatchErrorStep(w: World, v: Watcher, next: Task): Outcome {
    Moved(w, w.m.SetErrorIfCurrent(v.generation).0, next)
  }

  /** `Fails`: the process tree could not be governed, so it is stopped. */
  function StartedStep(w: World, v: Watcher, c: Choice): Outcome {
    Moved(w, w.m.SetStartingIfCurrent(v.generation, v.token).0,
          if c.Fails? then StopRequest(v) else Watch(v))
  }

  function HealthStep(w: World, v: Watcher, url: string, c: Choice): Outcome {
    if c.Fails? then Go(w, StopRequest(v)) else
    var (m, ok) := w.m.SetReady(v.generation, url, Some(v.token));
    Outcome(w.(m := m), Watch(v), if ok then Some(StabilityTimer(v.generation)) else None)
  }

  function StopRequestStep(w: World, i: nat, v: Watcher): Outcome {
    var g := v.generation;
    var (m, claim) := w.m.RequestChildKill(g);
    match claim
    case ShutdownOwnsChild => Go(w, Watch(v.(stopping := true)))
    case HandleMissing => Go(w, StopReport(v))
    case HandleTaken =>
      if g !in w.procs then Go(w, StopReport(v)) else
        Go(w.(m := m, procs := w.procs[g := w.procs[g].(handle := HeldBy(i), forced := true)]),
           StopKill(v))
  }

  /** kill() consumes the handle whether or not the signal could be sent. */
  function Killed(w: World, g: nat): World {
    if g !in w.procs then w else
      w.(procs := w.procs[g := w.procs[g].(handle := Dropped, kills := w.procs[g].kills + 1)])
  }

  // ----- shutdown -----

  function BeginStep(w: World, i: nat, restart: bool): Outcome {
    var (m, start) := w.m.BeginShutdown();
    match start
    case Owner(g) =>
      Go(w.(m := m, h := w.h.(owner := Some(i))), Owning(TakeHandle, g, restart))
    case Waiter => Go(w, if restart then RestartFailed else ShutdownWait)
  }

  /** The checks of shutdown_for_restart before it begins a shutdown. */
  function RestartCallStep(w: World): Outcome {
    Go(w, if !w.m.managed then RestartFailed
          else if !w.m.shuttingDown then RestartBegin
          else if !w.m.shutdownComplete then RestartFailed
          else Validate(w.m.shutdownGeneration))
  }

  function ValidateStep(w: World, target: Option<nat>): Outcome {
    if target.None? then Go(w, RestartOk(target)) else
    var outcome := w.m.ExitOf(target.value);
    Go(w, if outcome.Some? && outcome.value.IsClean() then RestartOk(target) else RestartFailed)
  }

  function TakeStep(w: World, i: nat, target: Option<nat>, restart: bool): Outcome {
    var (m, taken) := w.m.TakeForShutdown(target);
    if !taken then
      Go(w, Owning(if target.None? then Finish else AwaitExit, target, restart))
    else if target.None? || target.value !in w.procs then
      Go(w, Owning(Finish, target, restart))
    else
      Go(w.(m := m, procs := w.procs[target.value := w.procs[target.value].(handle := HeldBy(i))]),
         Owning(WriteRequest, target, restart))
  }

  /** The write counts as done even when it fails: it is tried once. */
  function WriteStep(w: World, g: nat, restart: bool, c: Choice): Outcome {
    if g !in w.procs then Go(w, Owning(Finish, Some(g), restart)) else
      Go(w.(procs := w.procs[g := w.procs[g].(writes := w.procs[g].writes + 1)]),
         Owning(if c.Fails? then WriteFailed else Graceful, Some(g), restart))
  }

  function KillStep(w: World, g: nat, restart: bool, c: Choice): Outcome {
    Go(Killed(w, g), Owning(if c.Fails? then KillFailed else KillSent, Some(g), restart))
  }

  /** Leaving perform_shutdown drops the handle if its owner still holds it. */
  function DropHandle(w: World, i: nat, g: nat): World {
    if g in w.procs && w.procs[g].handle == HeldBy(i)
    then w.(procs := w.procs[g := w.procs[g].(handle := Dropped)])
    else w
  }

  /** wait_for_exit returns as soon as the exit is recorded, or at its deadline. */
  function WaitStep(w: World, i: nat, stage: Stage, g: nat, restart: bool, c: Choice): Outcome {
    if w.m.ExitOf(g).Some? then Go(DropHandle(w, i, g), Owning(Finish, Some(g), restart))
    else Go(w, Owning(AfterWait(stage, c.DeadlineFires?), Some(g), restart))
  }

  function AfterWait(stage: Stage, expired: bool): Stage {
    if stage.Recheck? then LastCheck
    else if stage.LastCheck? then KillNow
    else if !expired then stage
    else if stage.Graceful? then LastCheck
    else Unconfirmed
  }

  /** set_error after a failed write or a kill, append_error after a deadline. */
  function ReportStep(w: World, stage: Stage, g: nat, restart: bool): Outcome {
    var next := if stage.WriteFailed? then Recheck else if stage.KillSent? then Forced else Finish;
    Moved(w, w.m.SetError(), Owning(next, Some(g), restart))
  }

  predicate HoldsHandle(stage: Stage) {
    stage.WriteRequest? || stage.Graceful? || stage.WriteFailed? || stage.Recheck? || stage.LastCheck?
    || stage.KillNow?
  }

  predicate Reports(stage: Stage) {
    stage.WriteFailed? || stage.KillSent? || stage.KillFailed? || stage.Unconfirmed?
  }

  function FinishStep(w: World, target: Option<nat>, restart: bool): Outcome {
    Moved(w, w.m.FinishShutdown(), if restart then Validate(target) else ExitReturned)
  }

  function OwnerStep(w: World, i: nat, stage: Stage, target: Option<nat>, restart: bool, c: Choice): Outcome {
    if stage.TakeHandle? then TakeStep(w, i, target, restart)
    else if stage.Finish? then FinishStep(w, target, restart)
    else if target.None? then Go(w, Owning(Finish, target, restart))
    else if stage.WriteRequest? then WriteStep(w, target.value, restart, c)
    else if stage.KillNow? then KillStep(w, target.value, restart, c)
    else if Reports(stage) then ReportStep(w, stage, target.value, restart)
    else WaitStep(w, i, stage, target.value, restart, c)
  }

  // ----- one critical section of the task at index `i`, at program point `t` -----

  predicate Launching(t: Task) {
    t.Boot? || t.ExternalCheck? || t.Launch? || t.LaunchFailed? || t.Schedule? || t.GiveUp? || t.Announce?
    || t.Timer? || t.StabilityTimer?
  }

  predicate Watching(t: Task) {
    t.Started? || t.Watch? || t.HealthCheck? || t.StopRequest? || t.StopKill? || t.StopReport? || t.Exited?
  }

  function LaunchTaskStep(w: World, i: nat, t: Task, c: Choice): Outcome {
    match t
    case Boot => BootStep(w, i, c)
    case ExternalCheck(url, token) => ExternalStep(w, url, token, c)
    case Launch => LaunchStep(w, c)
    case LaunchFailed => LaunchFailedStep(w)
    case Schedule => ScheduleStep(w, i)
    case GiveUp => Moved(w, w.m.SetErrorUnlessShuttingDown().0, Done)
    case Announce(ticket) => AnnounceStep(w, ticket)
    case Timer(ticket) => TimerStep(w, i, ticket)
    case StabilityTimer(g) => StabilityStep(w, g)
    case _ => Go(w, t)
  }

  function WatchTaskStep(w: World, i: nat, t: Task, c: Choice): Outcome {
    match t
    case Started(v) => StartedStep(w, v, c)
    case Watch(v) => WatchStep(w, i, v, c)
    case HealthCheck(v, url) => HealthStep(w, v, url, c)
    case StopRequest(v) => StopRequestStep(w, i, v)
    case StopKill(v) => Go(Killed(w, v.generation), StopReport(v))
    case StopReport(v) => WatchErrorStep(w, v, Watch(v.(stopping := true, deadline := true)))
    case Exited(g) => Go(w, if w.m.shuttingDown then Done else Schedule)
    case _ => Go(w, t)
  }

  function ShutdownTaskStep(w: World, i: nat, t: Task, c: Choice): Outcome {
    match t
    case ExitCall => BeginStep(w, i, false)
    case RestartCall => RestartCallStep(w)
    case RestartBegin => BeginStep(w, i, true)
    case ShutdownWait => Go(w, if w.m.shutdownComplete then WaitReturned else ShutdownWait)
    case Owning(stage, target, restart) => OwnerStep(w, i, stage, target, restart, c)
    case Validate(target) => ValidateStep(w, target)
    case _ => Go(w, t)
  }

  function TaskStep(w: World, i: nat, t: Task, c: Choice): Outcome {
    if Launching(t) then LaunchTaskStep(w, i, t, c)
    else if Watching(t) then WatchTaskStep(w, i, t, c)
    else ShutdownTaskStep(w, i, t, c)
  }

  function Death(w: World, g: nat, code: Option<int>, signal: Option<int>): World {
    if g in w.procs && w.procs[g].exit.None?
    then w.(procs := w.procs[g := w.procs[g].(exit := Some(ChildExit(g, code, signal)))])
    else w
  }

  // ----- runs -----

  datatype System = System(world: World, tasks: seq<Task>, steps: nat)

  const START: System :=
    System(World(INITIAL, map[], History(0, [], 0, 0, 0, 0, 0, None)), [Boot], 0)

  function Next(s: System, a: Action): System {
    match a
    case Step(i, c) =>
      if i >= |s.tasks| then s.(steps := s.steps + 1) else
        var o := TaskStep(s.world, i, s.tasks[i], c);
        var tasks := s.tasks[i := o.task];
        System(o.world, if o.started.Some? then tasks + [o.started.value] else tasks, s.steps + 1)
    case ProcessDies(g, code, signal) =>
      System(Death(s.world, g, code, signal), s.tasks, s.steps + 1)
    case CallExit => System(s.world, s.tasks + [ExitCall], s.steps + 1)
    case CallRestart => System(s.world, s.tasks + [RestartCall], s.steps + 1)
  }

  /** The state after a run of actions from application start. */
  function After(run: seq<Action>): System {
    if run == [] then START else Next(After(run[..|run| - 1]), run[|run| - 1])
  }
}
