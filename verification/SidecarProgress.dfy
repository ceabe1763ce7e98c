/** What the Sidecar protocol does, not only what it avoids: what every task may
    further rely on, and the results that follow for restarts and shutdowns. */
module SidecarProgress {
  import opened Options
  import opened SidecarState
  import opened SidecarProtocol
  import opened SidecarInvariant
  import opened SidecarTheorems

  /** The generation a watcher still watches. */
  function Watched(t: Task): Option<nat> {
    if t.Started? || t.Watch? || t.HealthCheck? || t.StopRequest? || t.StopKill? || t.StopReport?
    then Some(t.w.generation) else None
  }

  /** The latest generation is the live one or the one whose exit is recorded, and
      it is the one a shutdown remembers; a live handle that left the manager
      before any shutdown was taken by a forced stop. */
  ghost predicate Latest(w: World) {
    var m := w.m;
    && (m.activeGeneration.Some? || m.scheduledRestart.Some? ==> m.managed)
    && (m.activeGeneration.Some? ==> m.activeGeneration.value == m.nextGeneration)
    && (m.nextGeneration > 0 && m.activeGeneration.None? ==>
          m.exited.Some? && m.exited.value.generation == m.nextGeneration)
    && (m.shuttingDown && m.shutdownGeneration.Some? ==>
          m.shutdownGeneration.value == m.nextGeneration && m.shutdownGeneration.value in w.procs)
    && (m.activeGeneration.Some? && m.child.None? && !m.shuttingDown ==>
          m.activeGeneration.value in w.procs && w.procs[m.activeGeneration.value].forced)
    && (m.shutdownComplete && m.shutdownGeneration.Some? ==>
          m.shutdownGeneration.value in w.procs && Settled(w.procs[m.shutdownGeneration.value]))
    && (forall g :: g in w.procs && w.procs[g].kills > 0 ==> w.procs[g].forced || w.procs[g].writes == 1)
  }

  /** Nothing is left to do about process `p`: its exit is recorded, it was killed,
      or a forced stop had taken its handle. */
  predicate Settled(p: Process) {
    p.recorded || p.forced || p.kills == 1
  }

  /** How far the owner of a shutdown has come with process `p`. */
  predicate StageOk(stage: Stage, p: Process) {
    && (stage.TakeHandle? ==> p.recorded || p.handle.InManager? || p.forced)
    && (stage.AwaitExit? ==> p.recorded || p.forced)
    && (stage.KillSent? || stage.KillFailed? || stage.Forced? ==> p.kills == 1)
    && (stage.Unconfirmed? || stage.Finish? ==> Settled(p))
  }

  predicate Rely(t: Task, i: nat, w: World) {
    && (t.Launch? || t.LaunchFailed? || t.Schedule? || t.Exited? ==> w.m.managed)
    && ((t.Announce? || t.Timer?) && !w.m.shuttingDown ==>
          w.m.scheduledRestart == Some(t.ticket) && i == w.h.timer)
    && (Watched(t).Some? ==> i == w.h.intent && w.m.activeGeneration == Watched(t))
    && (t.Started? ==> !t.w.ready && !t.w.stopping)
    && (t.Owning? && t.target.Some? ==>
          t.target.value in w.procs && StageOk(t.stage, w.procs[t.target.value]))
  }

  /** A step keeps `Latest`, and what its own task and any other may rely on. */
  ghost predicate Keeps(w: World, i: nat, o: Outcome, u: Task, j: nat) {
    && Latest(o.world) && Rely(o.task, i, o.world)
    && (j != i && TaskOk(u, j, w) && Rely(u, j, w) ==> Rely(u, j, o.world))
  }

  ghost predicate Ready(w: World, i: nat, t: Task, steps: nat) {
    Enabled(w, i, t, steps) && Latest(w) && Rely(t, i, w)
  }

  lemma BootRelies(w: World, i: nat, t: Task, c: Choice, steps: nat, u: Task, j: nat)
    requires Ready(w, i, t, steps) && t.Boot?
    ensures Keeps(w, i, BootStep(w, i, c), u, j)
  {
    hide Published;
  }

  lemma LaunchRelies(w: World, i: nat, t: Task, c: Choice, steps: nat, u: Task, j: nat)
    requires Ready(w, i, t, steps) && t.Launch?
    ensures Keeps(w, i, LaunchStep(w, c), u, j)
  {
    hide Published;
  }

  lemma ScheduleRelies(w: World, i: nat, t: Task, steps: nat, u: Task, j: nat)
    requires Ready(w, i, t, steps) && t.Schedule?
    ensures Keeps(w, i, ScheduleStep(w, i), u, j)
  {
  }

  lemma TimerRelies(w: World, i: nat, t: Task, steps: nat, u: Task, j: nat)
    requires Ready(w, i, t, steps) && t.Timer?
    ensures Keeps(w, i, TimerStep(w, i, t.ticket), u, j)
  {
    hide Published, Processes;
  }

  lemma LaunchTaskRelies(w: World, i: nat, t: Task, c: Choice, steps: nat, u: Task, j: nat)
    requires Ready(w, i, t, steps) && Launching(t)
    ensures Keeps(w, i, LaunchTaskStep(w, i, t, c), u, j)
  {
    hide BootStep, LaunchStep, ScheduleStep, TimerStep, Processes, Published, Restarts;
    match t
    case Boot => BootRelies(w, i, t, c, steps, u, j);
    case Launch => LaunchRelies(w, i, t, c, steps, u, j);
    case Schedule => ScheduleRelies(w, i, t, steps, u, j);
    case Timer(_) => TimerRelies(w, i, t, steps, u, j);
    case _ =>
  }

  lemma TerminatedRelies(w: World, i: nat, t: Task, steps: nat, u: Task, j: nat)
    requires Ready(w, i, t, steps) && t.Watch?
    ensures Keeps(w, i, TerminatedStep(w, i, t.w), u, j)
  {
  }

  lemma StopRequestRelies(w: World, i: nat, t: Task, steps: nat, u: Task, j: nat)
    requires Ready(w, i, t, steps) && t.StopRequest?
    ensures Keeps(w, i, StopRequestStep(w, i, t.w), u, j)
  {
  }

  lemma StopKillRelies(w: World, i: nat, t: Task, steps: nat, u: Task, j: nat)
    requires Ready(w, i, t, steps) && t.StopKill?
    ensures Keeps(w, i, Go(Killed(w, t.w.generation), StopReport(t.w)), u, j)
  {
  }

  lemma HealthRelies(w: World, i: nat, t: Task, c: Choice, steps: nat, u: Task, j: nat)
    requires Ready(w, i, t, steps) && t.HealthCheck?
    ensures Keeps(w, i, HealthStep(w, t.w, t.url, c), u, j)
  {
    hide Processes, Published, Restarts, Closing;
  }

  lemma StartedRelies(w: World, i: nat, t: Task, c: Choice, steps: nat, u: Task, j: nat)
    requires Ready(w, i, t, steps) && t.Started?
    ensures Keeps(w, i, StartedStep(w, t.w, c), u, j)
  {
    hide Processes, Published, Restarts, Closing;
  }

  lemma WatchTaskRelies(w: World, i: nat, t: Task, c: Choice, steps: nat, u: Task, j: nat)
    requires Ready(w, i, t, steps) && Watching(t)
    ensures Keeps(w, i, WatchTaskStep(w, i, t, c), u, j)
  {
    hide TerminatedStep, StopRequestStep, HealthStep, StartedStep, Killed, Processes, Published, Restarts, Closing;
    match t
    case Started(_) => StartedRelies(w, i, t, c, steps, u, j);
    case Watch(_) => TerminatedRelies(w, i, t, steps, u, j);
    case HealthCheck(_, _) => HealthRelies(w, i, t, c, steps, u, j);
    case StopRequest(_) => StopRequestRelies(w, i, t, steps, u, j);
    case StopKill(_) => StopKillRelies(w, i, t, steps, u, j);
    case _ =>
  }

  lemma BeginRelies(w: World, i: nat, t: Task, steps: nat, u: Task, j: nat)
    requires Ready(w, i, t, steps) && (t.ExitCall? || t.RestartBegin?)
    ensures Keeps(w, i, BeginStep(w, i, t.RestartBegin?), u, j)
  {
    hide Published;
  }

  lemma TakeRelies(w: World, i: nat, t: Task, steps: nat, u: Task, j: nat)
    requires Ready(w, i, t, steps) && t.Owning? && t.stage.TakeHandle?
    ensures Keeps(w, i, TakeStep(w, i, t.target, t.restart), u, j)
  {
    hide Restarts, Published;
  }

  lemma WriteRelies(w: World, i: nat, t: Task, c: Choice, steps: nat, u: Task, j: nat)
    requires Ready(w, i, t, steps) && t.Owning? && t.stage.WriteRequest? && t.target.Some?
    ensures Keeps(w, i, WriteStep(w, t.target.value, t.restart, c), u, j)
  {
    hide Restarts, Published;
  }

  lemma KillRelies(w: World, i: nat, t: Task, c: Choice, steps: nat, u: Task, j: nat)
    requires Ready(w, i, t, steps) && t.Owning? && t.stage.KillNow? && t.target.Some?
    ensures Keeps(w, i, KillStep(w, t.target.value, t.restart, c), u, j)
  {
    hide Restarts, Published;
  }

  lemma DropRelies(w: World, i: nat, t: Task, steps: nat, u: Task, j: nat)
    requires Ready(w, i, t, steps) && t.Owning? && t.target.Some? && w.m.ExitOf(t.target.value).Some?
    ensures Keeps(w, i, Go(DropHandle(w, i, t.target.value), Owning(Finish, t.target, t.restart)), u, j)
  {
    hide Restarts, Published, Closing;
  }

  lemma WaitRelies(w: World, i: nat, t: Task, c: Choice, steps: nat, u: Task, j: nat)
    requires Ready(w, i, t, steps) && t.Owning? && Waits(t.stage) && t.target.Some?
    ensures Keeps(w, i, WaitStep(w, i, t.stage, t.target.value, t.restart, c), u, j)
  {
    hide Restarts, Published, Processes, Closing, DropHandle;
    if w.m.ExitOf(t.target.value).Some? {
      DropRelies(w, i, t, steps, u, j);
    }
  }

  lemma ReportRelies(w: World, i: nat, t: Task, steps: nat, u: Task, j: nat)
    requires Ready(w, i, t, steps) && t.Owning? && Reports(t.stage) && t.target.Some?
    ensures Keeps(w, i, ReportStep(w, t.stage, t.target.value, t.restart), u, j)
  {
    hide Restarts, Published, Processes;
  }

  lemma FinishRelies(w: World, i: nat, t: Task, steps: nat, u: Task, j: nat)
    requires Ready(w, i, t, steps) && t.Owning?
    ensures t.stage.Finish? ==> Keeps(w, i, FinishStep(w, t.target, t.restart), u, j)
    ensures t.target.None? ==> Keeps(w, i, Go(w, Owning(Finish, t.target, t.restart)), u, j)
  {
    hide Restarts, Published, Processes;
  }

  lemma OwnerRelies(w: World, i: nat, t: Task, c: Choice, steps: nat, u: Task, j: nat)
    requires Ready(w, i, t, steps) && t.Owning?
    ensures Keeps(w, i, OwnerStep(w, i, t.stage, t.target, t.restart, c), u, j)
  {
    hide TakeStep, WriteStep, KillStep, WaitStep, ReportStep, FinishStep, Ready, Keeps;
    FinishRelies(w, i, t, steps, u, j);
    if t.stage.TakeHandle? {
      TakeRelies(w, i, t, steps, u, j);
    } else if t.target.Some? {
      if t.stage.WriteRequest? {
        WriteRelies(w, i, t, c, steps, u, j);
      } else if t.stage.KillNow? {
        KillRelies(w, i, t, c, steps, u, j);
      } else if Waits(t.stage) {
        WaitRelies(w, i, t, c, steps, u, j);
      } else if Reports(t.stage) {
        ReportRelies(w, i, t, steps, u, j);
      }
    }
  }

  lemma ShutdownTaskRelies(w: World, i: nat, t: Task, c: Choice, steps: nat, u: Task, j: nat)
    requires Ready(w, i, t, steps) && !Launching(t) && !Watching(t)
    ensures Keeps(w, i, ShutdownTaskStep(w, i, t, c), u, j)
  {
    hide BeginStep, OwnerStep, Processes, Published, Restarts;
    match t
    case ExitCall => BeginRelies(w, i, t, steps, u, j);
    case RestartBegin => BeginRelies(w, i, t, steps, u, j);
    case Owning(_, _, _) => OwnerRelies(w, i, t, c, steps, u, j);
    case _ =>
  }

  lemma TaskRelies(w: World, i: nat, t: Task, c: Choice, steps: nat, u: Task, j: nat)
    requires Ready(w, i, t, steps)
    ensures Keeps(w, i, TaskStep(w, i, t, c), u, j)
  {
    hide Ready, Keeps, LaunchTaskStep, WatchTaskStep, ShutdownTaskStep;
    if Launching(t) {
      LaunchTaskRelies(w, i, t, c, steps, u, j);
    } else if Watching(t) {
      WatchTaskRelies(w, i, t, c, steps, u, j);
    } else {
      ShutdownTaskRelies(w, i, t, c, steps, u, j);
    }
  }

  ghost predicate Relied(s: System) {
    Latest(s.world) && forall i :: 0 <= i < |s.tasks| ==> Rely(s.tasks[i], i, s.world)
  }

  lemma DeathRelies(w: World, g: nat, code: Option<int>, signal: Option<int>, u: Task, j: nat)
    requires Latest(w)
    ensures Latest(Death(w, g, code, signal))
    ensures Rely(u, j, w) ==> Rely(u, j, Death(w, g, code, signal))
  {
  }

  lemma StepRelies(s: System, i: nat, c: Choice)
    requires Inv(s) && Relied(s) && s.steps < U64_MAX && i < |s.tasks|
    ensures Relied(Next(s, Step(i, c)))
  {
    hide Shared, TaskOk, TaskStep, Rely, Latest;
    var w, o := s.world, TaskStep(s.world, i, s.tasks[i], c);
    assert Ready(w, i, s.tasks[i], s.steps);
    TaskRelies(w, i, s.tasks[i], c, s.steps, s.tasks[i], i);
    var moved := s.tasks[i := o.task];
    forall j | 0 <= j < |s.tasks| ensures Rely(moved[j], j, o.world) {
      TaskRelies(w, i, s.tasks[i], c, s.steps, s.tasks[j], j);
    }
    StepIsLocal(w, i, s.tasks[i], c);
    if o.started.Some? {
      NewTaskRelies(o.world, o.started.value, |s.tasks|);
    }
  }

  lemma NewTaskRelies(w: World, t: Task, i: nat)
    requires t.StabilityTimer? || t.ExitCall? || t.RestartCall?
    ensures Rely(t, i, w)
  {
  }

  lemma NextRelies(s: System, a: Action)
    requires Inv(s) && Relied(s) && s.steps < U64_MAX
    ensures Relied(Next(s, a))
  {
    hide Shared, TaskOk, TaskStep, Rely, Latest, Death;
    match a
    case Step(i, c) => if i < |s.tasks| { StepRelies(s, i, c); }
    case ProcessDies(g, code, signal) =>
      DeathRelies(s.world, g, code, signal, Done, 0);
      forall j | 0 <= j < |s.tasks| ensures Rely(s.tasks[j], j, Death(s.world, g, code, signal)) {
        DeathRelies(s.world, g, code, signal, s.tasks[j], j);
      }
    case CallExit => NewTaskRelies(s.world, ExitCall, |s.tasks|);
    case CallRestart => NewTaskRelies(s.world, RestartCall, |s.tasks|);
  }

  lemma {:induction false} ReliedReachable(run: seq<Action>)
    requires |run| < U64_MAX
    ensures Relied(After(run))
  {
    hide Inv, Relied, Next;
    if run == [] {
      StartRelies();
    } else {
      ReliedReachable(run[..|run| - 1]);
      Reachable(run[..|run| - 1]);
      NextRelies(After(run[..|run| - 1]), run[|run| - 1]);
    }
  }

  lemma StartRelies()
    ensures Relied(START)
  {
  }

  lemma Snoc(run: seq<Action>, a: Action)
    ensures After(run + [a]) == Next(After(run), a)
  {
    assert (run + [a])[..|run|] == run;
  }

  /** What is known of task `i` in a state that can be reached. */
  lemma Known(run: seq<Action>, i: nat)
    requires |run| < U64_MAX && i < |After(run).tasks|
    ensures var s := After(run);
      Shared(s.world, |run|) && TaskOk(s.tasks[i], i, s.world) && Latest(s.world) && Rely(s.tasks[i], i, s.world)
  {
    hide After, Shared, TaskOk, Latest, Rely;
    Reachable(run);
    ReliedReachable(run);
  }

  // ----- the answer of shutdown_for_restart -----

  /** Process `g` ended, as recorded, with code 0 and without a signal. */
  predicate EndedCleanly(w: World, g: nat) {
    g in w.procs && w.procs[g].recorded && w.procs[g].exit == Some(ChildExit(g, Some(0), None))
  }

  /** A caller whose shutdown is complete gets its answer in one step: Ok exactly
      when no process was live at the shutdown, or that process is recorded to have
      ended cleanly; otherwise the restart is cancelled. */
  lemma RestartIsAnswered(run: seq<Action>, i: nat, c: Choice)
    requires |run| < U64_MAX && i < |After(run).tasks| && After(run).tasks[i].Validate?
    ensures var s := After(run); var target := s.tasks[i].target;
      Next(s, Step(i, c)).tasks[i] ==
        if target.None? || EndedCleanly(s.world, target.value) then RestartOk(target) else RestartFailed
  {
    hide After, Inv;
    Reachable(run);
    ReliedReachable(run);
    if After(run).tasks[i].target.Some? {
      LatestExitDecides(After(run), i);
    }
  }

  /** The recorded exit a waiter reads is that of the process it asks about. */
  lemma LatestExitDecides(s: System, i: nat)
    requires Inv(s) && Relied(s) && i < |s.tasks| && (s.tasks[i].Validate? || s.tasks[i].Owning?)
    requires s.tasks[i].target.Some?
    ensures var w, g := s.world, s.tasks[i].target.value;
      && g in w.procs && (w.m.ExitOf(g).Some? <==> w.procs[g].recorded)
      && (w.procs[g].recorded ==> w.m.ExitOf(g) == w.procs[g].exit)
  {
    assert TaskOk(s.tasks[i], i, s.world) && Rely(s.tasks[i], i, s.world);
  }

  // ----- restarts: each step does its part -----

  /** A process that ended is followed by a restart unless a shutdown has begun. */
  lemma ExitLeadsToSchedule(run: seq<Action>, i: nat, c: Choice)
    requires |run| < U64_MAX && i < |After(run).tasks| && After(run).tasks[i].Exited?
    ensures var s := After(run); var s' := Next(s, Step(i, c));
      s'.tasks == s.tasks[i := if s.world.m.shuttingDown then Done else Schedule] && s'.world == s.world
  {
    hide After;
    Known(run, i);
  }

  /** While no shutdown has begun, scheduling succeeds exactly while fewer than two
      attempts are used: a fresh ticket is scheduled, one attempt is used up, and
      the task goes on to announce it. Otherwise the supervisor gives up. */
  lemma ScheduleReserves(run: seq<Action>, i: nat, c: Choice)
    requires |run| < U64_MAX && i < |After(run).tasks| && After(run).tasks[i].Schedule?
    requires !After(run).world.m.shuttingDown
    ensures var s := After(run); var s' := Next(s, Step(i, c)); var m, m' := s.world.m, s'.world.m;
      if m.restartAttempts < 2 then
        && s'.tasks[i].Announce? && m'.scheduledRestart == Some(s'.tasks[i].ticket)
        && (forall k :: 0 <= k < |s.world.h.claims| ==> s.world.h.claims[k] < s'.tasks[i].ticket)
        && m'.restartAttempts == m.restartAttempts + 1 && m'.runtime == m.runtime
        && m'.activeGeneration.None? && s'.world.h.claims == s.world.h.claims && m'.nextGeneration == m.nextGeneration
        && !m'.shuttingDown
      else s'.tasks[i].GiveUp? && s'.world == s.world
  {
    hide After, Processes, Published;
    Known(run, i);
  }

  /** Giving up shows the error, unless a shutdown has begun. */
  lemma GivingUpShows(run: seq<Action>, i: nat, c: Choice)
    requires i < |After(run).tasks| && After(run).tasks[i].GiveUp?
    ensures var s := After(run); var s' := Next(s, Step(i, c));
      && s'.tasks[i].Done?
      && (!s.world.m.shuttingDown ==> s'.world.m.runtime.phase.Error?)
  {
    hide After;
  }

  /** A reserved ticket is announced and later claimed for a launch, unless a
      shutdown has begun meanwhile. */
  lemma TicketLeadsToLaunch(run: seq<Action>, i: nat, c: Choice)
    requires |run| < U64_MAX && i < |After(run).tasks|
    requires After(run).tasks[i].Announce? || After(run).tasks[i].Timer?
    ensures var s := After(run); var s' := Next(s, Step(i, c)); var t, m, m' := s.tasks[i], s.world.m, s'.world.m;
      if m.shuttingDown then s'.tasks[i].Done? && s'.world == s.world
      else
        && m'.activeGeneration.None? && m'.nextGeneration == m.nextGeneration && !m'.shuttingDown
        && m'.restartAttempts == m.restartAttempts
        && if t.Announce? then
             && s'.tasks[i] == Timer(t.ticket) && s'.world.h.claims == s.world.h.claims
             && m'.runtime.phase.Restarting? && m'.runtime.baseUrl.None? && m'.runtime.sessionToken.None?
           else
             && s'.tasks[i].Launch? && m'.scheduledRestart.None?
             && s'.world.h.claims == s.world.h.claims + [t.ticket]
  {
    hide After, Processes, Published;
    Known(run, i);
  }

  /** A launch registers the next generation with its handle, unless the process
      could not be spawned, which leads to another restart, or a shutdown has begun. */
  lemma LaunchSpawns(run: seq<Action>, i: nat, c: Choice)
    requires |run| < U64_MAX && i < |After(run).tasks| && After(run).tasks[i].Launch?
    ensures var s := After(run); var s' := Next(s, Step(i, c)); var g := s.world.m.nextGeneration + 1;
      if c.Spawns? && !s.world.m.shuttingDown then
        && s'.tasks[i] == Started(Watcher(g, c.newToken, false, false, false))
        && s'.world.m.activeGeneration == Some(g) && s'.world.m.child == Some(g) && s'.world.m.nextGeneration == g
        && g in s'.world.procs && !s'.world.procs[g].recorded && s'.world.procs[g].handle.InManager?
        && s'.world.h.claims == s.world.h.claims && s'.world.m.restartAttempts == s.world.m.restartAttempts
      else
        && s'.world == s.world
        && s'.tasks[i] == if !c.Fails? && s.world.m.shuttingDown then Done else LaunchFailed
  {
    hide After, Published;
    Known(run, i);
  }

  /** A launch that failed shows the error and is followed by a restart. */
  lemma FailedLaunchIsRetried(run: seq<Action>, i: nat, c: Choice)
    requires i < |After(run).tasks| && After(run).tasks[i].LaunchFailed?
    ensures var s := After(run); var s' := Next(s, Step(i, c));
      if s.world.m.shuttingDown then s'.tasks[i].Done? && s'.world == s.world
      else s'.tasks[i].Schedule? && s'.world.m.runtime.phase.Error?
  {
    hide After;
  }

  /** The steps of the task that saw a process end, up to the next process. */
  function RestartSteps(i: nat, token: string): seq<Action> {
    [Step(i, Succeeds), Step(i, Succeeds), Step(i, Succeeds), Step(i, Succeeds), Step(i, Spawns(token))]
  }

  /** While restarts are left and no shutdown has begun, the task that saw a process
      end can, by its own steps, bring up the next generation: it uses one attempt
      and claims one new ticket. */
  lemma ProcessesAreReplaced(run: seq<Action>, i: nat, token: string)
    requires |run| + 5 < U64_MAX && i < |After(run).tasks| && After(run).tasks[i].Exited?
    requires !After(run).world.m.shuttingDown && After(run).world.m.restartAttempts < 2
    ensures var w, s' := After(run).world, After(run + RestartSteps(i, token)); var g := w.m.nextGeneration + 1;
      && i < |s'.tasks| && s'.tasks[i] == Started(Watcher(g, token, false, false, false))
      && s'.world.m.activeGeneration == Some(g) && s'.world.m.child == Some(g)
      && g in s'.world.procs && !s'.world.procs[g].recorded
      && s'.world.m.restartAttempts == w.m.restartAttempts + 1
      && |s'.world.h.claims| == |w.h.claims| + 1 && w.h.claims <= s'.world.h.claims
  {
    hide After, Next;
    var go := Step(i, Succeeds);
    var r1, r2 := run + [go], run + [go] + [go];
    var r3, r4 := r2 + [go], r2 + [go] + [go];
    Snoc(run, go);
    ExitLeadsToSchedule(run, i, Succeeds);
    Snoc(r1, go);
    TasksStayPut(r1, i, Succeeds);
    ScheduleReserves(r1, i, Succeeds);
    Snoc(r2, go);
    TasksStayPut(r2, i, Succeeds);
    TicketLeadsToLaunch(r2, i, Succeeds);
    Snoc(r3, go);
    TasksStayPut(r3, i, Succeeds);
    TicketLeadsToLaunch(r3, i, Succeeds);
    Snoc(r4, Step(i, Spawns(token)));
    TasksStayPut(r4, i, Spawns(token));
    LaunchSpawns(r4, i, Spawns(token));
    assert run + RestartSteps(i, token) == r4 + [Step(i, Spawns(token))];
  }

  lemma TasksStayPut(run: seq<Action>, i: nat, c: Choice)
    requires i < |After(run).tasks|
    ensures var s, s' := After(run), Next(After(run), Step(i, c));
      && |s.tasks| <= |s'.tasks| && forall k :: 0 <= k < |s.tasks| && k != i ==> s'.tasks[k] == s.tasks[k]
  {
    hide After, TaskStep;
  }

  // ----- one process: ready, stable, stopped -----

  /** A watcher publishes the URL and token of its process as Ready once the health
      check passed, and starts the stability timer; without a shutdown its process
      is always the live one. A failed check asks for a forced stop. */
  lemma HealthyMeansReady(run: seq<Action>, i: nat, c: Choice)
    requires |run| < U64_MAX && i < |After(run).tasks| && After(run).tasks[i].HealthCheck?
    ensures var s := After(run); var s', t := Next(s, Step(i, c)), s.tasks[i];
      if c.Fails? then s'.world == s.world && s'.tasks == s.tasks[i := StopRequest(t.w)]
      else if s.world.m.shuttingDown then s'.world == s.world && s'.tasks == s.tasks[i := Watch(t.w)]
      else
        && s'.world.m.runtime == Status(Phase.Ready, Some(t.url), Some(t.w.token), Some(t.w.generation))
        && s'.tasks == s.tasks[i := Watch(t.w)] + [StabilityTimer(t.w.generation)]
  {
    hide After, Processes, Published;
    Known(run, i);
  }

  /** A new process shows as starting with its token, unless a shutdown has begun. */
  lemma StartedShows(run: seq<Action>, i: nat, c: Choice)
    requires |run| < U64_MAX && i < |After(run).tasks| && After(run).tasks[i].Started?
    ensures var s := After(run); var s', t := Next(s, Step(i, c)), s.tasks[i];
      && s'.tasks == s.tasks[i := if c.Fails? then StopRequest(t.w) else Watch(t.w)]
      && (s.world.m.shuttingDown ==> s'.world == s.world)
      && (!s.world.m.shuttingDown ==>
            s'.world.m.runtime == Status(Starting, None, Some(t.w.token), Some(t.w.generation)))
  {
    hide After, Processes, Published;
    Known(run, i);
  }

  /** The stability timer gives the attempts back exactly when its generation is
      live with its handle, shown as Ready, and no shutdown has begun. */
  lemma StableGenerationsEarnRestarts(run: seq<Action>, i: nat, c: Choice)
    requires i < |After(run).tasks| && After(run).tasks[i].StabilityTimer?
    ensures var s := After(run); var s', g, m := Next(s, Step(i, c)), s.tasks[i].stableGeneration, s.world.m;
      s'.world.m == if m.activeGeneration == Some(g) && m.child.Some? && !m.shuttingDown
                       && m.runtime.phase.Ready? && m.runtime.generation == Some(g)
                    then m.(restartAttempts := 0) else m
  {
    hide After;
  }

  /** A watcher that is told of the end of its process records how it really ended,
      drops the handle, and leads on to a restart. */
  lemma ExitsAreRecorded(run: seq<Action>, i: nat)
    requires |run| < U64_MAX && i < |After(run).tasks| && After(run).tasks[i].Watch?
    requires After(run).tasks[i].w.generation in After(run).world.procs
    requires After(run).world.procs[After(run).tasks[i].w.generation].exit.Some?
    ensures var s := After(run); var s', g := Next(s, Step(i, Terminated)), s.tasks[i].w.generation;
      && s'.tasks == s.tasks[i := Exited(g)]
      && g in s'.world.procs && s'.world.procs[g].recorded && s'.world.procs[g].exit == s.world.procs[g].exit
      && s'.world.m.activeGeneration.None? && s'.world.m.child.None?
      && s'.world.m.exited == s.world.procs[g].exit
      && s'.world.m.shuttingDown == s.world.m.shuttingDown
      && s'.world.m.shutdownGeneration == s.world.m.shutdownGeneration
      && s'.world.m.shutdownComplete == s.world.m.shutdownComplete
      && (!s.world.m.shuttingDown ==> s'.world.m.runtime.phase.Error?)
  {
    hide After, Published, Restarts;
    Known(run, i);
  }

  /** What sends a watcher to a forced stop: a handshake that timed out or went wrong
      before the process was ready, or an error of the process, unless a stop is
      already under way; for a process error, unless a shutdown has begun. */
  lemma TroubleStopsProcess(run: seq<Action>, i: nat, c: Choice)
    requires i < |After(run).tasks| && After(run).tasks[i].Watch?
    requires c.HandshakeTimesOut? || c.BadLine? || c.ProcessError? || c.ReadyLine?
    ensures var s := After(run); var s', v := Next(s, Step(i, c)), s.tasks[i].w;
      && s'.world == s.world
      && (c.HandshakeTimesOut? || c.BadLine? ==>
            s'.tasks[i] == if v.ready || v.stopping then Watch(v) else StopRequest(v))
      && (c.ProcessError? ==>
            s'.tasks[i] == if v.stopping || s.world.m.shuttingDown then Watch(v) else StopRequest(v))
      && (c.ReadyLine? ==>
            s'.tasks[i] == if v.ready || v.stopping then Watch(v) else HealthCheck(v.(ready := true), c.url))
  {
    hide After;
  }

  /** A watcher whose event stream closes, or whose stop was not confirmed in time,
      shows the error of its live process. */
  lemma LostProcessesShow(run: seq<Action>, i: nat, c: Choice)
    requires |run| < U64_MAX && i < |After(run).tasks| && After(run).tasks[i].Watch?
    requires c.StreamCloses? || (c.DeadlineFires? && After(run).tasks[i].w.deadline)
    ensures var s := After(run); var s', v := Next(s, Step(i, c)), s.tasks[i].w;
      && s'.tasks[i] == (if c.StreamCloses? then Done else Watch(v.(deadline := false)))
      && (if s.world.m.shuttingDown then s'.world == s.world else s'.world.m.runtime.phase.Error?)
  {
    hide After, Processes, Published;
    Known(run, i);
  }

  /** At start-up the application either launches its own service or adopts an
      external one, which it shows as ready once its health check passed; a bad
      external address is an error. */
  lemma StartUpChooses(c: Choice, d: Choice)
    ensures var s := After([Step(0, c)]); var s' := Next(s, Step(0, d));
      && |s.tasks| == 1
      && (c.UseExternal? ==>
            && !s.world.m.managed && s.world.m.runtime == Status(Starting, Some(c.externalUrl), c.externalToken, None)
            && s'.tasks[0].Done?
            && (d.Succeeds? ==>
                  s'.world.m.runtime == Status(Phase.Ready, Some(c.externalUrl), c.externalToken, None))
            && (!d.Succeeds? ==> s'.world.m.runtime.phase.Error?))
      && (c.BadExternalUrl? ==> s.tasks[0].Done? && s.world.m.runtime.phase.Error? && !s.world.m.managed)
      && (!c.UseExternal? && !c.BadExternalUrl? ==> s.tasks[0].Launch? && s.world.m.managed)
  {
    var none: seq<Action> := [];
    assert [Step(0, c)] == none + [Step(0, c)];
    Snoc(none, Step(0, c));
    assert After(none) == START;
  }

  /** A forced stop takes the handle of the live process, kills it once and shows the
      error; after a shutdown began it leaves the process to the shutdown. */
  lemma StopTakesAndKills(run: seq<Action>, i: nat, c: Choice)
    requires |run| < U64_MAX && i < |After(run).tasks|
    requires After(run).tasks[i].StopRequest? || After(run).tasks[i].StopKill? || After(run).tasks[i].StopReport?
    ensures var s := After(run); var s', v := Next(s, Step(i, c)), s.tasks[i].w; var g := v.generation;
      && g in s.world.procs && g in s'.world.procs
      && (s.tasks[i].StopRequest? ==>
            if s.world.m.shuttingDown then s'.world == s.world && s'.tasks[i] == Watch(v.(stopping := true))
            else if s.world.m.child.Some? then
              && s'.tasks[i] == StopKill(v) && s'.world.m.child.None?
              && s'.world.procs[g].forced && s'.world.procs[g].handle == HeldBy(i)
            else s'.world == s.world && s'.tasks[i] == StopReport(v))
      && (s.tasks[i].StopKill? ==>
            s'.tasks[i] == StopReport(v) && s'.world.procs[g].kills == 1 && s'.world.procs[g].handle.Dropped?)
      && (s.tasks[i].StopReport? ==>
            && s'.tasks[i] == Watch(v.(stopping := true, deadline := true))
            && (!s.world.m.shuttingDown ==> s'.world.m.runtime.phase.Error?))
  {
    hide After, Published;
    Known(run, i);
  }

  // ----- shutdown -----

  /** The first caller owns the shutdown: it stops restarts and publishing for good
      and remembers the live generation. Every other caller waits or is refused. */
  lemma FirstCallerOwns(run: seq<Action>, i: nat, c: Choice)
    requires i < |After(run).tasks| && (After(run).tasks[i].ExitCall? || After(run).tasks[i].RestartBegin?)
    ensures var s := After(run); var s', t, m := Next(s, Step(i, c)), s.tasks[i], s.world.m;
      if m.shuttingDown then
        s'.world == s.world && s'.tasks[i] == if t.RestartBegin? then RestartFailed else ShutdownWait
      else
        && s'.tasks[i] == Owning(TakeHandle, m.activeGeneration, t.RestartBegin?)
        && s'.world.m.shuttingDown && !s'.world.m.shutdownComplete && s'.world.m.scheduledRestart.None?
        && s'.world.m.shutdownGeneration == m.activeGeneration && s'.world.m.activeGeneration == m.activeGeneration
        && s'.world.m.runtime.phase.Error? && s'.world.m.child == m.child && s'.world.procs == s.world.procs
  {
    hide After;
  }

  /** shutdown_for_restart is refused outside bundled mode and while another shutdown
      runs; a completed one is judged, and otherwise a shutdown is begun. A waiter
      returns exactly when the shutdown is complete. */
  lemma CallersAreAnswered(run: seq<Action>, i: nat, c: Choice)
    requires i < |After(run).tasks|
    ensures var s := After(run); var s', m := Next(s, Step(i, c)), s.world.m;
      && (s.tasks[i].RestartCall? || s.tasks[i].ShutdownWait? ==> s'.world == s.world)
      && (s.tasks[i].RestartCall? ==>
            s'.tasks[i] == if !m.managed || (m.shuttingDown && !m.shutdownComplete) then RestartFailed
                           else if m.shuttingDown then Validate(m.shutdownGeneration) else RestartBegin)
      && (s.tasks[i].ShutdownWait? ==>
            s'.tasks[i] == if m.shutdownComplete then WaitReturned else ShutdownWait)
  {
    hide After;
  }

  /** The owner asks a process it holds to end by one write, and waits; without the
      handle it only waits, and without a process it is done. */
  lemma OwnerAsksFirst(run: seq<Action>, i: nat, c: Choice)
    requires |run| < U64_MAX && i < |After(run).tasks| && After(run).tasks[i].Owning?
    requires After(run).tasks[i].stage.TakeHandle? || After(run).tasks[i].stage.WriteRequest?
    ensures var s := After(run); var s', t := Next(s, Step(i, c)), s.tasks[i];
      && s'.world.m.shuttingDown == s.world.m.shuttingDown && s'.world.m.shutdownComplete == s.world.m.shutdownComplete
      && s'.world.m.shutdownGeneration == s.world.m.shutdownGeneration
      && s'.world.m.activeGeneration == s.world.m.activeGeneration
      && if t.target.None? then s'.tasks[i] == Owning(Finish, None, t.restart)
         else
           var g := t.target.value;
           && g in s.world.procs && g in s'.world.procs && s'.world.procs[g].exit == s.world.procs[g].exit
           && s'.world.procs[g].recorded == s.world.procs[g].recorded
           && if t.stage.WriteRequest? then
                && s'.tasks[i] == Owning(if c.Fails? then WriteFailed else Graceful, t.target, t.restart)
                && s'.world.procs[g].writes == 1
              else if s.world.procs[g].handle.InManager? then
                && s'.tasks[i] == Owning(WriteRequest, t.target, t.restart)
                && s'.world.procs[g].handle == HeldBy(i)
              else s'.tasks[i] == Owning(AwaitExit, t.target, t.restart) && s'.world == s.world
  {
    hide After, Published, Restarts;
    Known(run, i);
  }

  /** A waiting owner goes on at once when the exit is recorded, and otherwise when
      its deadline fires, from asking to checking again, killing, and giving up. */
  lemma OwnerWaits(run: seq<Action>, i: nat, c: Choice)
    requires |run| < U64_MAX && i < |After(run).tasks| && After(run).tasks[i].Owning?
    requires After(run).tasks[i].target.Some? && SidecarInvariant.Waits(After(run).tasks[i].stage)
    ensures var s := After(run); var s', t := Next(s, Step(i, c)), s.tasks[i]; var g := t.target.value;
      && g in s.world.procs && s'.world.m == s.world.m && s'.tasks[i].Owning?
      && s'.tasks[i].target == t.target && s'.tasks[i].restart == t.restart
      && s'.tasks[i].stage ==
           if s.world.procs[g].recorded then Finish
           else match t.stage
             case Recheck => LastCheck
             case LastCheck => KillNow
             case Graceful => if c.DeadlineFires? then LastCheck else t.stage
             case _ => if c.DeadlineFires? then Unconfirmed else t.stage
  {
    hide After, Published, Restarts;
    Known(run, i);
    LatestExitDecidesIn(run, i);
  }

  lemma LatestExitDecidesIn(run: seq<Action>, i: nat)
    requires |run| < U64_MAX && i < |After(run).tasks|
    requires After(run).tasks[i].Validate? || After(run).tasks[i].Owning?
    requires After(run).tasks[i].target.Some?
    ensures var w, g := After(run).world, After(run).tasks[i].target.value;
      && g in w.procs && (w.m.ExitOf(g).Some? <==> w.procs[g].recorded)
  {
    hide After, Inv, Relied;
    Reachable(run);
    ReliedReachable(run);
    LatestExitDecides(After(run), i);
  }

  /** The owner's remaining steps: killing, reporting and finishing. */
  lemma OwnerKillsAndFinishes(run: seq<Action>, i: nat, c: Choice)
    requires |run| < U64_MAX && i < |After(run).tasks| && After(run).tasks[i].Owning?
    ensures var s := After(run); var s', t := Next(s, Step(i, c)), s.tasks[i];
      && (t.stage.KillNow? && t.target.Some? ==>
            && t.target.value in s'.world.procs && s'.world.procs[t.target.value].kills == 1
            && s'.tasks[i] == Owning(if c.Fails? then KillFailed else KillSent, t.target, t.restart))
      && (Reports(t.stage) && t.target.Some? ==>
            && s'.world.m.runtime.phase.Error?
            && s'.tasks[i] == Owning(if t.stage.WriteFailed? then Recheck else if t.stage.KillSent? then Forced
                                     else Finish, t.target, t.restart))
      && (t.stage.Finish? ==>
            && s'.world.m.shutdownComplete && s'.world.m.shuttingDown == s.world.m.shuttingDown
            && s'.world.m.shutdownGeneration == s.world.m.shutdownGeneration && s'.world.procs == s.world.procs
            && s'.tasks[i] == if t.restart then Validate(t.target) else ExitReturned)
  {
    hide After, Published, Restarts;
    Known(run, i);
  }

  /** A completed shutdown left nothing undone: the generation it remembered has its
      exit recorded, or was killed, or a forced stop had taken its handle before;
      and the owner kills only after it asked. */
  lemma ShutdownAsksThenKills(run: seq<Action>)
    requires |run| < U64_MAX
    ensures var w := After(run).world;
      && (w.m.shutdownComplete && w.m.shutdownGeneration.Some? ==>
            var g := w.m.shutdownGeneration.value;
            g in w.procs && (w.procs[g].recorded || w.procs[g].kills == 1 || w.procs[g].forced))
      && (forall g :: g in w.procs && w.procs[g].kills > 0 ==> w.procs[g].forced || w.procs[g].writes == 1)
  {
    hide After, Inv;
    ReliedReachable(run);
  }

  // ----- a shutdown that ends well, and one that has to be waited out -----

  /** The steps of a restart caller `i` whose process, watched by task `j`, ends
      cleanly once it was asked to. */
  function CleanRestart(i: nat, j: nat, g: nat): seq<Action> {
    var go := Step(i, Succeeds);
    [go, go, go, go] + [ProcessDies(g, Some(0), None), Step(j, Terminated)] + [go, go, go]
  }

  lemma AskedToEnd(run: seq<Action>, i: nat, g: nat)
    requires |run| + 4 < U64_MAX && i < |After(run).tasks| && After(run).tasks[i].RestartCall?
    requires var m := After(run).world.m;
      && m.managed && !m.shuttingDown && m.activeGeneration == Some(g) && m.child == Some(g)
    requires g in After(run).world.procs && After(run).world.procs[g].exit.None?
    ensures var go := Step(i, Succeeds); var s, s' := After(run), After(run + [go] + [go] + [go] + [go]);
      && |s'.tasks| >= |s.tasks| && (forall k :: 0 <= k < |s.tasks| && k != i ==> s'.tasks[k] == s.tasks[k])
      && i < |s'.tasks| && s'.tasks[i] == Owning(Graceful, Some(g), true)
      && s'.world.m.shuttingDown && !s'.world.m.shutdownComplete && s'.world.m.shutdownGeneration == Some(g)
      && g in s'.world.procs && s'.world.procs[g].exit.None?
  {
    hide After, Next;
    var go := Step(i, Succeeds);
    var r1, r2 := run + [go], run + [go] + [go];
    var r3 := r2 + [go];
    Snoc(run, go);
    TasksStayPut(run, i, Succeeds);
    CallersAreAnswered(run, i, Succeeds);
    Snoc(r1, go);
    TasksStayPut(r1, i, Succeeds);
    FirstCallerOwns(r1, i, Succeeds);
    InManagerMeansStored(r2, g);
    Snoc(r2, go);
    TasksStayPut(r2, i, Succeeds);
    OwnerAsksFirst(r2, i, Succeeds);
    Snoc(r3, go);
    TasksStayPut(r3, i, Succeeds);
    OwnerAsksFirst(r3, i, Succeeds);
  }

  lemma InManagerMeansStored(run: seq<Action>, g: nat)
    requires |run| < U64_MAX && g in After(run).world.procs && After(run).world.m.child == Some(g)
    ensures After(run).world.procs[g].handle.InManager?
  {
    hide After;
    Reachable(run);
  }

  /** A restart of a running application succeeds when its service, asked to end,
      ends with code 0: from any reachable state with a live, watched service and no
      shutdown begun, there is a way to the answer Ok. */
  lemma CleanRestartSucceeds(run: seq<Action>, i: nat, j: nat)
    requires |run| + 9 < U64_MAX && i < |After(run).tasks| && After(run).tasks[i].RestartCall?
    requires j < |After(run).tasks| && After(run).tasks[j].Watch?
    requires var w, g := After(run).world, After(run).tasks[j].w.generation;
      && !w.m.shuttingDown && w.m.child == Some(g) && g in w.procs && w.procs[g].exit.None?
    ensures var g := After(run).tasks[j].w.generation; var s' := After(run + CleanRestart(i, j, g));
      && i < |s'.tasks| && s'.tasks[i] == RestartOk(Some(g))
      && g in s'.world.procs && s'.world.procs[g].recorded
  {
    hide After, Next;
    var g, go := After(run).tasks[j].w.generation, Step(i, Succeeds);
    WatchedIsLive(run, j);
    AskedToEnd(run, i, g);
    var asked := run + [go] + [go] + [go] + [go];
    var dead := asked + [ProcessDies(g, Some(0), None)];
    Snoc(asked, ProcessDies(g, Some(0), None));
    DeathEndsProcess(After(asked), g);
    var ended := dead + [Step(j, Terminated)];
    Snoc(dead, Step(j, Terminated));
    TasksStayPut(dead, j, Terminated);
    ExitsAreRecorded(dead, j);
    var seen := ended + [go];
    Snoc(ended, go);
    TasksStayPut(ended, i, Succeeds);
    OwnerWaits(ended, i, Succeeds);
    PermanentStep(ended, go, g);
    var closed := seen + [go];
    Snoc(seen, go);
    TasksStayPut(seen, i, Succeeds);
    OwnerKillsAndFinishes(seen, i, Succeeds);
    Snoc(closed, go);
    TasksStayPut(closed, i, Succeeds);
    RestartIsAnswered(closed, i, Succeeds);
    PermanentStep(closed, go, g);
    assert run + CleanRestart(i, j, g) == closed + [go];
  }

  lemma WatchedIsLive(run: seq<Action>, j: nat)
    requires |run| < U64_MAX && j < |After(run).tasks| && After(run).tasks[j].Watch?
    ensures After(run).world.m.managed && After(run).world.m.activeGeneration == Some(After(run).tasks[j].w.generation)
  {
    hide After;
    Known(run, j);
  }

  lemma DeathEndsProcess(s: System, g: nat)
    requires g in s.world.procs && s.world.procs[g].exit.None?
    ensures var s' := Next(s, ProcessDies(g, Some(0), None));
      && s'.tasks == s.tasks && s'.world.m == s.world.m
      && g in s'.world.procs && s'.world.procs[g].exit == Some(ChildExit(g, Some(0), None))
  {
  }

  lemma PermanentStep(run: seq<Action>, a: Action, g: nat)
    requires |run| + 1 < U64_MAX && g in After(run).world.procs && After(run).world.procs[g].recorded
    ensures var w, w' := After(run).world, After(run + [a]).world;
      g in w'.procs && w'.procs[g].recorded && (w.procs[g].exit.Some? ==> w'.procs[g].exit == w.procs[g].exit)
  {
    hide After;
    HistoryIsPermanent(run, [a]);
    assert Lasting(After(run).world, After(run + [a]).world, g);
  }

  /** How many of its own steps the owner of a shutdown still needs at most. */
  function StepsLeft(stage: Stage): nat {
    match stage
    case TakeHandle => 11
    case WriteRequest => 10
    case WriteFailed => 9
    case Graceful => 8
    case Recheck => 8
    case LastCheck => 7
    case KillNow => 6
    case KillSent => 5
    case Forced => 4
    case AwaitExit => 4
    case KillFailed => 3
    case Unconfirmed => 3
    case Finish => 1
  }

  function Left(t: Task): nat {
    if t.Owning? then StepsLeft(t.stage) else 0
  }

  /** Every step of the owner brings it closer to its end, except waiting for a
      deadline that does not fire. */
  lemma OwnerAdvances(w: World, i: nat, t: Task, c: Choice)
    requires t.Owning? && (c.DeadlineFires? || !SidecarInvariant.Waits(t.stage))
    ensures var o := ShutdownTaskStep(w, i, t, c);
      && Left(o.task) < Left(t) && o.started.None?
      && (o.task.Owning? || o.world.m.shutdownComplete)
  {
  }

  function OwnSteps(more: seq<Action>, i: nat): nat {
    if more == [] then 0 else
      var last := more[|more| - 1];
      OwnSteps(more[..|more| - 1], i) + if last.Step? && last.task == i then 1 else 0
  }

  /** Once a shutdown has an owner, it is complete after at most eleven steps of that
      owner whose deadlines fire, whatever everybody else does in between. */
  lemma {:induction false} ShutdownEnds(run: seq<Action>, i: nat, more: seq<Action>)
    requires |run + more| < U64_MAX && i < |After(run).tasks| && After(run).tasks[i].Owning?
    requires forall a :: a in more && a.Step? && a.task == i ==> a.choice.DeadlineFires?
    ensures var s := After(run + more);
      && i < |s.tasks|
      && (s.world.m.shutdownComplete
          || (s.tasks[i].Owning? && Left(s.tasks[i]) + OwnSteps(more, i) <= 11))
  {
    hide After, Next, TaskStep;
    if more == [] {
      assert run + more == run;
    } else {
      var front, last := more[..|more| - 1], more[|more| - 1];
      ShutdownEnds(run, i, front);
      assert run + more == run + front + [last] && last in more;
      Snoc(run + front, last);
      NextAdvances(run + front, last, i);
      if After(run + front).world.m.shutdownComplete {
        CompleteMeansShutting(run + front);
      }
    }
  }

  lemma CompleteMeansShutting(run: seq<Action>)
    requires |run| < U64_MAX && After(run).world.m.shutdownComplete
    ensures After(run).world.m.shuttingDown
  {
    hide After;
    Reachable(run);
  }

  lemma NextAdvances(run: seq<Action>, a: Action, i: nat)
    requires |run| + 1 < U64_MAX && i < |After(run).tasks|
    requires a.Step? && a.task == i ==> a.choice.DeadlineFires?
    ensures var s, s' := After(run), Next(After(run), a);
      && i < |s'.tasks|
      && (s.world.m.shutdownComplete && s.world.m.shuttingDown ==> s'.world.m.shutdownComplete)
      && (s.tasks[i].Owning? && a.Step? && a.task == i ==>
            && Left(s'.tasks[i]) < Left(s.tasks[i])
            && (s'.tasks[i].Owning? || s'.world.m.shutdownComplete))
      && (!(a.Step? && a.task == i) ==> s'.tasks[i] == s.tasks[i])
  {
    hide After, LaunchTaskStep, WatchTaskStep, ShutdownTaskStep;
    var s := After(run);
    NextIsForward(s, a);
    if a.Step? && a.task == i && s.tasks[i].Owning? {
      OwnerAdvances(s.world, i, s.tasks[i], a.choice);
    }
  }
}
