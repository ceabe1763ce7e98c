/** The invariant of the Sidecar protocol, and the proof that every action of
    every task keeps it.

    `Shared` speaks of the shared state alone. `TaskOk` says what each task may
    rely on at its program point. A step has to keep `Shared`, to give its own
    task what the next program point relies on, and to take nothing away from
    any other task. */
module SidecarInvariant {
  import opened Options
  import opened SidecarState
  import opened SidecarProtocol

  /** A task that may lead to a launch without any further permission. */
  predicate Intent(t: Task) {
    t.Boot? || t.ExternalCheck? || t.Launch? || t.LaunchFailed? || t.Schedule? || t.Exited?
  }

  predicate HasTicket(t: Task, ticket: nat) {
    t == Announce(ticket) || t == Timer(ticket)
  }

  /** The generation whose control handle a task holds at its program point. */
  function Holds(t: Task): Option<nat> {
    if t.StopKill? then Some(t.w.generation)
    else if t.Owning? && HoldsHandle(t.stage) then t.target
    else None
  }

  predicate Idle(m: Manager) {
    m.activeGeneration.None? && m.scheduledRestart.None?
  }

  predicate HolderOk(t: Task, i: nat, g: nat, procs: map<nat, Process>) {
    && g in procs
    && procs[g].handle == HeldBy(i)
    && (if t.StopKill? then procs[g].forced
        else t.Owning? && !procs[g].forced && procs[g].writes == if t.stage.WriteRequest? then 0 else 1)
  }

  predicate CleanlyClosed(m: Manager, target: Option<nat>) {
    && m.activeGeneration.None?
    && (target.Some? ==> m.ExitOf(target.value).Some? && m.exited.value.IsClean())
  }

  predicate ShutdownTaskOk(t: Task, i: nat, m: Manager, owner: Option<nat>) {
    && (t.Owning? ==> owner == Some(i) && !m.shutdownComplete && t.target == m.shutdownGeneration)
    && (t.Validate? ==> m.shutdownComplete && t.target == m.shutdownGeneration)
    && (t.RestartOk? ==> m.shutdownComplete && t.target == m.shutdownGeneration && CleanlyClosed(m, t.target))
    && (t.ExitReturned? || t.WaitReturned? ==> m.shutdownComplete)
  }

  predicate TaskOk(t: Task, i: nat, w: World) {
    && (Intent(t) ==> i == w.h.intent && Idle(w.m))
    && (t.Boot? ==> w.h.launches == 0 && !w.m.managed
                    && w.m.runtime.baseUrl.None? && w.m.runtime.sessionToken.None?
                    && (w.m.shuttingDown ==> w.m.runtime.phase.Error?))
    && (t.ExternalCheck? ==> !w.m.managed)
    && (w.m.scheduledRestart.Some? && i == w.h.timer ==> HasTicket(t, w.m.scheduledRestart.value))
    && (Holds(t).Some? ==> HolderOk(t, i, Holds(t).value, w.procs))
    && ShutdownTaskOk(t, i, w.m, w.h.owner)
    && (w.h.owner == Some(i) && !w.m.shutdownComplete ==> t.Owning?)
  }

  /** Restart bookkeeping. */
  ghost predicate Restarts(m: Manager, h: History, steps: nat) {
    && (m.activeGeneration.Some? ==> m.scheduledRestart.None?)
    && (m.child.Some? ==> m.child == m.activeGeneration)
    && h.refusals == 0
    && m.nextRestartTicket <= steps
    && (forall k :: 0 <= k < |h.claims| ==> h.claims[k] <= m.nextRestartTicket)
    && (forall j, k :: 0 <= j < k < |h.claims| ==> h.claims[j] != h.claims[k])
    && (m.scheduledRestart.Some? ==>
          m.scheduledRestart.value <= m.nextRestartTicket && m.scheduledRestart.value !in h.claims)
    && m.restartAttempts <= MAX_RESTART_ATTEMPTS
    && h.claimsSinceReset + (if m.scheduledRestart.Some? then 1 else 0) <= m.restartAttempts
    && |h.claims| <= MAX_RESTART_ATTEMPTS * h.resets + h.claimsSinceReset
    && h.launches == |h.claims| + (if m.managed then 1 else 0)
  }

  predicate ProcessOk(p: Process, g: nat, m: Manager) {
    && (p.recorded <==> m.activeGeneration != Some(g))
    && (p.recorded ==> p.exit.Some?)
    && (p.exit.Some? ==> p.exit.value.generation == g)
    && (p.handle.InManager? <==> m.child == Some(g))
    && (!p.handle.Dropped? ==> p.kills == 0)
    && (p.handle.InManager? ==> p.writes == 0 && !p.forced)
    && p.kills <= 1
    && p.writes <= 1
    && (p.forced ==> p.writes == 0)
  }

  ghost predicate Processes(m: Manager, procs: map<nat, Process>, steps: nat) {
    && m.nextGeneration <= steps
    && (forall g: nat :: g in procs <==> 1 <= g <= m.nextGeneration)
    && (forall g :: g in procs ==> ProcessOk(procs[g], g, m))
    && (m.activeGeneration.Some? ==> m.activeGeneration.value in procs)
    && (m.exited.Some? ==>
          && m.exited.value.generation in procs
          && procs[m.exited.value.generation].recorded
          && procs[m.exited.value.generation].exit == m.exited)
  }

  predicate Closing(m: Manager, h: History) {
    && (m.shuttingDown <==> h.owner.Some?)
    && (m.shutdownComplete ==> m.shuttingDown)
    && (m.shuttingDown ==>
          && m.scheduledRestart.None?
          && (m.activeGeneration.None? || m.activeGeneration == m.shutdownGeneration))
  }

  predicate Published(m: Manager) {
    var r := m.runtime;
    && (r.phase.Ready? && r.generation.Some? ==> m.activeGeneration == r.generation && !m.shuttingDown)
    && (r.phase.Error? || r.phase.Restarting? ==> r.baseUrl.None? && r.sessionToken.None?)
    && (m.managed ==>
          && (r.baseUrl.Some? ==> r.phase.Ready?)
          && (r.sessionToken.Some? ==>
                r.generation.Some? && m.activeGeneration == r.generation && !m.shuttingDown)
          && (m.shuttingDown ==> r.phase.Error?))
  }

  ghost predicate Shared(w: World, steps: nat) {
    && Restarts(w.m, w.h, steps)
    && Processes(w.m, w.procs, steps)
    && Closing(w.m, w.h)
    && Published(w.m)
  }

  ghost predicate Inv(s: System) {
    && Shared(s.world, s.steps)
    && s.world.h.timer < |s.tasks|
    && (s.world.h.owner.Some? ==> s.world.h.owner.value < |s.tasks|)
    && (forall i :: 0 <= i < |s.tasks| ==> TaskOk(s.tasks[i], i, s.world))
  }

  predicate Waits(stage: Stage) {
    stage.AwaitExit? || stage.Graceful? || stage.Recheck? || stage.LastCheck? || stage.Forced?
  }

  /** Task `i` may take a step at program point `t`. */
  ghost predicate Enabled(w: World, i: nat, t: Task, steps: nat) {
    Shared(w, steps) && steps < U64_MAX && TaskOk(t, i, w)
  }

  /** Step `o` of task `i` gives its own task what the program point it reaches
      relies on, and takes nothing from a task `u` at another index `j`. */
  ghost predicate Serves(w: World, i: nat, o: Outcome, u: Task, j: nat) {
    && TaskOk(o.task, i, o.world)
    && (j != i && TaskOk(u, j, w) ==> TaskOk(u, j, o.world))
  }

  lemma BootKeepsShared(w: World, i: nat, t: Task, c: Choice, steps: nat)
    requires Enabled(w, i, t, steps) && t.Boot?
    ensures Shared(BootStep(w, i, c).world, steps + 1)
  {
  }

  lemma BootServes(w: World, i: nat, t: Task, c: Choice, steps: nat, u: Task, j: nat)
    requires Enabled(w, i, t, steps) && t.Boot?
    ensures Serves(w, i, BootStep(w, i, c), u, j)
  {
    hide Restarts, Published;
  }

  lemma ExternalKeepsShared(w: World, i: nat, t: Task, c: Choice, steps: nat)
    requires Enabled(w, i, t, steps) && t.ExternalCheck?
    ensures Shared(ExternalStep(w, t.url, t.externalToken, c).world, steps + 1)
  {
  }

  lemma ExternalServes(w: World, i: nat, t: Task, c: Choice, steps: nat, u: Task, j: nat)
    requires Enabled(w, i, t, steps) && t.ExternalCheck?
    ensures Serves(w, i, ExternalStep(w, t.url, t.externalToken, c), u, j)
  {
    hide Restarts, Published;
  }

  lemma LaunchKeepsShared(w: World, i: nat, t: Task, c: Choice, steps: nat)
    requires Enabled(w, i, t, steps) && t.Launch?
    ensures Shared(LaunchStep(w, c).world, steps + 1)
  {
  }

  lemma LaunchServes(w: World, i: nat, t: Task, c: Choice, steps: nat, u: Task, j: nat)
    requires Enabled(w, i, t, steps) && t.Launch?
    ensures Serves(w, i, LaunchStep(w, c), u, j)
  {
    hide Restarts, Published;
  }

  lemma LaunchFailedKeepsShared(w: World, i: nat, t: Task, steps: nat)
    requires Enabled(w, i, t, steps) && t.LaunchFailed?
    ensures Shared(LaunchFailedStep(w).world, steps + 1)
  {
  }

  lemma LaunchFailedServes(w: World, i: nat, t: Task, steps: nat, u: Task, j: nat)
    requires Enabled(w, i, t, steps) && t.LaunchFailed?
    ensures Serves(w, i, LaunchFailedStep(w), u, j)
  {
    hide Restarts, Published;
  }

  lemma ScheduleKeepsShared(w: World, i: nat, t: Task, steps: nat)
    requires Enabled(w, i, t, steps) && t.Schedule?
    ensures Shared(ScheduleStep(w, i).world, steps + 1)
  {
  }

  lemma ScheduleServes(w: World, i: nat, t: Task, steps: nat, u: Task, j: nat)
    requires Enabled(w, i, t, steps) && t.Schedule?
    ensures Serves(w, i, ScheduleStep(w, i), u, j)
  {
    hide Restarts, Published;
  }

  lemma GiveUpKeepsShared(w: World, i: nat, t: Task, steps: nat)
    requires Enabled(w, i, t, steps) && t.GiveUp?
    ensures Shared(Moved(w, w.m.SetErrorUnlessShuttingDown().0, Done).world, steps + 1)
  {
  }

  lemma GiveUpServes(w: World, i: nat, t: Task, steps: nat, u: Task, j: nat)
    requires Enabled(w, i, t, steps) && t.GiveUp?
    ensures Serves(w, i, Moved(w, w.m.SetErrorUnlessShuttingDown().0, Done), u, j)
  {
    hide Restarts, Published;
  }

  lemma AnnounceKeepsShared(w: World, i: nat, t: Task, steps: nat)
    requires Enabled(w, i, t, steps) && t.Announce?
    ensures Shared(AnnounceStep(w, t.ticket).world, steps + 1)
  {
  }

  lemma AnnounceServes(w: World, i: nat, t: Task, steps: nat, u: Task, j: nat)
    requires Enabled(w, i, t, steps) && t.Announce?
    ensures Serves(w, i, AnnounceStep(w, t.ticket), u, j)
  {
    hide Restarts, Published;
  }

  lemma TimerKeepsShared(w: World, i: nat, t: Task, steps: nat)
    requires Enabled(w, i, t, steps) && t.Timer?
    ensures Shared(TimerStep(w, i, t.ticket).world, steps + 1)
  {
  }

  lemma TimerServes(w: World, i: nat, t: Task, steps: nat, u: Task, j: nat)
    requires Enabled(w, i, t, steps) && t.Timer?
    ensures Serves(w, i, TimerStep(w, i, t.ticket), u, j)
  {
    hide Published;
  }

  lemma StabilityKeepsShared(w: World, i: nat, t: Task, steps: nat)
    requires Enabled(w, i, t, steps) && t.StabilityTimer?
    ensures Shared(StabilityStep(w, t.stableGeneration).world, steps + 1)
  {
  }

  lemma StabilityServes(w: World, i: nat, t: Task, steps: nat, u: Task, j: nat)
    requires Enabled(w, i, t, steps) && t.StabilityTimer?
    ensures Serves(w, i, StabilityStep(w, t.stableGeneration), u, j)
  {
    hide Restarts, Published;
  }

  lemma StartedKeepsShared(w: World, i: nat, t: Task, c: Choice, steps: nat)
    requires Enabled(w, i, t, steps) && t.Started?
    ensures Shared(StartedStep(w, t.w, c).world, steps + 1)
  {
  }

  lemma StartedServes(w: World, i: nat, t: Task, c: Choice, steps: nat, u: Task, j: nat)
    requires Enabled(w, i, t, steps) && t.Started?
    ensures Serves(w, i, StartedStep(w, t.w, c), u, j)
  {
    hide Restarts, Published;
  }

  lemma TerminatedKeepsShared(w: World, i: nat, t: Task, steps: nat)
    requires Enabled(w, i, t, steps) && t.Watch?
    ensures Shared(TerminatedStep(w, i, t.w).world, steps + 1)
  {
    var o := TerminatedStep(w, i, t.w).world;
    assert Processes(o.m, o.procs, steps + 1) by {
      hide Restarts, Published, Closing;
    }
    assert Restarts(o.m, o.h, steps + 1) && Closing(o.m, o.h) && Published(o.m) by {
      hide Processes, ProcessOk;
    }
  }

  lemma TerminatedServes(w: World, i: nat, t: Task, steps: nat, u: Task, j: nat)
    requires Enabled(w, i, t, steps) && t.Watch?
    ensures Serves(w, i, TerminatedStep(w, i, t.w), u, j)
  {
    hide Published;
  }

  lemma HealthKeepsShared(w: World, i: nat, t: Task, c: Choice, steps: nat)
    requires Enabled(w, i, t, steps) && t.HealthCheck?
    ensures Shared(HealthStep(w, t.w, t.url, c).world, steps + 1)
  {
  }

  lemma HealthServes(w: World, i: nat, t: Task, c: Choice, steps: nat, u: Task, j: nat)
    requires Enabled(w, i, t, steps) && t.HealthCheck?
    ensures Serves(w, i, HealthStep(w, t.w, t.url, c), u, j)
  {
    hide Restarts, Published;
  }

  lemma StopRequestKeepsShared(w: World, i: nat, t: Task, steps: nat)
    requires Enabled(w, i, t, steps) && t.StopRequest?
    ensures Shared(StopRequestStep(w, i, t.w).world, steps + 1)
  {
    var o := StopRequestStep(w, i, t.w).world;
    assert Processes(o.m, o.procs, steps + 1) by {
      hide Restarts, Published, Closing;
    }
    assert Restarts(o.m, o.h, steps + 1) && Closing(o.m, o.h) && Published(o.m) by {
      hide Processes, ProcessOk;
    }
  }

  lemma StopRequestServes(w: World, i: nat, t: Task, steps: nat, u: Task, j: nat)
    requires Enabled(w, i, t, steps) && t.StopRequest?
    ensures Serves(w, i, StopRequestStep(w, i, t.w), u, j)
  {
    hide Restarts, Published;
  }

  lemma StopKillKeepsShared(w: World, i: nat, t: Task, steps: nat)
    requires Enabled(w, i, t, steps) && t.StopKill?
    ensures Shared(Go(Killed(w, t.w.generation), StopReport(t.w)).world, steps + 1)
  {
  }

  lemma StopKillServes(w: World, i: nat, t: Task, steps: nat, u: Task, j: nat)
    requires Enabled(w, i, t, steps) && t.StopKill?
    ensures Serves(w, i, Go(Killed(w, t.w.generation), StopReport(t.w)), u, j)
  {
    hide Restarts, Published;
  }

  lemma BeginKeepsShared(w: World, i: nat, t: Task, steps: nat)
    requires Enabled(w, i, t, steps) && (t.ExitCall? || t.RestartBegin?)
    ensures Shared(BeginStep(w, i, t.RestartBegin?).world, steps + 1)
  {
  }

  lemma BeginServes(w: World, i: nat, t: Task, steps: nat, u: Task, j: nat)
    requires Enabled(w, i, t, steps) && (t.ExitCall? || t.RestartBegin?)
    ensures Serves(w, i, BeginStep(w, i, t.RestartBegin?), u, j)
  {
    hide Restarts, Published;
  }

  lemma TakeKeepsShared(w: World, i: nat, t: Task, steps: nat)
    requires Enabled(w, i, t, steps) && t.Owning? && t.stage.TakeHandle?
    ensures Shared(TakeStep(w, i, t.target, t.restart).world, steps + 1)
  {
  }

  lemma TakeServes(w: World, i: nat, t: Task, steps: nat, u: Task, j: nat)
    requires Enabled(w, i, t, steps) && t.Owning? && t.stage.TakeHandle?
    ensures Serves(w, i, TakeStep(w, i, t.target, t.restart), u, j)
  {
    hide Restarts, Published;
  }

  lemma WriteKeepsShared(w: World, i: nat, t: Task, c: Choice, steps: nat)
    requires Enabled(w, i, t, steps) && t.Owning? && t.stage.WriteRequest? && t.target.Some?
    ensures Shared(WriteStep(w, t.target.value, t.restart, c).world, steps + 1)
  {
  }

  lemma WriteServes(w: World, i: nat, t: Task, c: Choice, steps: nat, u: Task, j: nat)
    requires Enabled(w, i, t, steps) && t.Owning? && t.stage.WriteRequest? && t.target.Some?
    ensures Serves(w, i, WriteStep(w, t.target.value, t.restart, c), u, j)
  {
    hide Restarts, Published;
  }

  lemma KillNowKeepsShared(w: World, i: nat, t: Task, c: Choice, steps: nat)
    requires Enabled(w, i, t, steps) && t.Owning? && t.stage.KillNow? && t.target.Some?
    ensures Shared(KillStep(w, t.target.value, t.restart, c).world, steps + 1)
  {
  }

  lemma KillNowServes(w: World, i: nat, t: Task, c: Choice, steps: nat, u: Task, j: nat)
    requires Enabled(w, i, t, steps) && t.Owning? && t.stage.KillNow? && t.target.Some?
    ensures Serves(w, i, KillStep(w, t.target.value, t.restart, c), u, j)
  {
    hide Restarts, Published;
  }

  lemma ReportKeepsShared(w: World, i: nat, t: Task, steps: nat)
    requires Enabled(w, i, t, steps) && t.Owning? && Reports(t.stage) && t.target.Some?
    ensures Shared(ReportStep(w, t.stage, t.target.value, t.restart).world, steps + 1)
  {
  }

  lemma ReportServes(w: World, i: nat, t: Task, steps: nat, u: Task, j: nat)
    requires Enabled(w, i, t, steps) && t.Owning? && Reports(t.stage) && t.target.Some?
    ensures Serves(w, i, ReportStep(w, t.stage, t.target.value, t.restart), u, j)
  {
    hide Restarts, Published;
  }

  lemma FinishKeepsShared(w: World, i: nat, t: Task, steps: nat)
    requires Enabled(w, i, t, steps) && t.Owning? && t.stage.Finish?
    ensures Shared(FinishStep(w, t.target, t.restart).world, steps + 1)
  {
  }

  lemma FinishServes(w: World, i: nat, t: Task, steps: nat, u: Task, j: nat)
    requires Enabled(w, i, t, steps) && t.Owning? && t.stage.Finish?
    ensures Serves(w, i, FinishStep(w, t.target, t.restart), u, j)
  {
    hide Restarts, Published;
  }

  lemma WatchErrorKeepsShared(w: World, i: nat, t: Task, steps: nat, next: Task)
    requires Enabled(w, i, t, steps) && (t.Watch? || t.StopReport?)
    ensures Shared(WatchErrorStep(w, t.w, next).world, steps + 1)
  {
  }

  lemma WatchErrorServes(w: World, i: nat, t: Task, steps: nat, next: Task, u: Task, j: nat)
    requires Enabled(w, i, t, steps) && (t.Watch? || t.StopReport?) && (next.Watch? || next.Done?)
    ensures Serves(w, i, WatchErrorStep(w, t.w, next), u, j)
  {
    hide Restarts, Published;
  }

  lemma DropKeepsShared(w: World, i: nat, t: Task, steps: nat, g: nat)
    requires Enabled(w, i, t, steps) && t.Owning? && t.target == Some(g)
    ensures Shared(DropHandle(w, i, g), steps + 1)
  {
  }

  lemma DropServes(w: World, i: nat, t: Task, steps: nat, g: nat, u: Task, j: nat)
    requires Enabled(w, i, t, steps) && t.Owning? && t.target == Some(g)
    ensures Serves(w, i, Go(DropHandle(w, i, g), Owning(Finish, t.target, t.restart)), u, j)
  {
    hide Restarts, Published;
  }

  // ----- steps that only move their task -----

  /** A step that changes no shared state needs only its own next program point. */
  lemma QuietKeeps(w: World, i: nat, t: Task, steps: nat, next: Task, u: Task, j: nat)
    requires Enabled(w, i, t, steps) && TaskOk(next, i, w)
    ensures Shared(w, steps + 1) && Serves(w, i, Go(w, next), u, j)
  {
  }

  lemma TurnOk(w: World, i: nat, t: Task, c: Choice, steps: nat)
    requires Enabled(w, i, t, steps) && t.Watch?
    ensures TaskOk(Turn(w.m, t.w, c), i, w)
  {
  }

  lemma AfterWaitOk(w: World, i: nat, t: Task, steps: nat, expired: bool)
    requires Enabled(w, i, t, steps) && t.Owning? && Waits(t.stage)
    ensures TaskOk(Owning(AfterWait(t.stage, expired), t.target, t.restart), i, w)
  {
  }

  lemma NoTargetOk(w: World, i: nat, t: Task, steps: nat)
    requires Enabled(w, i, t, steps) && t.Owning? && t.target.None?
    ensures TaskOk(Owning(Finish, None, t.restart), i, w)
  {
  }

  lemma ValidateOk(w: World, i: nat, t: Task, steps: nat)
    requires Enabled(w, i, t, steps) && t.Validate?
    ensures ValidateStep(w, t.target).world == w && TaskOk(ValidateStep(w, t.target).task, i, w)
  {
  }

  lemma RestartCallOk(w: World, i: nat, t: Task, steps: nat)
    requires Enabled(w, i, t, steps) && t.RestartCall?
    ensures TaskOk(RestartCallStep(w).task, i, w)
  {
  }

  lemma ExitedOk(w: World, i: nat, t: Task, steps: nat)
    requires Enabled(w, i, t, steps) && t.Exited?
    ensures TaskOk(if w.m.shuttingDown then Done else Schedule, i, w)
  {
  }

  lemma WaiterOk(w: World, i: nat, t: Task, steps: nat)
    requires Enabled(w, i, t, steps) && t.ShutdownWait?
    ensures TaskOk(if w.m.shutdownComplete then WaitReturned else ShutdownWait, i, w)
  {
  }

  // ----- every step -----

  lemma WatchKeepsShared(w: World, i: nat, t: Task, c: Choice, steps: nat)
    requires Enabled(w, i, t, steps) && t.Watch?
    ensures Shared(WatchStep(w, i, t.w, c).world, steps + 1)
  {
    hide Shared, TaskOk;
    TerminatedKeepsShared(w, i, t, steps);
    WatchErrorKeepsShared(w, i, t, steps, Done);
    WatchErrorKeepsShared(w, i, t, steps, Watch(t.w.(deadline := false)));
    QuietKeeps(w, i, t, steps, t, t, i);
  }

  lemma OwnerKeepsShared(w: World, i: nat, t: Task, c: Choice, steps: nat)
    requires Enabled(w, i, t, steps) && t.Owning?
    ensures Shared(OwnerStep(w, i, t.stage, t.target, t.restart, c).world, steps + 1)
  {
    hide Shared, TaskOk;
    QuietKeeps(w, i, t, steps, t, t, i);
    if t.stage.TakeHandle? {
      TakeKeepsShared(w, i, t, steps);
    } else if t.stage.Finish? {
      FinishKeepsShared(w, i, t, steps);
    } else if t.target.Some? {
      if t.stage.WriteRequest? {
        WriteKeepsShared(w, i, t, c, steps);
      } else if t.stage.KillNow? {
        KillNowKeepsShared(w, i, t, c, steps);
      } else if Reports(t.stage) {
        ReportKeepsShared(w, i, t, steps);
      } else {
        DropKeepsShared(w, i, t, steps, t.target.value);
      }
    }
  }

  lemma WatchServes(w: World, i: nat, t: Task, c: Choice, steps: nat, u: Task, j: nat)
    requires Enabled(w, i, t, steps) && t.Watch?
    ensures Serves(w, i, WatchStep(w, i, t.w, c), u, j)
  {
    hide Shared, TaskOk;
    if c.Terminated? {
      TerminatedServes(w, i, t, steps, u, j);
    } else if c.StreamCloses? {
      WatchErrorServes(w, i, t, steps, Done, u, j);
    } else if c.DeadlineFires? && t.w.deadline {
      WatchErrorServes(w, i, t, steps, Watch(t.w.(deadline := false)), u, j);
    } else {
      TurnOk(w, i, t, c, steps);
      QuietKeeps(w, i, t, steps, Turn(w.m, t.w, c), u, j);
    }
  }

  lemma OwnerServes(w: World, i: nat, t: Task, c: Choice, steps: nat, u: Task, j: nat)
    requires Enabled(w, i, t, steps) && t.Owning?
    ensures Serves(w, i, OwnerStep(w, i, t.stage, t.target, t.restart, c), u, j)
  {
    hide Shared, TaskOk;
    if t.stage.TakeHandle? {
      TakeServes(w, i, t, steps, u, j);
    } else if t.stage.Finish? {
      FinishServes(w, i, t, steps, u, j);
    } else if t.target.None? {
      NoTargetOk(w, i, t, steps);
      QuietKeeps(w, i, t, steps, Owning(Finish, None, t.restart), u, j);
    } else if t.stage.WriteRequest? {
      WriteServes(w, i, t, c, steps, u, j);
    } else if t.stage.KillNow? {
      KillNowServes(w, i, t, c, steps, u, j);
    } else if Reports(t.stage) {
      ReportServes(w, i, t, steps, u, j);
    } else if w.m.ExitOf(t.target.value).Some? {
      DropServes(w, i, t, steps, t.target.value, u, j);
    } else {
      AfterWaitOk(w, i, t, steps, c.DeadlineFires?);
      QuietKeeps(w, i, t, steps, Owning(AfterWait(t.stage, c.DeadlineFires?), t.target, t.restart), u, j);
    }
  }

  lemma LaunchTaskKeeps(w: World, i: nat, t: Task, c: Choice, steps: nat, u: Task, j: nat)
    requires Enabled(w, i, t, steps) && Launching(t)
    ensures Shared(LaunchTaskStep(w, i, t, c).world, steps + 1)
    ensures Serves(w, i, LaunchTaskStep(w, i, t, c), u, j)
  {
    hide Shared, TaskOk, Serves;
    match t
    case Boot => { BootKeepsShared(w, i, t, c, steps); BootServes(w, i, t, c, steps, u, j); }
    case ExternalCheck(_, _) => { ExternalKeepsShared(w, i, t, c, steps); ExternalServes(w, i, t, c, steps, u, j); }
    case Launch => { LaunchKeepsShared(w, i, t, c, steps); LaunchServes(w, i, t, c, steps, u, j); }
    case LaunchFailed => { LaunchFailedKeepsShared(w, i, t, steps); LaunchFailedServes(w, i, t, steps, u, j); }
    case Schedule => { ScheduleKeepsShared(w, i, t, steps); ScheduleServes(w, i, t, steps, u, j); }
    case GiveUp => { GiveUpKeepsShared(w, i, t, steps); GiveUpServes(w, i, t, steps, u, j); }
    case Announce(_) => { AnnounceKeepsShared(w, i, t, steps); AnnounceServes(w, i, t, steps, u, j); }
    case Timer(_) => { TimerKeepsShared(w, i, t, steps); TimerServes(w, i, t, steps, u, j); }
    case StabilityTimer(_) => { StabilityKeepsShared(w, i, t, steps); StabilityServes(w, i, t, steps, u, j); }
  }

  lemma WatchTaskKeeps(w: World, i: nat, t: Task, c: Choice, steps: nat, u: Task, j: nat)
    requires Enabled(w, i, t, steps) && Watching(t)
    ensures Shared(WatchTaskStep(w, i, t, c).world, steps + 1)
    ensures Serves(w, i, WatchTaskStep(w, i, t, c), u, j)
  {
    hide Shared, TaskOk, Serves;
    match t
    case Started(_) => { StartedKeepsShared(w, i, t, c, steps); StartedServes(w, i, t, c, steps, u, j); }
    case Watch(_) => { WatchKeepsShared(w, i, t, c, steps); WatchServes(w, i, t, c, steps, u, j); }
    case HealthCheck(_, _) => { HealthKeepsShared(w, i, t, c, steps); HealthServes(w, i, t, c, steps, u, j); }
    case StopRequest(_) => { StopRequestKeepsShared(w, i, t, steps); StopRequestServes(w, i, t, steps, u, j); }
    case StopKill(_) => { StopKillKeepsShared(w, i, t, steps); StopKillServes(w, i, t, steps, u, j); }
    case StopReport(v) => {
      var next := Watch(v.(stopping := true, deadline := true));
      WatchErrorKeepsShared(w, i, t, steps, next);
      WatchErrorServes(w, i, t, steps, next, u, j);
    }
    case Exited(_) => {
      ExitedOk(w, i, t, steps);
      QuietKeeps(w, i, t, steps, if w.m.shuttingDown then Done else Schedule, u, j);
    }
  }

  lemma ShutdownTaskKeeps(w: World, i: nat, t: Task, c: Choice, steps: nat, u: Task, j: nat)
    requires Enabled(w, i, t, steps) && !Launching(t) && !Watching(t)
    ensures Shared(ShutdownTaskStep(w, i, t, c).world, steps + 1)
    ensures Serves(w, i, ShutdownTaskStep(w, i, t, c), u, j)
  {
    hide Shared, TaskOk, Serves;
    match t
    case ExitCall => { BeginKeepsShared(w, i, t, steps); BeginServes(w, i, t, steps, u, j); }
    case RestartBegin => { BeginKeepsShared(w, i, t, steps); BeginServes(w, i, t, steps, u, j); }
    case Owning(_, _, _) => { OwnerKeepsShared(w, i, t, c, steps); OwnerServes(w, i, t, c, steps, u, j); }
    case RestartCall => {
      RestartCallOk(w, i, t, steps);
      QuietKeeps(w, i, t, steps, RestartCallStep(w).task, u, j);
    }
    case Validate(_) => {
      ValidateOk(w, i, t, steps);
      QuietKeeps(w, i, t, steps, ValidateStep(w, t.target).task, u, j);
    }
    case ShutdownWait => {
      WaiterOk(w, i, t, steps);
      QuietKeeps(w, i, t, steps, if w.m.shutdownComplete then WaitReturned else ShutdownWait, u, j);
    }
    case _ => QuietKeeps(w, i, t, steps, t, u, j);
  }

  // ----- every action -----

  lemma TaskKeeps(w: World, i: nat, t: Task, c: Choice, steps: nat, u: Task, j: nat)
    requires Enabled(w, i, t, steps)
    ensures Shared(TaskStep(w, i, t, c).world, steps + 1)
    ensures Serves(w, i, TaskStep(w, i, t, c), u, j)
  {
    hide Shared, TaskOk, Serves, LaunchTaskStep, WatchTaskStep, ShutdownTaskStep;
    if Launching(t) {
      LaunchTaskKeeps(w, i, t, c, steps, u, j);
    } else if Watching(t) {
      WatchTaskKeeps(w, i, t, c, steps, u, j);
    } else {
      ShutdownTaskKeeps(w, i, t, c, steps, u, j);
    }
  }

  /** A step points `timer` and `owner` at no task but its own, and the only
      tasks that steps start are stability timers. Once shutdown has begun it
      stays begun, its owner stays the same, no process is spawned and no
      restart is claimed; a completed shutdown stays complete. */
  ghost predicate Local(w: World, i: nat, o: Outcome) {
    && (o.world.h.timer == w.h.timer || o.world.h.timer == i)
    && (o.started.Some? ==> o.started.value.StabilityTimer?)
    && Forward(w, o.world)
    && (o.world.h.owner == w.h.owner || o.world.h.owner == Some(i))
  }

  ghost predicate Forward(w: World, w': World) {
    && (w.m.shuttingDown ==>
          && w'.m.shuttingDown
          && w'.m.shutdownGeneration == w.m.shutdownGeneration
          && w'.h.owner == w.h.owner
          && w'.procs.Keys == w.procs.Keys
          && w'.h.claims == w.h.claims
          && (w.m.shutdownComplete ==> w'.m.shutdownComplete))
    && w.procs.Keys <= w'.procs.Keys
  }

  lemma LaunchTaskIsLocal(w: World, i: nat, t: Task, c: Choice)
    ensures Local(w, i, LaunchTaskStep(w, i, t, c))
  {
  }

  lemma WatchTaskIsLocal(w: World, i: nat, t: Task, c: Choice)
    ensures Local(w, i, WatchTaskStep(w, i, t, c))
  {
  }

  lemma TakeIsLocal(w: World, i: nat, target: Option<nat>, restart: bool)
    ensures Local(w, i, TakeStep(w, i, target, restart))
  {
  }

  lemma WaitIsLocal(w: World, i: nat, stage: Stage, g: nat, restart: bool, c: Choice)
    ensures Local(w, i, WaitStep(w, i, stage, g, restart, c))
  {
  }

  lemma OwnerIsLocal(w: World, i: nat, stage: Stage, target: Option<nat>, restart: bool, c: Choice)
    ensures Local(w, i, OwnerStep(w, i, stage, target, restart, c))
  {
    hide TakeStep, WaitStep;
    if stage.TakeHandle? {
      TakeIsLocal(w, i, target, restart);
    } else if target.Some? && Waits(stage) {
      WaitIsLocal(w, i, stage, target.value, restart, c);
    }
  }

  lemma ShutdownTaskIsLocal(w: World, i: nat, t: Task, c: Choice)
    ensures Local(w, i, ShutdownTaskStep(w, i, t, c))
  {
    if t.Owning? {
      OwnerIsLocal(w, i, t.stage, t.target, t.restart, c);
    }
  }

  lemma StepIsLocal(w: World, i: nat, t: Task, c: Choice)
    ensures Local(w, i, TaskStep(w, i, t, c))
  {
    hide Local, LaunchTaskStep, WatchTaskStep, ShutdownTaskStep;
    LaunchTaskIsLocal(w, i, t, c);
    WatchTaskIsLocal(w, i, t, c);
    ShutdownTaskIsLocal(w, i, t, c);
  }

  lemma DeathKeeps(w: World, steps: nat, g: nat, code: Option<int>, signal: Option<int>)
    requires Shared(w, steps)
    ensures Shared(Death(w, g, code, signal), steps + 1)
  {
  }

  lemma DeathSpares(w: World, g: nat, code: Option<int>, signal: Option<int>, u: Task, j: nat)
    requires TaskOk(u, j, w)
    ensures TaskOk(u, j, Death(w, g, code, signal))
  {
  }

  lemma LaterKeeps(w: World, steps: nat)
    requires Shared(w, steps)
    ensures Shared(w, steps + 1)
  {
  }

  lemma NewTaskOk(s: System, t: Task)
    requires s.world.h.timer < |s.tasks| && (s.world.h.owner.Some? ==> s.world.h.owner.value < |s.tasks|)
    requires t.StabilityTimer? || t.ExitCall? || t.RestartCall?
    ensures TaskOk(t, |s.tasks|, s.world)
  {
  }

  lemma NextKeeps(s: System, a: Action)
    requires Inv(s) && s.steps < U64_MAX
    ensures Inv(Next(s, a))
  {
    hide Shared, TaskOk, TaskStep, Death;
    LaterKeeps(s.world, s.steps);
    match a
    case Step(i, c) =>
      if i < |s.tasks| {
        StepTaskKeeps(s, i, c);
      }
    case ProcessDies(g, code, signal) =>
      DeathKeeps(s.world, s.steps, g, code, signal);
      forall j | 0 <= j < |s.tasks| ensures TaskOk(s.tasks[j], j, Death(s.world, g, code, signal)) {
        DeathSpares(s.world, g, code, signal, s.tasks[j], j);
      }
      DeathIsLocal(s.world, g, code, signal);
    case CallExit => NewTaskOk(s, ExitCall);
    case CallRestart => NewTaskOk(s, RestartCall);
  }

  lemma DeathIsLocal(w: World, g: nat, code: Option<int>, signal: Option<int>)
    ensures Death(w, g, code, signal).h == w.h
  {
  }

  lemma StepTaskKeeps(s: System, i: nat, c: Choice)
    requires Inv(s) && s.steps < U64_MAX && i < |s.tasks|
    ensures Inv(Next(s, Step(i, c)))
  {
    hide Shared, TaskOk, TaskStep;
    var o := TaskStep(s.world, i, s.tasks[i], c);
    var moved := System(o.world, s.tasks[i := o.task], s.steps + 1);
    assert Enabled(s.world, i, s.tasks[i], s.steps);
    TaskKeeps(s.world, i, s.tasks[i], c, s.steps, s.tasks[i], i);
    forall j | 0 <= j < |s.tasks| ensures TaskOk(moved.tasks[j], j, o.world) {
      TaskKeeps(s.world, i, s.tasks[i], c, s.steps, s.tasks[j], j);
    }
    StepIsLocal(s.world, i, s.tasks[i], c);
    if o.started.Some? {
      NewTaskOk(moved, o.started.value);
    }
  }

  lemma NextIsForward(s: System, a: Action)
    ensures Forward(s.world, Next(s, a).world)
  {
    hide TaskStep;
    match a
    case Step(i, c) =>
      if i < |s.tasks| {
        StepIsLocal(s.world, i, s.tasks[i], c);
      }
    case _ =>
  }

  // ----- what no step takes back -----

  /** What is known of a spawned process stays known: a recorded exit stays as it
      was recorded, kills and writes are only added, and a control handle that
      left the manager never returns to it. */
  ghost predicate Lasting(w: World, w': World, g: nat)
    requires g in w.procs
  {
    && g in w'.procs
    && (w.procs[g].exit.Some? ==> w'.procs[g].exit == w.procs[g].exit)
    && (w.procs[g].recorded ==> w'.procs[g].recorded)
    && (w.procs[g].forced ==> w'.procs[g].forced)
    && w.procs[g].kills <= w'.procs[g].kills && w.procs[g].writes <= w'.procs[g].writes
    && (w.m.child != Some(g) ==> w'.m.child != Some(g))
    && (!w.procs[g].handle.InManager? ==> !w'.procs[g].handle.InManager?)
  }

  /** Claims are only added, at the end, and generations only counted up. */
  ghost predicate Permanent(w: World, w': World) {
    && w.h.claims <= w'.h.claims
    && w.m.nextGeneration <= w'.m.nextGeneration
    && (forall g :: g in w.procs ==> Lasting(w, w', g))
  }

  /** A new generation is above every spawned one. */
  ghost predicate Numbered(w: World) {
    w.m.nextGeneration < U64_MAX && forall g :: g in w.procs ==> g <= w.m.nextGeneration
  }

  lemma LaunchIsPermanent(w: World, c: Choice)
    requires Numbered(w)
    ensures Permanent(w, LaunchStep(w, c).world)
  {
  }

  lemma LaunchTaskIsPermanent(w: World, i: nat, t: Task, c: Choice)
    requires Numbered(w)
    ensures Permanent(w, LaunchTaskStep(w, i, t, c).world)
  {
    hide LaunchStep, Numbered;
    LaunchIsPermanent(w, c);
  }

  lemma TerminatedIsPermanent(w: World, i: nat, v: Watcher)
    ensures Permanent(w, TerminatedStep(w, i, v).world)
  {
  }

  lemma StopRequestIsPermanent(w: World, i: nat, v: Watcher)
    ensures Permanent(w, StopRequestStep(w, i, v).world)
  {
  }

  lemma WatchTaskIsPermanent(w: World, i: nat, t: Task, c: Choice)
    ensures Permanent(w, WatchTaskStep(w, i, t, c).world)
  {
    hide TerminatedStep, StopRequestStep;
    match t
    case Watch(v) => TerminatedIsPermanent(w, i, v);
    case StopRequest(v) => StopRequestIsPermanent(w, i, v);
    case _ =>
  }

  lemma TakeIsPermanent(w: World, i: nat, target: Option<nat>, restart: bool)
    ensures Permanent(w, TakeStep(w, i, target, restart).world)
  {
  }

  lemma WaitIsPermanent(w: World, i: nat, stage: Stage, g: nat, restart: bool, c: Choice)
    ensures Permanent(w, WaitStep(w, i, stage, g, restart, c).world)
  {
  }

  lemma OwnerIsPermanent(w: World, i: nat, stage: Stage, target: Option<nat>, restart: bool, c: Choice)
    ensures Permanent(w, OwnerStep(w, i, stage, target, restart, c).world)
  {
    hide TakeStep, WaitStep;
    if stage.TakeHandle? {
      TakeIsPermanent(w, i, target, restart);
    } else if target.Some? {
      WaitIsPermanent(w, i, stage, target.value, restart, c);
    }
  }

  lemma ShutdownTaskIsPermanent(w: World, i: nat, t: Task, c: Choice)
    ensures Permanent(w, ShutdownTaskStep(w, i, t, c).world)
  {
    hide OwnerStep;
    if t.Owning? {
      OwnerIsPermanent(w, i, t.stage, t.target, t.restart, c);
    }
  }

  lemma StepIsPermanent(w: World, i: nat, t: Task, c: Choice)
    requires Numbered(w)
    ensures Permanent(w, TaskStep(w, i, t, c).world)
  {
    hide Permanent, LaunchTaskStep, WatchTaskStep, ShutdownTaskStep;
    LaunchTaskIsPermanent(w, i, t, c);
    WatchTaskIsPermanent(w, i, t, c);
    ShutdownTaskIsPermanent(w, i, t, c);
  }

  lemma NextIsPermanent(s: System, a: Action)
    requires Inv(s) && s.steps < U64_MAX
    ensures Permanent(s.world, Next(s, a).world)
  {
    hide TaskStep, TaskOk, Restarts, Closing, Published, ProcessOk;
    assert Numbered(s.world);
    match a
    case Step(i, c) =>
      if i < |s.tasks| {
        StepIsPermanent(s.world, i, s.tasks[i], c);
      }
    case _ =>
  }
}
