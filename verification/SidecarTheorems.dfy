/** What holds over every run of the Sidecar protocol.

    A run is any sequence of actions, so these are statements about every
    interleaving. Runs are shorter than 2^64 - 1 actions, which keeps the two
    saturating counters of the manager below their maximum. */
module SidecarTheorems {
  import opened Options
  import opened SidecarState
  import opened SidecarProtocol
  import opened SidecarInvariant

  lemma {:induction false} Reachable(run: seq<Action>)
    requires |run| < U64_MAX
    ensures Inv(After(run)) && After(run).steps == |run|
  {
    hide Inv;
    if run == [] {
      StartOk();
    } else {
      Reachable(run[..|run| - 1]);
      NextKeeps(After(run[..|run| - 1]), run[|run| - 1]);
    }
  }

  lemma StartOk()
    ensures Inv(START)
  {
  }

  /** From any reachable state, later actions only go forward. */
  lemma {:induction false} Onward(run: seq<Action>, more: seq<Action>)
    ensures Forward(After(run).world, After(run + more).world)
  {
    hide Next;
    if more == [] {
      assert run + more == run;
    } else {
      var m := more[..|more| - 1];
      Onward(run, m);
      assert (run + more)[..|run + more| - 1] == run + m;
      NextIsForward(After(run + m), more[|more| - 1]);
    }
  }

  /** From any reachable state, whatever happens next: recorded exits stay as they
      were recorded, claimed tickets stay claimed in their order, generations are
      only counted up, and kills and writes are only added. */
  lemma {:induction false} HistoryIsPermanent(run: seq<Action>, more: seq<Action>)
    requires |run + more| < U64_MAX
    ensures Permanent(After(run).world, After(run + more).world)
  {
    hide Next, Inv, Lasting;
    if more == [] {
      assert run + more == run;
      PermanentToItself(After(run).world);
    } else {
      var m := more[..|more| - 1];
      HistoryIsPermanent(run, m);
      Reachable(run + m);
      assert (run + more)[..|run + more| - 1] == run + m;
      NextIsPermanent(After(run + m), more[|more| - 1]);
      PermanentTwice(After(run).world, After(run + m).world, After(run + more).world);
    }
  }

  lemma PermanentToItself(w: World)
    ensures Permanent(w, w)
  {
  }

  lemma PermanentTwice(a: World, b: World, c: World)
    requires Permanent(a, b) && Permanent(b, c)
    ensures Permanent(a, c)
  {
    forall g | g in a.procs ensures Lasting(a, c, g) {
      assert Lasting(a, b, g) && Lasting(b, c, g);
    }
  }

  /** The control handle of a generation leaves the manager at most once: taken by
      a forced stop, by the shutdown or dropped with the exit, it never returns. */
  lemma HandleNeverReturns(run: seq<Action>, more: seq<Action>, g: nat)
    requires |run + more| < U64_MAX
    requires g in After(run).world.procs && After(run).world.m.child != Some(g)
    ensures After(run + more).world.m.child != Some(g)
  {
    hide After;
    HistoryIsPermanent(run, more);
    assert Lasting(After(run).world, After(run + more).world, g);
  }

  // ----- launching -----

  ghost predicate LaunchPending(s: System) {
    exists i :: 0 <= i < |s.tasks| && s.tasks[i].Launch?
  }

  /** A pending launch, a live generation and a scheduled restart exclude each
      other, no two tasks are about to launch, the refusal in
      spawn_and_register_child has never been taken, no ticket was claimed
      twice, and a scheduled restart still has the task that can claim it. */
  lemma LaunchesExclude(run: seq<Action>)
    requires |run| < U64_MAX
    ensures var s := After(run); var m := s.world.m;
            && !(LaunchPending(s) && m.activeGeneration.Some?)
            && !(LaunchPending(s) && m.scheduledRestart.Some?)
            && !(m.activeGeneration.Some? && m.scheduledRestart.Some?)
            && (forall i, j :: 0 <= i < j < |s.tasks| ==> !(s.tasks[i].Launch? && s.tasks[j].Launch?))
            && s.world.h.refusals == 0
            && (forall j, k :: 0 <= j < k < |s.world.h.claims| ==> s.world.h.claims[j] != s.world.h.claims[k])
            && (m.scheduledRestart.Some? ==>
                  exists i :: 0 <= i < |s.tasks| && HasTicket(s.tasks[i], m.scheduledRestart.value))
  {
    Reachable(run);
    var s := After(run);
    assert TaskOk(s.tasks[s.world.h.timer], s.world.h.timer, s.world);
  }

  /** Restarts are rationed: at most two claims between stability resets, so at
      most 1 + 2 * (resets + 1) launches. */
  lemma RestartsAreRationed(run: seq<Action>)
    requires |run| < U64_MAX
    ensures var h := After(run).world.h;
            && h.claimsSinceReset <= MAX_RESTART_ATTEMPTS
            && |h.claims| <= MAX_RESTART_ATTEMPTS * (h.resets + 1)
            && h.launches <= 1 + MAX_RESTART_ATTEMPTS * (h.resets + 1)
  {
    Reachable(run);
  }

  /** A reservation carries a ticket nobody claimed or holds, and backs off: half
      a second before the first restart of a budget, two seconds before the
      second. It is refused exactly when the budget is spent. */
  lemma ReservationsAreFresh(run: seq<Action>)
    requires |run| < U64_MAX
    requires !After(run).world.m.ReserveRestart().1.NotNeeded?
    ensures var w := After(run).world; var r := w.m.ReserveRestart().1;
            && !w.m.shuttingDown
            && (r.BudgetSpent? <==> w.m.restartAttempts == MAX_RESTART_ATTEMPTS)
            && (r.Reserved? ==>
                  && (forall k :: 0 <= k < |w.h.claims| ==> w.h.claims[k] < r.reservation.ticket)
                  && w.h.claimsSinceReset < r.reservation.attempt <= MAX_RESTART_ATTEMPTS
                  && r.reservation.delayMs == if r.reservation.attempt == 1 then 500 else 2000)
  {
    Reachable(run);
  }

  /** Only the stability timer of the live Ready generation, with its handle still
      stored, gives restart attempts back; it gives all of them back. */
  lemma OnlyReadyResetsBudget(s: System, a: Action)
    requires Next(s, a).world.m.restartAttempts < s.world.m.restartAttempts
             || Next(s, a).world.h.resets != s.world.h.resets
    ensures a.Step? && a.task < |s.tasks| && s.tasks[a.task].StabilityTimer?
    ensures var g := s.tasks[a.task].stableGeneration;
            && s.world.m.activeGeneration == Some(g)
            && s.world.m.child.Some?
            && !s.world.m.shuttingDown
            && s.world.m.runtime.phase.Ready?
            && s.world.m.runtime.generation == Some(g)
    ensures Next(s, a).world.m.restartAttempts == 0
  {
    hide LaunchTaskStep, WatchTaskStep, ShutdownTaskStep;
    if a.Step? && a.task < |s.tasks| {
      var t := s.tasks[a.task];
      LaunchTaskSpendsBudget(s.world, a.task, t, a.choice);
      WatchTaskKeepsBudget(s.world, a.task, t, a.choice);
      ShutdownTaskKeepsBudget(s.world, a.task, t, a.choice);
    }
  }

  lemma LaunchTaskSpendsBudget(w: World, i: nat, t: Task, c: Choice)
    ensures var v := LaunchTaskStep(w, i, t, c).world;
      if !t.StabilityTimer? then v.m.restartAttempts >= w.m.restartAttempts && v.h.resets == w.h.resets
      else if w.m.ResetBudgetIfStable(t.stableGeneration).1
      then v.m.restartAttempts == 0
      else v == w
  {
  }

  lemma WatchTaskKeepsBudget(w: World, i: nat, t: Task, c: Choice)
    ensures var v := WatchTaskStep(w, i, t, c).world;
      v.m.restartAttempts == w.m.restartAttempts && v.h.resets == w.h.resets
  {
  }

  lemma OwnerKeepsBudget(w: World, i: nat, stage: Stage, target: Option<nat>, restart: bool, c: Choice)
    ensures var v := OwnerStep(w, i, stage, target, restart, c).world;
      v.m.restartAttempts == w.m.restartAttempts && v.h.resets == w.h.resets
  {
    hide Waits;
  }

  lemma ShutdownTaskKeepsBudget(w: World, i: nat, t: Task, c: Choice)
    ensures var v := ShutdownTaskStep(w, i, t, c).world;
      v.m.restartAttempts == w.m.restartAttempts && v.h.resets == w.h.resets
  {
    hide OwnerStep;
    if t.Owning? {
      OwnerKeepsBudget(w, i, t.stage, t.target, t.restart, c);
    }
  }

  // ----- processes -----

  /** At most one spawned process has no recorded exit, and it is the active
      generation; a recorded exit is always how the process really ended. */
  lemma OneLiveProcess(run: seq<Action>)
    requires |run| < U64_MAX
    ensures var w := After(run).world;
            && (forall g :: g in w.procs && !w.procs[g].recorded ==> w.m.activeGeneration == Some(g))
            && (w.m.activeGeneration.Some? ==>
                  w.m.activeGeneration.value in w.procs && !w.procs[w.m.activeGeneration.value].recorded)
            && (forall g :: g in w.procs && w.procs[g].recorded ==> w.procs[g].exit.Some?)
            && (w.m.exited.Some? ==>
                  w.m.exited.value.generation in w.procs
                  && w.procs[w.m.exited.value.generation].exit == w.m.exited)
  {
    Reachable(run);
  }

  /** Every generation gets at most one kill and one shutdown write, and none of
      the latter once a forced stop took its handle. No two tasks hold the
      handle of one generation, nor does a task hold one the manager stores. */
  lemma HandlesMoveOnce(run: seq<Action>)
    requires |run| < U64_MAX
    ensures var s := After(run); var w := s.world;
            && (forall g :: g in w.procs ==>
                  && w.procs[g].kills <= 1
                  && w.procs[g].writes <= 1
                  && (w.procs[g].forced ==> w.procs[g].writes == 0))
            && (forall i, j :: 0 <= i < j < |s.tasks| && Holds(s.tasks[i]).Some? ==>
                  Holds(s.tasks[i]) != Holds(s.tasks[j]))
            && (forall i :: 0 <= i < |s.tasks| && Holds(s.tasks[i]).Some? ==>
                  && Holds(s.tasks[i]).value in w.procs
                  && w.procs[Holds(s.tasks[i]).value].kills == 0
                  && w.m.child != Holds(s.tasks[i]))
  {
    Reachable(run);
    var s := After(run);
    forall i, j | 0 <= i < j < |s.tasks| && Holds(s.tasks[i]).Some?
      ensures Holds(s.tasks[i]) != Holds(s.tasks[j])
    {
      assert TaskOk(s.tasks[i], i, s.world) && TaskOk(s.tasks[j], j, s.world);
    }
  }

  /** Generations strictly increase: a spawn takes a number above all earlier ones. */
  lemma GenerationsIncrease(run: seq<Action>, spawned: bool)
    requires |run| < U64_MAX
    requires After(run).world.m.SpawnAndRegister(spawned).1.Registered?
    ensures var w := After(run).world; var g := w.m.SpawnAndRegister(spawned).1.generation;
            forall k :: k in w.procs ==> k < g
  {
    Reachable(run);
  }

  // ----- shutdown -----

  predicate Returned(t: Task) {
    t.WaitReturned? || t.ExitReturned? || t.RestartOk?
  }

  /** The shutdown has one owner, and no caller returns before it finished. */
  lemma ShutdownHasOneOwner(run: seq<Action>)
    requires |run| < U64_MAX
    ensures var s := After(run);
            && (forall i, j :: 0 <= i < j < |s.tasks| ==> !(s.tasks[i].Owning? && s.tasks[j].Owning?))
            && (forall i :: 0 <= i < |s.tasks| && s.tasks[i].Owning? ==> s.world.h.owner == Some(i))
            && (forall i, j | 0 <= i < |s.tasks| && 0 <= j < |s.tasks| && Returned(s.tasks[i]) ::
                  s.world.m.shutdownComplete && !s.tasks[j].Owning?)
  {
    Reachable(run);
    var s := After(run);
    forall i | 0 <= i < |s.tasks| ensures TaskOk(s.tasks[i], i, s.world) {
    }
  }

  /** The owner never changes: a second begin_shutdown always waits. */
  lemma OwnerIsForever(run: seq<Action>, more: seq<Action>)
    requires After(run).world.m.shuttingDown
    ensures var w := After(run).world; var w' := After(run + more).world;
            w'.m.shuttingDown && w'.h.owner == w.h.owner && w'.h.claims == w.h.claims
            && w'.procs.Keys == w.procs.Keys
  {
    Onward(run, more);
  }

  /** shutdown_for_restart returned Ok: now and forever no process is alive and
      none is spawned, and the generation that was live when the shutdown began
      recorded exit code 0 without a signal. */
  lemma RestartOkIsSafe(run: seq<Action>, more: seq<Action>, i: nat)
    requires |run + more| < U64_MAX
    requires i < |After(run).tasks| && After(run).tasks[i].RestartOk?
    ensures var w := After(run).world; var w' := After(run + more).world;
            && w'.procs.Keys == w.procs.Keys
            && (forall g :: g in w'.procs ==> w'.procs[g].recorded && w'.procs[g].exit.Some?)
            && (w.m.shutdownGeneration.Some? ==>
                  var g := w.m.shutdownGeneration.value;
                  g in w.procs && w.procs[g].exit == Some(ChildExit(g, Some(0), None)))
  {
    Reachable(run);
    var s := After(run);
    assert TaskOk(s.tasks[i], i, s.world);
    assert s.world.m.activeGeneration.None?;
    NothingRevives(run, more);
  }

  /** Once shutdown has begun with no live generation, none becomes live again. */
  lemma {:induction false} NothingRevives(run: seq<Action>, more: seq<Action>)
    requires |run + more| < U64_MAX
    requires After(run).world.m.shuttingDown && After(run).world.m.activeGeneration.None?
    ensures var w' := After(run + more).world;
            && w'.procs.Keys == After(run).world.procs.Keys
            && (forall g :: g in w'.procs ==> w'.procs[g].recorded && w'.procs[g].exit.Some?)
  {
    Onward(run, more);
    Reachable(run);
    Reachable(run + more);
    StaysIdle(run, more);
  }

  lemma {:induction false} StaysIdle(run: seq<Action>, more: seq<Action>)
    requires After(run).world.m.shuttingDown && After(run).world.m.activeGeneration.None?
    ensures After(run + more).world.m.activeGeneration.None?
  {
    hide Next;
    if more == [] {
      assert run + more == run;
    } else {
      var m := more[..|more| - 1];
      StaysIdle(run, m);
      Onward(run, m);
      assert (run + more)[..|run + more| - 1] == run + m;
      NextStaysIdle(After(run + m), more[|more| - 1]);
    }
  }

  lemma NextStaysIdle(s: System, a: Action)
    requires s.world.m.shuttingDown && s.world.m.activeGeneration.None?
    ensures Next(s, a).world.m.activeGeneration.None?
  {
    hide TaskStep;
    if a.Step? && a.task < |s.tasks| {
      TaskStaysIdle(s.world, a.task, s.tasks[a.task], a.choice);
    }
  }

  lemma TaskStaysIdle(w: World, i: nat, t: Task, c: Choice)
    requires w.m.shuttingDown && w.m.activeGeneration.None?
    ensures TaskStep(w, i, t, c).world.m.activeGeneration.None?
  {
    hide LaunchTaskStep, WatchTaskStep, ShutdownTaskStep;
    LaunchTaskStaysIdle(w, i, t, c);
    WatchTaskStaysIdle(w, i, t, c);
    ShutdownTaskStaysIdle(w, i, t, c);
  }

  lemma LaunchTaskStaysIdle(w: World, i: nat, t: Task, c: Choice)
    requires w.m.shuttingDown && w.m.activeGeneration.None?
    ensures LaunchTaskStep(w, i, t, c).world.m.activeGeneration.None?
  {
  }

  lemma WatchTaskStaysIdle(w: World, i: nat, t: Task, c: Choice)
    requires w.m.shuttingDown && w.m.activeGeneration.None?
    ensures WatchTaskStep(w, i, t, c).world.m.activeGeneration.None?
  {
  }

  lemma ShutdownTaskStaysIdle(w: World, i: nat, t: Task, c: Choice)
    requires w.m.shuttingDown && w.m.activeGeneration.None?
    ensures ShutdownTaskStep(w, i, t, c).world.m.activeGeneration.None?
  {
    hide OwnerStep;
    if t.Owning? {
      OwnerStaysIdle(w, i, t.stage, t.target, t.restart, c);
    }
  }

  lemma OwnerStaysIdle(w: World, i: nat, stage: Stage, target: Option<nat>, restart: bool, c: Choice)
    requires w.m.activeGeneration.None?
    ensures OwnerStep(w, i, stage, target, restart, c).world.m.activeGeneration.None?
  {
    hide Waits;
  }

  // ----- the published status -----

  /** Ready with a generation means that generation is live and no shutdown has
      begun; Error and Restarting publish no URL and no token. In bundled mode a
      session token is published only while its generation is live. */
  lemma StatusIsCoherent(run: seq<Action>)
    requires |run| < U64_MAX
    ensures var m := After(run).world.m; var r := m.runtime;
            && (r.phase.Ready? && r.generation.Some? ==>
                  m.activeGeneration == r.generation && !m.shuttingDown)
            && (r.phase.Error? || r.phase.Restarting? ==> r.baseUrl.None? && r.sessionToken.None?)
            && (m.managed && r.sessionToken.Some? ==>
                  r.generation.Some? && m.activeGeneration == r.generation && !m.shuttingDown)
            && (m.managed && m.shuttingDown ==> r.phase.Error?)
  {
    Reachable(run);
  }
}
