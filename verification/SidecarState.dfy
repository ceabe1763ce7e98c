/** The shared state of the Sidecar supervisor and one function for each
    critical section that runs under its child lock.

    `Manager` is the value of that state. The class `SidecarManager` holds the
    same fields and updates them in place; each method is proved to move the
    fields exactly as the function of the same name moves the value. The
    concurrent protocol (module SidecarProtocol) interleaves these functions. */
module SidecarState {
  import opened Options

  const U64_MAX: nat := 0xFFFF_FFFF_FFFF_FFFF
  const MAX_RESTART_ATTEMPTS: nat := 2
  const RESTART_BACKOFFS_MS: seq<nat> := [500, 2000]

  /** u64::saturating_add(1). */
  function SaturatingSucc(n: nat): (r: nat)
    ensures n < U64_MAX ==> r == n + 1
    ensures r >= n || n > U64_MAX
  {
    if n < U64_MAX then n + 1 else U64_MAX
  }

  datatype Phase = Starting | Restarting | Ready | Error

  /** The published status, without its texts and version strings. */
  datatype Status = Status(
    phase: Phase,
    baseUrl: Option<string>,
    sessionToken: Option<string>,
    generation: Option<nat>)
  {
    function Failed(): Status {
      this.(phase := Error, baseUrl := None, sessionToken := None)
    }
  }

  datatype ChildExit = ChildExit(generation: nat, code: Option<int>, signal: Option<int>) {
    predicate IsClean() {
      code == Some(0) && signal == None
    }
  }

  datatype Reservation = Reservation(ticket: nat, attempt: nat, delayMs: nat)
  datatype Reserve = Reserved(reservation: Reservation) | NotNeeded | BudgetSpent
  datatype Spawn = ShutDown | Refused | SpawnFailed | Registered(generation: nat)
  datatype KillClaim = HandleTaken | HandleMissing | ShutdownOwnsChild
  datatype ShutdownStart = Owner(generation: Option<nat>) | Waiter

  /** `child` is the generation whose control handle the manager still stores. */
  datatype Manager = Manager(
    child: Option<nat>,
    activeGeneration: Option<nat>,
    nextGeneration: nat,
    managed: bool,
    shuttingDown: bool,
    shutdownGeneration: Option<nat>,
    restartAttempts: nat,
    nextRestartTicket: nat,
    scheduledRestart: Option<nat>,
    exited: Option<ChildExit>,
    shutdownComplete: bool,
    runtime: Status)
  {
    predicate IsCurrent(g: nat) {
      activeGeneration == Some(g) && !shuttingDown
    }

    /** wait_for_exit, once its wait is over: only an exit recorded for `g` counts. */
    function ExitOf(g: nat): Option<ChildExit> {
      if exited.Some? && exited.value.generation == g then exited else None
    }

    function SetExternalStarting(url: string, token: Option<string>): Manager {
      this.(runtime := Status(Starting, Some(url), token, None))
    }

    function SetExternalReady(url: string, token: Option<string>): Manager {
      this.(runtime := Status(Ready, Some(url), token, None))
    }

    /** set_error and append_error: not gated by the child lock. */
    function SetError(): Manager {
      this.(runtime := runtime.Failed())
    }

    function SetErrorUnlessShuttingDown(): (Manager, bool) {
      if shuttingDown then (this, false) else (SetError(), true)
    }

    /** set_error_if_current and append_error_if_current. */
    function SetErrorIfCurrent(g: nat): (Manager, bool) {
      if IsCurrent(g) then (SetError(), true) else (this, false)
    }

    function SetStartingIfCurrent(g: nat, token: string): (Manager, bool) {
      if IsCurrent(g)
      then (this.(runtime := Status(Starting, None, Some(token), Some(g))), true)
      else (this, false)
    }

    function SetReady(g: nat, url: string, token: Option<string>): (Manager, bool) {
      if IsCurrent(g)
      then (this.(runtime := Status(Ready, Some(url), token, Some(g))), true)
      else (this, false)
    }

    function SetRestarting(ticket: nat): (Manager, bool) {
      if scheduledRestart != Some(ticket) || shuttingDown then
        (this, false)
      else
        (this.(runtime := runtime.(phase := Restarting, baseUrl := None, sessionToken := None)), true)
    }

    /** `spawned` tells whether the operating system created the process. */
    function SpawnAndRegister(spawned: bool): (Manager, Spawn) {
      if shuttingDown then
        (this, ShutDown)
      else if child.Some? || activeGeneration.Some? then
        (this, Refused)
      else if !spawned then
        (this, SpawnFailed)
      else
        var g := SaturatingSucc(nextGeneration);
        (this.(nextGeneration := g, activeGeneration := Some(g), child := Some(g)), Registered(g))
    }

    function MarkExited(g: nat, code: Option<int>, signal: Option<int>): (Manager, bool) {
      if activeGeneration != Some(g) then
        (this, false)
      else
        (this.(exited := Some(ChildExit(g, code, signal)),
               runtime := if shuttingDown then runtime else runtime.Failed(),
               child := None,
               activeGeneration := None), true)
    }

    function RequestChildKill(g: nat): (Manager, KillClaim) {
      if shuttingDown then
        (this, ShutdownOwnsChild)
      else if activeGeneration != Some(g) || child != Some(g) then
        (this, HandleMissing)
      else
        (this.(child := None), HandleTaken)
    }

    function ReserveRestart(): (Manager, Reserve) {
      if !managed || shuttingDown || activeGeneration.Some? || child.Some? || scheduledRestart.Some? then
        (this, NotNeeded)
      else if restartAttempts >= MAX_RESTART_ATTEMPTS then
        (this, BudgetSpent)
      else
        var ticket := SaturatingSucc(nextRestartTicket);
        (this.(restartAttempts := restartAttempts + 1,
               nextRestartTicket := ticket,
               scheduledRestart := Some(ticket)),
         Reserved(Reservation(ticket, restartAttempts + 1, RESTART_BACKOFFS_MS[restartAttempts])))
    }

    function ClaimRestart(ticket: nat): (Manager, bool) {
      if scheduledRestart != Some(ticket) || shuttingDown || activeGeneration.Some? || child.Some?
      then (this, false)
      else (this.(scheduledRestart := None), true)
    }

    function ResetBudgetIfStable(g: nat): (Manager, bool) {
      if IsCurrent(g) && child.Some? && runtime.phase == Ready && runtime.generation == Some(g)
      then (this.(restartAttempts := 0), true)
      else (this, false)
    }

    function BeginShutdown(): (Manager, ShutdownStart) {
      if shuttingDown then
        (this, Waiter)
      else
        (this.(shuttingDown := true,
               scheduledRestart := None,
               shutdownGeneration := activeGeneration,
               runtime := runtime.Failed(),
               shutdownComplete := false), Owner(activeGeneration))
    }

    /** The first critical section of perform_shutdown. */
    function TakeForShutdown(generation: Option<nat>): (Manager, bool) {
      if child.Some? && child == generation then (this.(child := None), true) else (this, false)
    }

    function FinishShutdown(): Manager {
      this.(shutdownComplete := true)
    }
  }

  const INITIAL: Manager :=
    Manager(None, None, 0, false, false, None, 0, 0, None, None, false,
            Status(Starting, None, None, None))

  /** A status update gated on a generation that is no longer current changes
      nothing: neither the status nor any other field. */
  lemma StaleUpdatesChangeNothing(m: Manager, g: nat, url: string, token: string)
    requires m.activeGeneration != Some(g) || m.shuttingDown
    ensures m.SetErrorIfCurrent(g) == (m, false)
    ensures m.SetStartingIfCurrent(g, token) == (m, false)
    ensures m.SetReady(g, url, Some(token)) == (m, false)
    ensures m.ResetBudgetIfStable(g) == (m, false)
    ensures m.RequestChildKill(g).0 == m && !m.RequestChildKill(g).1.HandleTaken?
  {
  }

  /** The supervisor object: the fields of ManagedChildState, the exit and
      completion slots, and the published status. Every method is one critical
      section. */
  class SidecarManager {
    var child: Option<nat>
    var activeGeneration: Option<nat>
    var nextGeneration: nat
    var managed: bool
    var shuttingDown: bool
    var shutdownGeneration: Option<nat>
    var restartAttempts: nat
    var nextRestartTicket: nat
    var scheduledRestart: Option<nat>
    var exited: Option<ChildExit>
    var shutdownComplete: bool
    var runtime: Status

    ghost function View(): Manager
      reads this
    {
      Manager(child, activeGeneration, nextGeneration, managed, shuttingDown, shutdownGeneration,
              restartAttempts, nextRestartTicket, scheduledRestart, exited, shutdownComplete, runtime)
    }

    constructor ()
      ensures View() == INITIAL
    {
      child, activeGeneration, nextGeneration := None, None, 0;
      managed, shuttingDown, shutdownGeneration := false, false, None;
      restartAttempts, nextRestartTicket, scheduledRestart := 0, 0, None;
      exited, shutdownComplete := None, false;
      runtime := Status(Starting, None, None, None);
    }

    method ConfigureBundled()
      modifies this
      ensures View() == old(View()).(managed := true)
    {
      managed := true;
    }

    method SetExternalStarting(url: string, token: Option<string>)
      modifies this
      ensures View() == old(View()).SetExternalStarting(url, token)
    {
      runtime := Status(Starting, Some(url), token, None);
    }

    method SetExternalReady(url: string, token: Option<string>)
      modifies this
      ensures View() == old(View()).SetExternalReady(url, token)
    {
      runtime := runtime.(phase := Ready);
      runtime := runtime.(baseUrl := Some(url), sessionToken := token);
      runtime := runtime.(generation := None);
    }

    method SetError()
      modifies this
      ensures View() == old(View()).SetError()
    {
      runtime := runtime.(phase := Error);
      runtime := runtime.(baseUrl := None, sessionToken := None);
    }

    method SetErrorUnlessShuttingDown() returns (done: bool)
      modifies this
      ensures (View(), done) == old(View()).SetErrorUnlessShuttingDown()
    {
      if shuttingDown {
        return false;
      }
      SetError();
      done := true;
    }

    method SetErrorIfCurrent(g: nat) returns (done: bool)
      modifies this
      ensures (View(), done) == old(View()).SetErrorIfCurrent(g)
    {
      if activeGeneration != Some(g) || shuttingDown {
        return false;
      }
      SetError();
      done := true;
    }

    method SetStartingIfCurrent(g: nat, token: string) returns (done: bool)
      modifies this
      ensures (View(), done) == old(View()).SetStartingIfCurrent(g, token)
    {
      if activeGeneration != Some(g) || shuttingDown {
        return false;
      }
      runtime := Status(Starting, None, Some(token), Some(g));
      done := true;
    }

    method SetReady(g: nat, url: string, token: Option<string>) returns (done: bool)
      modifies this
      ensures (View(), done) == old(View()).SetReady(g, url, token)
    {
      if activeGeneration != Some(g) || shuttingDown {
        return false;
      }
      runtime := runtime.(phase := Ready);
      runtime := runtime.(baseUrl := Some(url), sessionToken := token);
      runtime := runtime.(generation := Some(g));
      done := true;
    }

    method SetRestarting(ticket: nat) returns (done: bool)
      modifies this
      ensures (View(), done) == old(View()).SetRestarting(ticket)
    {
      if scheduledRestart != Some(ticket) || shuttingDown {
        return false;
      }
      runtime := runtime.(phase := Restarting);
      runtime := runtime.(baseUrl := None, sessionToken := None);
      done := true;
    }

    method SpawnAndRegister(spawned: bool) returns (r: Spawn)
      modifies this
      ensures (View(), r) == old(View()).SpawnAndRegister(spawned)
    {
      if shuttingDown {
        return ShutDown;
      }
      if child.Some? || activeGeneration.Some? {
        return Refused;
      }
      if !spawned {
        return SpawnFailed;
      }
      var g := SaturatingSucc(nextGeneration);
      nextGeneration := g;
      activeGeneration := Some(g);
      child := Some(g);
      r := Registered(g);
    }

    method MarkExited(g: nat, code: Option<int>, signal: Option<int>) returns (marked: bool)
      modifies this
      ensures (View(), marked) == old(View()).MarkExited(g, code, signal)
    {
      if activeGeneration != Some(g) {
        return false;
      }
      exited := Some(ChildExit(g, code, signal));
      if !shuttingDown {
        runtime := runtime.(baseUrl := None, sessionToken := None);
        if runtime.phase != Error {
          runtime := runtime.(phase := Error);
        }
      }
      child := None;
      activeGeneration := None;
      marked := true;
    }

    method WaitForExitNow(g: nat) returns (e: Option<ChildExit>)
      ensures e == View().ExitOf(g)
    {
      if exited.Some? && exited.value.generation == g {
        return exited;
      }
      e := None;
    }

    method RequestChildKill(g: nat) returns (r: KillClaim)
      modifies this
      ensures (View(), r) == old(View()).RequestChildKill(g)
    {
      if shuttingDown {
        return ShutdownOwnsChild;
      }
      if activeGeneration != Some(g) {
        return HandleMissing;
      }
      var taken := child;
      child := None;
      match taken {
        case Some(held) =>
          if held == g {
            return HandleTaken;
          }
          child := Some(held);
        case None =>
      }
      r := HandleMissing;
    }

    method ReserveRestart() returns (r: Reserve)
      modifies this
      ensures (View(), r) == old(View()).ReserveRestart()
    {
      if !managed || shuttingDown || activeGeneration.Some? || child.Some? || scheduledRestart.Some? {
        return NotNeeded;
      }
      if restartAttempts >= MAX_RESTART_ATTEMPTS {
        return BudgetSpent;
      }
      restartAttempts := restartAttempts + 1;
      nextRestartTicket := SaturatingSucc(nextRestartTicket);
      var reservation := Reservation(nextRestartTicket, restartAttempts, RESTART_BACKOFFS_MS[restartAttempts - 1]);
      scheduledRestart := Some(reservation.ticket);
      r := Reserved(reservation);
    }

    method ClaimRestart(ticket: nat) returns (claimed: bool)
      modifies this
      ensures (View(), claimed) == old(View()).ClaimRestart(ticket)
    {
      if scheduledRestart != Some(ticket) || shuttingDown || activeGeneration.Some? || child.Some? {
        return false;
      }
      scheduledRestart := None;
      claimed := true;
    }

    method ResetBudgetIfStable(g: nat) returns (reset: bool)
      modifies this
      ensures (View(), reset) == old(View()).ResetBudgetIfStable(g)
    {
      if activeGeneration != Some(g) || shuttingDown || child.None? {
        return false;
      }
      if runtime.phase != Ready || runtime.generation != Some(g) {
        return false;
      }
      restartAttempts := 0;
      reset := true;
    }

    method BeginShutdown() returns (r: ShutdownStart)
      modifies this
      ensures (View(), r) == old(View()).BeginShutdown()
    {
      if shuttingDown {
        return Waiter;
      }
      shuttingDown := true;
      scheduledRestart := None;
      var g := activeGeneration;
      shutdownGeneration := g;
      SetError();
      shutdownComplete := false;
      r := Owner(g);
    }

    method TakeForShutdown(generation: Option<nat>) returns (taken: bool)
      modifies this
      ensures (View(), taken) == old(View()).TakeForShutdown(generation)
    {
      var stored := child;
      child := None;
      if stored.Some? && generation.Some? && stored.value == generation.value {
        return true;
      }
      child := stored;
      taken := false;
    }

    method FinishShutdown()
      modifies this
      ensures View() == old(View()).FinishShutdown()
    {
      shutdownComplete := true;
    }
  }
}
