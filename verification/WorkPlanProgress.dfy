/** The progress summary of a plan, the checks of the plan inbox and of the plan
    continuation, and how they agree on every accepted plan. */
module WorkPlanProgress {
  import opened Options
  import opened WorkPlan
  import opened WorkPlanGraph

  // ----- the summary -----

  function ActiveSteps(steps: seq<Step>): (r: seq<Step>)
    ensures |r| <= |steps|
    ensures forall s :: s in r <==> s in steps && Active(s)
  {
    if steps == [] then [] else
      var front := ActiveSteps(steps[..|steps| - 1]);
      var last := steps[|steps| - 1];
      assert steps == steps[..|steps| - 1] + [last];
      if Active(last) then front + [last] else front
  }

  predicate InState(step: Step, states: set<string>) {
    step.Step? && step.kind == Str("action") && step.state.Str? && step.state.s in states
  }

  predicate PendingApproval(step: Step) { InState(step, {"pending", "child_pending_approval"}) }
  predicate Executing(step: Step) { InState(step, {"queued", "running"}) }
  predicate NeedsRecovery(step: Step) { InState(step, {"output_pending", "retained"}) }

  function Count(steps: seq<Step>, p: Step -> bool): (n: nat)
    ensures n <= |steps|
    ensures n == |steps| <==> forall s :: s in steps ==> p(s)
  {
    if steps == [] then 0 else
      var last := steps[|steps| - 1];
      assert steps == steps[..|steps| - 1] + [last];
      Count(steps[..|steps| - 1], p) + if p(last) then 1 else 0
  }

  datatype InboxState =
    | Running | NeedsApproval | Recovery | AwaitingContinuation | Completed | Closed

  datatype Totals = Totals(
    steps: nat, superseded: nat, satisfied: nat, pendingApproval: nat, executing: nat, recovery: nat)

  function ExpectedState(t: Totals, generationStatus: Field): InboxState {
    if t.satisfied + t.superseded == t.steps then Completed
    else if t.recovery > 0 then Recovery
    else if t.pendingApproval > 0 then NeedsApproval
    else if t.executing > 0 || generationStatus == Str("streaming") then Running
    else AwaitingContinuation
  }

  function TotalsOf(steps: seq<Step>): Totals {
    var active := ActiveSteps(steps);
    Totals(|steps|, |steps| - |active|, Count(active, Done), Count(active, PendingApproval),
           Count(active, Executing), Count(active, NeedsRecovery))
  }

  function ProgressState(plan: Plan): InboxState {
    ExpectedState(TotalsOf(plan.steps), plan.generationStatus)
  }

  predicate Complete(plan: Plan) {
    forall s :: s in ActiveSteps(plan.steps) ==> Done(s)
  }

  // ----- the inbox item checks -----

  /** The checks parseAiWorkPlanInbox makes on the counts and state of an item. */
  predicate InboxItemOk(t: Totals, generationStatus: Field, state: InboxState) {
    && 1 <= t.steps <= 12
    && t.superseded <= t.steps - 1
    && t.satisfied <= t.steps && t.pendingApproval <= t.steps && t.executing <= t.steps
    && t.recovery <= t.steps
    && generationStatus.Text() in {"streaming", "completed", "failed", "cancelled"}
    && t.satisfied + t.pendingApproval + t.executing + t.recovery <= t.steps - t.superseded
    && (state != Closed ==> state == ExpectedState(t, generationStatus))
  }

  /** No state counts a satisfied action as still pending, executing or to recover. */
  lemma FinishedIsOpenNowhere(action: string, state: string)
    requires FinishedState(action, state)
    ensures state !in {"pending", "child_pending_approval", "queued", "running", "output_pending", "retained"}
  {
    assert |"pending"| == 7 && |"child_pending_approval"| == 22 && |"queued"| == 6 && |"running"| == 7
           && |"output_pending"| == 14 && |"retained"| == 8;
    assert |"recorded"| == 8 && |"completed"| == 9 && |"submitted"| == 9 && |"succeeded"| == 9
           && |"cancelled"| == 9;
    assert "recorded"[2] == 'c' && "retained"[2] == 't';
  }

  lemma CategoriesAreDisjoint(rules: Rules, step: Step, status: Field)
    requires LocalOk(rules, step, status)
    ensures (if Done(step) then 1 else 0) + (if PendingApproval(step) then 1 else 0)
            + (if Executing(step) then 1 else 0) + (if NeedsRecovery(step) then 1 else 0) <= 1
  {
    if step.kind == Str("action") && step.satisfied == Bool(true) {
      FinishedIsOpenNowhere(step.evidence.e.action.s, step.state.s);
    }
  }

  lemma {:induction false} DisjointCountsAddUp(steps: seq<Step>)
    requires forall s :: s in steps ==>
               (if Done(s) then 1 else 0) + (if PendingApproval(s) then 1 else 0)
               + (if Executing(s) then 1 else 0) + (if NeedsRecovery(s) then 1 else 0) <= 1
    ensures Count(steps, Done) + Count(steps, PendingApproval) + Count(steps, Executing)
            + Count(steps, NeedsRecovery) <= |steps|
  {
    if steps != [] {
      assert steps[|steps| - 1] in steps;
      DisjointCountsAddUp(steps[..|steps| - 1]);
    }
  }

  /** The last step of an accepted plan is never superseded. */
  lemma SomeStepIsActive(rules: Rules, steps: seq<Step>, status: Field)
    requires StepsOk(rules, steps, status) && |steps| > 0
    ensures Active(steps[|steps| - 1]) && |ActiveSteps(steps)| >= 1
  {
    var last := |steps| - 1;
    assert SupersededOk(steps, last);
    if !Active(steps[last]) {
      var k :| 0 <= k < |steps| && Replaces(steps[k], Id(steps[last]));
      ReplacementIsLater(rules, steps, status, last, k);
      assert false;
    }
    assert steps[last] in ActiveSteps(steps);
  }

  /** The summary of every accepted plan passes the inbox checks. */
  lemma ProgressPassesInbox(rules: Rules, plan: Plan, sessionId: string)
    requires PlanOk(rules, plan, sessionId)
    ensures InboxItemOk(TotalsOf(plan.steps), plan.generationStatus, ProgressState(plan))
    ensures TotalsOf(plan.steps).superseded < TotalsOf(plan.steps).steps
  {
    SomeStepIsActive(rules, plan.steps, plan.generationStatus);
    var active := ActiveSteps(plan.steps);
    forall s | s in active
      ensures (if Done(s) then 1 else 0) + (if PendingApproval(s) then 1 else 0)
              + (if Executing(s) then 1 else 0) + (if NeedsRecovery(s) then 1 else 0) <= 1
    {
      var i :| 0 <= i < |plan.steps| && plan.steps[i] == s;
      StepOkIsLocal(rules, plan.steps, i, plan.generationStatus);
      CategoriesAreDisjoint(rules, s, plan.generationStatus);
    }
    DisjointCountsAddUp(active);
  }

  /** "Completed" means what the continuation check means by complete: every
      step that is not superseded is ready and satisfied. */
  lemma CompletedIsComplete(plan: Plan)
    ensures ProgressState(plan) == Completed <==> Complete(plan)
  {
    assert Count(ActiveSteps(plan.steps), Done) == |ActiveSteps(plan.steps)| <==> Complete(plan);
  }

  lemma {:induction false} NoneCountsZero(steps: seq<Step>, p: Step -> bool)
    ensures Count(steps, p) == 0 <==> forall s :: s in steps ==> !p(s)
  {
    if steps != [] {
      NoneCountsZero(steps[..|steps| - 1], p);
      assert steps == steps[..|steps| - 1] + [steps[|steps| - 1]];
    }
  }

  /** An active action step is in one of these states. */
  ghost predicate SomeActionIn(plan: Plan, states: set<string>) {
    exists s :: s in plan.steps && s.Step? && s.supersededBy.Absent? && s.kind == Str("action")
                && s.state.Str? && s.state.s in states
  }

  lemma CountsSome(plan: Plan, p: Step -> bool, states: set<string>)
    requires forall s :: p(s) <==> InState(s, states)
    ensures Count(ActiveSteps(plan.steps), p) > 0 <==> SomeActionIn(plan, states)
  {
    NoneCountsZero(ActiveSteps(plan.steps), p);
    if SomeActionIn(plan, states) {
      var s :| s in plan.steps && s.Step? && s.supersededBy.Absent? && s.kind == Str("action")
               && s.state.Str? && s.state.s in states;
      assert s in ActiveSteps(plan.steps) && p(s);
    }
    if Count(ActiveSteps(plan.steps), p) > 0 {
      var s :| s in ActiveSteps(plan.steps) && p(s);
      assert s in plan.steps;
    }
  }

  /** What each summary state says of the steps: completed, else something to
      recover, else something to approve, else something running or a streaming
      generation, else nothing to do but continue. */
  lemma StateSaysWhatIsLeft(plan: Plan)
    ensures var state, streaming := ProgressState(plan), plan.generationStatus == Str("streaming");
      var recover, approve, run := SomeActionIn(plan, {"output_pending", "retained"}),
        SomeActionIn(plan, {"pending", "child_pending_approval"}), SomeActionIn(plan, {"queued", "running"});
      && (state == Completed <==> Complete(plan))
      && (state == Recovery <==> !Complete(plan) && recover)
      && (state == NeedsApproval <==> !Complete(plan) && !recover && approve)
      && (state == Running <==> !Complete(plan) && !recover && !approve && (run || streaming))
      && (state == AwaitingContinuation <==> !Complete(plan) && !recover && !approve && !run && !streaming)
  {
    hide Count, ActiveSteps, Complete, SomeActionIn;
    CompletedIsComplete(plan);
    CountsSome(plan, NeedsRecovery, {"output_pending", "retained"});
    CountsSome(plan, PendingApproval, {"pending", "child_pending_approval"});
    CountsSome(plan, Executing, {"queued", "running"});
  }

  // ----- the continuation -----

  datatype Blocker = Blocker(reason: Field, total: Number, generationIds: Fields) | NotABlocker
  datatype Blockers = NoBlockers | Listed(items: seq<Blocker>) | BadBlockers
  datatype Continuation = Continuation(
    plan: Response, ready: Flag, reason: Field, blocking: Field, blockers: Blockers)

  const REASONS: set<string> := {
    "ready", "generation_active", "plan_complete", "pending_approval", "run_active", "output_pending",
    "evidence_unavailable", "generation_unavailable", "plan_closed" }

  /** The position of a blocker reason in the fixed order, or None. */
  function Priority(reason: string): Option<nat> {
    if reason == "evidence_unavailable" then Some(0)
    else if reason == "generation_unavailable" then Some(1)
    else if reason == "pending_approval" then Some(2)
    else if reason == "output_pending" then Some(3)
    else if reason == "run_active" then Some(4)
    else None
  }

  function Rank(b: Blocker): nat {
    if b.Blocker? && Priority(b.reason.Text()).Some? then Priority(b.reason.Text()).value else 0
  }

  predicate Source(plan: Plan, id: Field) {
    || id == plan.generationId
    || exists s :: s in ActiveSteps(plan.steps) && s.Step? && s.evidence.Has? && s.evidence.e.generationId == id
  }

  predicate BlockerOk(plan: Plan, b: Blocker) {
    && b.Blocker?
    && b.reason.Str? && Priority(b.reason.s).Some?
    && b.total.Int? && 1 <= b.total.n <= 1000
    && b.generationIds.List? && |b.generationIds.items| <= 13
    && (forall id :: id in b.generationIds.items ==> Identity(id) && Source(plan, id))
    && NoDuplicates(b.generationIds.items)
    && b.total.n >= |b.generationIds.items|
  }

  /** At most five well-formed blockers, in the order of their reasons. */
  predicate BlockersOk(plan: Plan, items: seq<Blocker>) {
    && |items| <= 5
    && (forall i :: 0 <= i < |items| ==> BlockerOk(plan, items[i]))
    && (forall i, j :: 0 <= i < j < |items| ==>
          Rank(items[i]) < Rank(items[j]))
  }

  predicate StillBusy(step: Step) {
    && step.Step? && step.kind == Str("action")
    && (|| (step.state.Str? && step.state.s in
              {"pending", "queued", "running", "output_pending", "evidence_unavailable", "unavailable"})
        || (!step.proposalId.Absent? && step.evidence.NoEvidence?))
  }

  predicate AgreesWithPlan(c: Continuation, plan: Plan)
    requires c.reason.Str? && c.ready.Bool?
  {
    && (c.reason.s == "plan_complete" ==> Complete(plan))
    && (c.reason.s == "plan_closed" <==> !plan.closedAt.Absent?)
    && (!c.blocking.Absent? ==>
          && Identity(c.blocking)
          && c.reason.s !in {"ready", "plan_complete", "generation_active"}
          && Source(plan, c.blocking)
          && (c.blockers.Listed? && |c.blockers.items| > 0 && c.blockers.items[0].Blocker?
                && c.blockers.items[0].generationIds.List? ==>
              c.blocking in c.blockers.items[0].generationIds.items))
    && (c.ready.b ==>
          && plan.generationStatus != Str("streaming")
          && !Complete(plan)
          && forall s :: s in ActiveSteps(plan.steps) ==> !StillBusy(s))
  }

  predicate ContinuationOk(rules: Rules, c: Continuation, sessionId: string, version: int) {
    && 1 <= version <= 128
    && c.ready.Bool?
    && c.reason.Str? && c.reason.s in REASONS
    && c.ready.b == (c.reason.s == "ready")
    && c.plan.Value? && PlanOk(rules, c.plan.plan, sessionId) && c.plan.plan.version == Int(version)
    && !c.blockers.BadBlockers?
    && (c.blockers.Listed? ==>
          && BlockersOk(c.plan.plan, c.blockers.items)
          && (Priority(c.reason.s).Some? <==> |c.blockers.items| > 0)
          && (|c.blockers.items| > 0 ==> c.blockers.items[0].reason == c.reason))
    && AgreesWithPlan(c, c.plan.plan)
  }

  method CheckBlockers(plan: Plan, items: seq<Blocker>) returns (ok: bool)
    ensures ok <==> BlockersOk(plan, items)
  {
    hide BlockerOk, Rank;
    if |items| > 5 {
      return false;
    }
    var lastPriority: int := -1;
    for n := 0 to |items|
      invariant forall i :: 0 <= i < n ==> BlockerOk(plan, items[i])
      invariant forall i :: 0 <= i < n ==> Rank(items[i]) <= lastPriority
      invariant lastPriority == if n == 0 then -1 else Rank(items[n - 1])
      invariant forall i, j :: 0 <= i < j < n ==> Rank(items[i]) < Rank(items[j])
    {
      if !BlockerOk(plan, items[n]) {
        return false;
      }
      var priority := Rank(items[n]);
      if priority <= lastPriority {
        return false;
      }
      lastPriority := priority;
    }
    ok := true;
  }

  method ParseAiWorkPlanContinuation(rules: Rules, c: Continuation, sessionId: string, expectedVersion: int)
    returns (accepted: bool)
    ensures accepted <==> ContinuationOk(rules, c, sessionId, expectedVersion)
  {
    if !(1 <= expectedVersion <= 128) || !c.ready.Bool? || !c.reason.Str? || c.reason.s !in REASONS
       || c.ready.b != (c.reason.s == "ready") {
      return false;
    }
    var parsed := ParseAiWorkPlan(rules, c.plan, sessionId);
    if !parsed.Accepted? || parsed.plan.version != Int(expectedVersion) {
      return false;
    }
    var plan := parsed.plan;
    if c.blockers.BadBlockers? {
      return false;
    }
    if c.blockers.Listed? {
      var ok := CheckBlockers(plan, c.blockers.items);
      if !ok || Priority(c.reason.s).Some? != (|c.blockers.items| > 0)
         || (|c.blockers.items| > 0 && c.blockers.items[0].reason != c.reason) {
        return false;
      }
    }
    accepted := AgreesWithPlan(c, plan);
  }

  predicate AwaitsChild(step: Step) { InState(step, {"child_pending_approval"}) }
  predicate Retained(step: Step) { InState(step, {"retained"}) }

  /** A continuation accepted as ready rules out everything the summary counts
      as executing, but not everything it counts as waiting or to recover: an
      active step may still wait for approval in a delegated session, and only
      there, and may hold a retained run, and only that. The summary then says
      so, and says "awaiting continuation" exactly when no such step is left. */
  lemma ReadyLeavesChildAndRetained(rules: Rules, c: Continuation, sessionId: string, version: int)
    requires ContinuationOk(rules, c, sessionId, version) && c.ready.b
    ensures var active, t := ActiveSteps(c.plan.plan.steps), TotalsOf(c.plan.plan.steps);
      && t.executing == 0
      && (forall s :: s in active && PendingApproval(s) ==> AwaitsChild(s))
      && (forall s :: s in active && NeedsRecovery(s) ==> Retained(s))
      && (t.pendingApproval > 0 <==> exists s :: s in active && AwaitsChild(s))
      && (t.recovery > 0 <==> exists s :: s in active && Retained(s))
    ensures var active, state := ActiveSteps(c.plan.plan.steps), ProgressState(c.plan.plan);
      && (state == Recovery <==> exists s :: s in active && Retained(s))
      && (state == NeedsApproval <==>
            (exists s :: s in active && AwaitsChild(s)) && forall s :: s in active ==> !Retained(s))
      && (state == AwaitingContinuation <==> forall s :: s in active ==> !AwaitsChild(s) && !Retained(s))
    ensures c.blockers.Listed? ==> c.blockers.items == []
    ensures c.blocking.Absent? && c.plan.plan.closedAt.Absent?
  {
    hide PlanOk;
    var plan := c.plan.plan;
    var active := ActiveSteps(plan.steps);
    CompletedIsComplete(plan);
    NoneCountsZero(active, Executing);
    NoneCountsZero(active, PendingApproval);
    NoneCountsZero(active, NeedsRecovery);
    forall s | s in active
      ensures !Executing(s) && (PendingApproval(s) <==> AwaitsChild(s)) && (NeedsRecovery(s) <==> Retained(s))
    {
      assert !StillBusy(s);
    }
  }

  /** The reason "plan_complete" is accepted only for plans the inbox shows as
      completed, and "plan_closed" exactly for plans that carry a closing date. */
  lemma CompleteReasonAgrees(rules: Rules, c: Continuation, sessionId: string, version: int)
    requires ContinuationOk(rules, c, sessionId, version)
    ensures c.reason == Str("plan_complete") ==> ProgressState(c.plan.plan) == Completed && !c.ready.b
    ensures c.reason == Str("plan_closed") <==> !c.plan.plan.closedAt.Absent?
  {
    hide PlanOk;
    CompletedIsComplete(c.plan.plan);
  }

  const BLOCKER_ORDER: seq<string> :=
    ["evidence_unavailable", "generation_unavailable", "pending_approval", "output_pending", "run_active"]

  lemma PriorityIsPosition(reason: string)
    ensures Priority(reason).Some? <==> reason in BLOCKER_ORDER
    ensures Priority(reason).Some? ==>
              Priority(reason).value < |BLOCKER_ORDER| && BLOCKER_ORDER[Priority(reason).value] == reason
  {
    assert reason in BLOCKER_ORDER <==> exists k :: 0 <= k < 5 && BLOCKER_ORDER[k] == reason;
  }

  /** The reasons of `items` stand at the rising positions `at` of the fixed order. */
  ghost predicate InOrder(items: seq<Blocker>, at: seq<nat>) {
    && |at| == |items|
    && (forall i :: 0 <= i < |at| ==>
          items[i].Blocker? && at[i] < |BLOCKER_ORDER| && items[i].reason == Str(BLOCKER_ORDER[at[i]]))
    && (forall i, j :: 0 <= i < j < |at| ==> at[i] < at[j])
  }

  /** The blockers of an accepted continuation come in the fixed order of reasons,
      each once, the first being the reason given; each counts at least the
      generations it lists, and lists only sources of the plan. A blocking
      generation is listed by the first of them. */
  lemma BlockersAreOrdered(rules: Rules, c: Continuation, sessionId: string, version: int)
    requires ContinuationOk(rules, c, sessionId, version) && c.blockers.Listed? && c.blockers.items != []
    ensures forall i :: 0 <= i < |c.blockers.items| ==> c.blockers.items[i].Blocker?
    ensures c.blockers.items[0].reason == c.reason
    ensures exists at: seq<nat> :: InOrder(c.blockers.items, at)
    ensures forall i :: 0 <= i < |c.blockers.items| ==>
      var b := c.blockers.items[i];
      && b.total.Int? && b.generationIds.List? && |b.generationIds.items| <= b.total.n <= 1000
      && forall id :: id in b.generationIds.items ==> Source(c.plan.plan, id)
    ensures !c.blocking.Absent? ==>
      c.blockers.items[0].generationIds.List? && c.blocking in c.blockers.items[0].generationIds.items
  {
    hide PlanOk, Source, Identity;
    var items := c.blockers.items;
    var at := seq(|items|, i requires 0 <= i < |items| => Rank(items[i]));
    forall i | 0 <= i < |items| ensures at[i] < |BLOCKER_ORDER| && items[i].reason == Str(BLOCKER_ORDER[at[i]]) {
      assert BlockerOk(c.plan.plan, items[i]);
      PriorityIsPosition(items[i].reason.s);
    }
    forall i, j | 0 <= i < j < |at| ensures at[i] < at[j] {
      assert Rank(items[i]) < Rank(items[j]);
    }
    assert InOrder(items, at);
    assert BlockerOk(c.plan.plan, items[0]);
  }

  // ----- a ready continuation that is not idle -----

  const SOME_ID := "00000000-0000-4000-8000-000000000000"

  /** One confirmed action whose result the server reports as `state`. */
  function ConfirmedStep(action: string, state: string): Step {
    Step(Str("a"), Str("Plan"), Str("action"), List([]), Bool(true), Bool(false), Str(state), Absent,
         Str(SOME_ID), Absent, Absent,
         Has(Evidence(Str(SOME_ID), Str(SOME_ID), Str(action), Str("confirmed"), Str(SOME_ID), Absent, Absent,
                      Absent, Absent)))
  }

  function ReadyWith(action: string, state: string): Continuation {
    Continuation(
      Value(Plan(Str(SOME_ID), Str(SOME_ID), Int(1), Str("completed"), Str("Plan"),
                 [ConfirmedStep(action, state)], Str("2026-01-01T00:00:00Z"), Str("2026-01-01T00:00:00Z"), Absent)),
      Bool(true), Str("ready"), Absent, NoBlockers)
  }

  lemma SomeIdIsIdentity()
    ensures IsIdentity(SOME_ID)
  {
  }

  lemma ReadyHeader(rules: Rules, action: string, state: string)
    requires rules.bounded("Plan", 200) && rules.date("2026-01-01T00:00:00Z")
    ensures HeaderOk(rules, ReadyWith(action, state).plan.plan, SOME_ID)
  {
    hide IsIdentity;
    SomeIdIsIdentity();
  }

  lemma ConfirmedStepIsLocal(rules: Rules, action: string, state: string)
    requires rules.bounded("Plan", 300) && rules.bounded(action, 80) && rules.action(action)
    requires state in StatesOf(action) && state in STATES && !FinishedState(action, state)
    ensures LocalOk(rules, ConfirmedStep(action, state), Str("completed"))
  {
    hide FinishedState, StatesOf;
    var step := ConfirmedStep(action, state);
    assert IsIdentity(SOME_ID);
    assert EvidenceOk(rules, step, step.evidence.e);
    assert StepName("a");
  }

  /** Which states a confirmed action that is not finished may be in. */
  lemma UnfinishedStates(rules: Rules, action: string, state: string)
    requires rules.bounded("Plan", 300) && rules.bounded(action, 80) && rules.action(action)
    ensures LocalOk(rules, ConfirmedStep(action, state), Str("completed")) <==>
      if "agent_run." <= action then
        || state in {"queued", "running", "output_pending", "retained", "failed", "interrupted", "evidence_unavailable"}
        || (state == "cancelled" && action != "agent_run.cancel" && action != "agent_run.cancel_many")
      else if action == "automation.retry" then state in {"failed", "evidence_unavailable"}
      else if action == "agent_delegate.spawn" || action == "agent_delegate.followup" then
        state in {"queued", "streaming", "child_pending_approval", "failed", "cancelled", "evidence_unavailable"}
      else action == "finance.export_csv" && state == "download_unverified"
  {
    LocalMeansStates(rules, action, state);
  }

  lemma LocalMeansStates(rules: Rules, action: string, state: string)
    requires rules.bounded("Plan", 300) && rules.bounded(action, 80) && rules.action(action)
    ensures LocalOk(rules, ConfirmedStep(action, state), Str("completed")) <==>
              state in StatesOf(action) && state in STATES && !FinishedState(action, state)
  {
    hide FinishedState, StatesOf;
    SomeIdIsIdentity();
    var step := ConfirmedStep(action, state);
    if state in StatesOf(action) && state in STATES && !FinishedState(action, state) {
      ConfirmedStepIsLocal(rules, action, state);
    }
  }

  lemma OneStepIsOk(rules: Rules, step: Step, status: Field)
    requires step.Step? && LocalOk(rules, step, status) && step.dependsOn == List([]) && step.ready == Bool(true)
    requires step.predecessor.Absent? && step.supersededBy.Absent?
    ensures StepsOk(rules, [step], status) && ActiveSteps([step]) == [step]
  {
    hide LocalOk;
    var steps := [step];
    assert StepOk(rules, steps, 0, status);
    assert SupersededOk(steps, 0);
    assert steps[..0] == [] && ActiveSteps([]) == [];
  }

  lemma ReadyWithIsAccepted(rules: Rules, action: string, state: string)
    requires rules.bounded("Plan", 200) && rules.bounded("Plan", 300) && rules.date("2026-01-01T00:00:00Z")
    requires rules.bounded(action, 80) && rules.action(action)
    requires state in StatesOf(action) && state in STATES && !FinishedState(action, state)
    requires state !in {"pending", "queued", "running", "output_pending", "evidence_unavailable", "unavailable"}
    ensures ContinuationOk(rules, ReadyWith(action, state), SOME_ID, 1)
    ensures ActiveSteps(ReadyWith(action, state).plan.plan.steps) == [ConfirmedStep(action, state)]
  {
    hide LocalOk, HeaderOk, StepsOk, ActiveSteps, StatesOf, FinishedState;
    var plan := ReadyWith(action, state).plan.plan;
    ConfirmedStepIsLocal(rules, action, state);
    OneStepIsOk(rules, plan.steps[0], plan.generationStatus);
    ReadyHeader(rules, action, state);
    assert !Done(plan.steps[0]) && plan.steps[0] in ActiveSteps(plan.steps);
    assert |"ready"| == 5 && |"plan_complete"| == 13 && |"plan_closed"| == 11;
  }

  lemma CountsOfOne(step: Step)
    requires Active(step)
    ensures var t := TotalsOf([step]);
      && t.steps == 1 && t.superseded == 0 && t.satisfied == (if Done(step) then 1 else 0)
      && t.pendingApproval == (if PendingApproval(step) then 1 else 0)
      && t.recovery == if NeedsRecovery(step) then 1 else 0
  {
    hide PendingApproval, NeedsRecovery, Executing;
    var steps := [step];
    assert steps[..0] == [] && ActiveSteps([]) == [] && ActiveSteps(steps) == [step];
    CountOfOne(step, Done);
    CountOfOne(step, PendingApproval);
    CountOfOne(step, NeedsRecovery);
  }

  lemma CountOfOne(step: Step, p: Step -> bool)
    ensures Count([step], p) == if p(step) then 1 else 0
  {
    var steps := [step];
    assert steps[..0] == [] && Count(steps[..0], p) == 0;
  }

  /** A spawned delegate that waits for approval in its own session does not
      stop a ready continuation, and the summary shows it as needing approval. */
  lemma ReadyMayAwaitChildApproval(rules: Rules)
    requires rules.bounded("Plan", 200) && rules.bounded("Plan", 300) && rules.date("2026-01-01T00:00:00Z")
    requires rules.bounded("agent_delegate.spawn", 80) && rules.action("agent_delegate.spawn")
    ensures var c := ReadyWith("agent_delegate.spawn", "child_pending_approval");
      && ContinuationOk(rules, c, SOME_ID, 1) && c.ready.b
      && TotalsOf(c.plan.plan.steps).pendingApproval == 1 && ProgressState(c.plan.plan) == NeedsApproval
  {
    hide ContinuationOk, Count, ActiveSteps;
    var action, state := "agent_delegate.spawn", "child_pending_approval";
    assert action[6] == 'd' && "agent_run."[6] == 'r';
    assert |state| == 22 && |"output_pending"| == 14 && |"retained"| == 8;
    NotFinished(action, state);
    ReadyWithIsAccepted(rules, action, state);
    CountsOfOne(ConfirmedStep(action, state));
  }

  /** Nor does a retained run, which the summary shows as needing recovery. */
  lemma ReadyMayHoldRetainedRun(rules: Rules)
    requires rules.bounded("Plan", 200) && rules.bounded("Plan", 300) && rules.date("2026-01-01T00:00:00Z")
    requires rules.bounded("agent_run.start", 80) && rules.action("agent_run.start")
    ensures var c := ReadyWith("agent_run.start", "retained");
      && ContinuationOk(rules, c, SOME_ID, 1) && c.ready.b
      && TotalsOf(c.plan.plan.steps).recovery == 1 && ProgressState(c.plan.plan) == Recovery
  {
    hide ContinuationOk, Count, ActiveSteps;
    var action, state := "agent_run.start", "retained";
    assert action[..10] == "agent_run.";
    assert |state| == 8 && |"pending"| == 7 && |"child_pending_approval"| == 22;
    NotFinished(action, state);
    ReadyWithIsAccepted(rules, action, state);
    CountsOfOne(ConfirmedStep(action, state));
  }

  lemma NotFinished(action: string, state: string)
    requires state == "child_pending_approval" || state == "retained"
    ensures !FinishedState(action, state)
  {
    assert |"completed"| == 9 && |"submitted"| == 9 && |"succeeded"| == 9 && |"cancelled"| == 9;
    assert |"recorded"| == 8 && "recorded"[2] == 'c' && "retained"[2] == 't' && |"child_pending_approval"| == 22;
  }

  /** Which reasons the server may give without listing blockers, for each accepted
      plan: plan_closed exactly for a closed one, plan_complete only for a complete
      one, ready only with steps left, none of which waits or runs, and the others
      always. */
  lemma BareContinuations(rules: Rules, plan: Plan, sessionId: string, reason: string)
    requires PlanOk(rules, plan, sessionId)
    ensures ContinuationOk(rules, Continuation(Value(plan), Bool(reason == "ready"), Str(reason), Absent, NoBlockers),
                           sessionId, plan.version.n) <==>
      if plan.closedAt.Str? then reason == "plan_closed"
      else
        || reason in {"generation_active", "pending_approval", "run_active", "output_pending",
                      "evidence_unavailable", "generation_unavailable"}
        || (reason == "plan_complete" && Complete(plan))
        || (reason == "ready" && !Complete(plan) && plan.generationStatus != Str("streaming")
            && (forall s :: s in ActiveSteps(plan.steps) && s.Step? && s.kind == Str("action") ==>
                  && !(s.state.Str? && s.state.s in {"pending", "queued", "running", "output_pending",
                                                     "evidence_unavailable", "unavailable"})
                  && !(!s.proposalId.Absent? && s.evidence.NoEvidence?)))
  {
    hide StepsOk, ActiveSteps, Complete;
    ReasonsDiffer(reason);
  }

  lemma ReasonsDiffer(reason: string)
    ensures "ready" != "plan_complete" && "ready" != "plan_closed" && "plan_complete" != "plan_closed"
    ensures reason in {"generation_active", "pending_approval", "run_active", "output_pending",
                       "evidence_unavailable", "generation_unavailable"} ==>
              reason !in {"ready", "plan_complete", "plan_closed"}
  {
    assert |"ready"| == 5 && |"plan_complete"| == 13 && |"plan_closed"| == 11;
    assert |"generation_active"| == 17 && |"pending_approval"| == 16 && |"run_active"| == 10;
    assert |"output_pending"| == 14 && |"evidence_unavailable"| == 20 && |"generation_unavailable"| == 22;
  }
}
