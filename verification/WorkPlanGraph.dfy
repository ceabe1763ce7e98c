/** What acceptance by the work plan parser means for the dependency graph and
    for the replacement chains. */
module WorkPlanGraph {
  import opened Options
  import opened WorkPlan

  lemma IdsAreDistinct(rules: Rules, steps: seq<Step>, status: Field)
    requires StepsOk(rules, steps, status)
    ensures forall i, j :: 0 <= i < |steps| && 0 <= j < |steps| && Id(steps[i]) == Id(steps[j]) ==> i == j
  {
    forall i, j | 0 <= i < j < |steps| ensures Id(steps[i]) != Id(steps[j]) {
      StepOkIsLocal(rules, steps, j, status);
    }
  }

  // ----- dependencies -----

  predicate DependsOn(steps: seq<Step>, i: nat, j: nat) {
    && i < |steps| && j < |steps|
    && steps[i].Step? && steps[i].dependsOn.List?
    && Str(Id(steps[j])) in steps[i].dependsOn.items
  }

  /** `path` leads from its first step to its last along dependencies. */
  ghost predicate Path(steps: seq<Step>, path: seq<nat>) {
    && |path| > 0
    && (forall m :: 0 <= m < |path| ==> path[m] < |steps|)
    && (forall m :: 0 <= m < |path| - 1 ==> DependsOn(steps, path[m], path[m + 1]))
  }

  lemma DependencyIsEarlier(rules: Rules, steps: seq<Step>, status: Field, i: nat, j: nat)
    requires StepsOk(rules, steps, status) && DependsOn(steps, i, j)
    ensures j < i
    ensures steps[i].ready == Bool(true) ==> Done(steps[j])
    ensures Done(steps[i]) ==> Done(steps[j])
    ensures Active(steps[i]) ==> Active(steps[j])
  {
    IdsAreDistinct(rules, steps, status);
    assert StepOk(rules, steps, i, status);
    var d := Str(Id(steps[j]));
    var k := Lookup(steps, i, d.Text());
    assert k.Some? && Id(steps[k.value]) == Id(steps[j]);
    assert steps[i].ready == Bool(true) ==> AllDepsDone(steps, i);
  }

  /** Along every path of dependencies: no cycle; a ready and satisfied step has
      only ready and satisfied steps below it; a step that is not superseded has
      only steps that are not superseded below it. */
  lemma {:induction false} DependenciesAreSound(rules: Rules, steps: seq<Step>, status: Field, path: seq<nat>)
    requires StepsOk(rules, steps, status) && Path(steps, path)
    ensures var first, last := path[0], path[|path| - 1];
            && (|path| > 1 ==> last < first)
            && (Done(steps[first]) ==> Done(steps[last]))
            && (Active(steps[first]) ==> Active(steps[last]))
  {
    if |path| > 1 {
      var front := path[..|path| - 1];
      assert forall m :: 0 <= m < |front| - 1 ==> DependsOn(steps, front[m], front[m + 1]);
      DependenciesAreSound(rules, steps, status, front);
      assert DependsOn(steps, path[|path| - 2], path[|path| - 1]);
      DependencyIsEarlier(rules, steps, status, path[|path| - 2], path[|path| - 1]);
    }
  }

  // ----- replacements -----

  lemma ReplacementIsLater(rules: Rules, steps: seq<Step>, status: Field, i: nat, j: nat)
    requires StepsOk(rules, steps, status) && i < |steps| && j < |steps|
    requires Replaces(steps[j], Id(steps[i]))
    ensures i < j && Lookup(steps, j, Id(steps[i])) == Some(i) && ReplaceOk(steps, j)
  {
    assert StepOk(rules, steps, j, status);
    IdsAreDistinct(rules, steps, status);
  }

  lemma ReplacerIsUnique(rules: Rules, steps: seq<Step>, status: Field, i: nat, j: nat, k: nat)
    requires StepsOk(rules, steps, status) && i < |steps| && j < |steps| && k < |steps|
    requires Replaces(steps[j], Id(steps[i])) && Replaces(steps[k], Id(steps[i]))
    ensures j == k
  {
    ReplacementIsLater(rules, steps, status, i, j);
    ReplacementIsLater(rules, steps, status, i, k);
  }

  /** `replaces` and `superseded_by` are inverse relations. */
  lemma ReplacementIsInverse(rules: Rules, steps: seq<Step>, status: Field, i: nat, j: nat)
    requires StepsOk(rules, steps, status) && i < |steps| && j < |steps|
    ensures steps[i].Step? && steps[j].Step?
    ensures Replaces(steps[j], Id(steps[i])) <==> steps[i].supersededBy == Str(Id(steps[j]))
  {
    StepOkIsLocal(rules, steps, i, status);
    StepOkIsLocal(rules, steps, j, status);
    assert SupersededOk(steps, i);
    if !steps[i].supersededBy.Absent? {
      var k :| 0 <= k < |steps| && Replaces(steps[k], Id(steps[i])) && steps[i].supersededBy == Str(Id(steps[k]));
      if Replaces(steps[j], Id(steps[i])) {
        ReplacerIsUnique(rules, steps, status, i, j, k);
      } else if steps[i].supersededBy == Str(Id(steps[j])) {
        IdsAreDistinct(rules, steps, status);
      }
    }
  }

  /** Each step of a chain is replaced by the next one. */
  ghost predicate Chain(steps: seq<Step>, chain: seq<nat>) {
    && |chain| > 0
    && (forall m :: 0 <= m < |chain| ==> chain[m] < |steps|)
    && (forall m :: 0 <= m < |chain| - 1 ==> Replaces(steps[chain[m + 1]], Id(steps[chain[m]])))
  }

  /** Every step starts a chain that ends in a step that is not superseded. */
  lemma {:induction false} ChainEndsActive(rules: Rules, steps: seq<Step>, status: Field, i: nat)
    returns (chain: seq<nat>)
    requires StepsOk(rules, steps, status) && i < |steps|
    ensures Chain(steps, chain) && chain[0] == i && Active(steps[chain[|chain| - 1]])
    decreases |steps| - i
  {
    assert SupersededOk(steps, i);
    if Active(steps[i]) {
      chain := [i];
    } else {
      var k :| 0 <= k < |steps| && Replaces(steps[k], Id(steps[i]));
      ReplacementIsLater(rules, steps, status, i, k);
      var rest := ChainEndsActive(rules, steps, status, k);
      chain := [i] + rest;
    }
  }

  lemma ChainParts(steps: seq<Step>, chain: seq<nat>)
    requires Chain(steps, chain) && |chain| > 1
    ensures Chain(steps, chain[1..]) && Chain(steps, chain[..|chain| - 1])
    ensures Replaces(steps[chain[1]], Id(steps[chain[0]]))
  {
    var rest := chain[1..];
    forall m | 0 <= m < |rest| - 1 ensures Replaces(steps[rest[m + 1]], Id(steps[rest[m]])) {
      assert rest[m] == chain[m + 1] && Replaces(steps[chain[m + 1 + 1]], Id(steps[chain[m + 1]]));
    }
  }

  lemma ActiveEndsChains(rules: Rules, steps: seq<Step>, status: Field, chain: seq<nat>)
    requires StepsOk(rules, steps, status) && Chain(steps, chain) && Active(steps[chain[0]])
    ensures |chain| == 1
  {
    assert SupersededOk(steps, chain[0]);
    if |chain| > 1 {
      ChainParts(steps, chain);
    }
  }

  /** That chain is the only one, so its last step is the only active one. */
  lemma {:induction false} ChainIsUnique(rules: Rules, steps: seq<Step>, status: Field, c: seq<nat>, d: seq<nat>)
    requires StepsOk(rules, steps, status) && Chain(steps, c) && Chain(steps, d) && c[0] == d[0]
    requires Active(steps[c[|c| - 1]]) && Active(steps[d[|d| - 1]])
    ensures c == d
    decreases |c|
  {
    if Active(steps[c[0]]) {
      ActiveEndsChains(rules, steps, status, c);
      ActiveEndsChains(rules, steps, status, d);
    } else {
      hide StepsOk;
      ChainParts(steps, c);
      ChainParts(steps, d);
      ReplacerIsUnique(rules, steps, status, c[0], c[1], d[1]);
      ChainIsUnique(rules, steps, status, c[1..], d[1..]);
      assert c == [c[0]] + c[1..] && d == [d[0]] + d[1..];
    }
  }

  predicate Confirmed(step: Step) {
    step.Step? && step.evidence.Has? && step.evidence.e.status == Str("confirmed")
  }

  lemma {:induction false} DutyTravels(rules: Rules, steps: seq<Step>, status: Field, chain: seq<nat>)
    requires StepsOk(rules, steps, status) && Chain(steps, chain) && |chain| > 1
    requires FailedRun(steps[chain[0]])
    requires forall m :: 0 < m < |chain| - 1 ==> !Confirmed(steps[chain[m]])
    ensures OwnDuty(steps, chain[|chain| - 1]) ==
            Must(steps[chain[0]].evidence.e.resultId.s, steps[chain[0]].state.Text() == "retained")
  {
    hide StepsOk;
    var i, j := chain[|chain| - 2], chain[|chain| - 1];
    assert Replaces(steps[j], Id(steps[i]));
    ReplacementIsLater(rules, steps, status, i, j);
    assert OwnDuty(steps, j) == DutyOf(steps, i);
    if |chain| > 2 {
      var front := chain[..|chain| - 1];
      ChainParts(steps, chain);
      DutyTravels(rules, steps, status, front);
      assert !Confirmed(steps[i]) && !FailedRun(steps[i]);
      assert !DutyOf(steps, i).Forbidden?;
    }
  }

  /** The confirmed agent run of a replaced step ended without a submitted
      result: every later step of its chain, up to and including the next
      confirmed one, names that run, and only by a restart if it was retained. */
  lemma FailedRunsAreNamed(rules: Rules, steps: seq<Step>, status: Field, chain: seq<nat>)
    requires StepsOk(rules, steps, status) && Chain(steps, chain) && |chain| > 1
    requires var first := steps[chain[0]];
      && first.Step? && first.evidence.Has? && first.evidence.e.status == Str("confirmed")
      && first.evidence.e.action.Text() in {"agent_run.start", "agent_run.retry"}
      && first.state.Text() in {"failed", "cancelled", "interrupted", "retained"}
      && Identity(first.evidence.e.resultId)
    requires forall m :: 0 < m < |chain| - 1 ==> !Confirmed(steps[chain[m]])
    ensures var run := steps[chain[0]].evidence.e.resultId;
            var last := steps[chain[|chain| - 1]];
            && last.Step? && last.evidence.Has?
            && (|| (last.evidence.e.action == Str("agent_run.start") && last.evidence.e.restartOf == run)
                || (last.evidence.e.action == Str("agent_run.retry") && last.evidence.e.retryOf == run
                    && steps[chain[0]].state != Str("retained")))
  {
    DutyTravels(rules, steps, status, chain);
    var i, j := chain[|chain| - 2], chain[|chain| - 1];
    assert Replaces(steps[j], Id(steps[i]));
    ReplacementIsLater(rules, steps, status, i, j);
    assert OwnDuty(steps, j) == DutyOf(steps, i);
  }

  // ----- the whole rule for a replacement, without the recursive duty -----

  ghost predicate PassOk(rules: Rules, steps: seq<Step>, n: nat, status: Field) {
    n <= |steps| && forall k :: 0 <= k < n ==> StepOk(rules, steps, k, status)
  }

  /** A start that was declined, and named the run it was to restart. */
  predicate RestartDeclined(step: Step) {
    && Declined(step)
    && step.evidence.e.action == Str("agent_run.start") && Identity(step.evidence.e.restartOf)
  }

  /** The run the first of these steps leaves to be named, and whether only a
      restart may name it: a run that failed, or the one a declined restart named. */
  function FirstDebt(steps: seq<Step>, back: seq<nat>): Option<(string, bool)>
    requires forall m :: 0 <= m < |back| ==> back[m] < |steps|
  {
    if back == [] then None
    else
      var step := steps[back[0]];
      if FailedRun(step) then Some((step.evidence.e.resultId.s, step.state.Text() == "retained"))
      else if RestartDeclined(step) then Some((step.evidence.e.restartOf.s, false))
      else FirstDebt(steps, back[1..])
  }

  lemma {:induction false} FirstDebtSnoc(steps: seq<Step>, back: seq<nat>, i: nat)
    requires i < |steps| && forall m :: 0 <= m < |back| ==> back[m] < |steps|
    ensures FirstDebt(steps, back + [i]) ==
              if FirstDebt(steps, back).Some? then FirstDebt(steps, back) else FirstDebt(steps, [i])
  {
    if back == [] {
      assert back + [i] == [i];
    } else {
      assert (back + [i])[1..] == back[1..] + [i];
      FirstDebtSnoc(steps, back[1..], i);
    }
  }

  /** `back` leads from a step that was confirmed or replaces nothing through
      unconfirmed replacements. */
  ghost predicate Descent(steps: seq<Step>, back: seq<nat>) {
    && Chain(steps, back)
    && steps[back[0]].Step? && (Confirmed(steps[back[0]]) || steps[back[0]].predecessor.Absent?)
    && (forall m :: 0 < m < |back| ==> !Confirmed(steps[back[m]]))
  }

  lemma StepShape(rules: Rules, steps: seq<Step>, i: nat, status: Field)
    requires i < |steps| && StepOk(rules, steps, i, status)
    ensures steps[i].Step?
  {
  }

  lemma ReplacedStep(rules: Rules, steps: seq<Step>, n: nat, status: Field, i: nat, j: nat)
    requires PassOk(rules, steps, n, status) && i < n && j < n && Replaces(steps[i], Id(steps[j]))
    ensures j < i && Lookup(steps, i, Id(steps[j])) == Some(j) && ReplaceOk(steps, i)
    ensures OwnDuty(steps, i) == DutyOf(steps, j) && (FailedRun(steps[j]) || Declined(steps[j]))
  {
    hide LocalOk, DepsOk;
    assert StepOk(rules, steps, i, status) && StepOk(rules, steps, j, status);
    StepShape(rules, steps, i, status);
    var k := Lookup(steps, i, Id(steps[j])).value;
    assert StepOk(rules, steps, k, status);
  }

  lemma DeclinedIsUnconfirmed(step: Step)
    ensures Declined(step) ==> !Confirmed(step) && !FailedRun(step)
    ensures FailedRun(step) ==> Confirmed(step)
  {
    assert |"confirmed"| == 9 && |"rejected"| == 8 && |"expired"| == 7;
  }

  lemma {:induction false} DutyIsFirstDebt(rules: Rules, steps: seq<Step>, n: nat, status: Field, back: seq<nat>)
    requires PassOk(rules, steps, n, status) && Descent(steps, back)
    requires forall m :: 0 <= m < |back| ==> back[m] < n
    requires FailedRun(steps[back[|back| - 1]]) || Declined(steps[back[|back| - 1]])
    ensures var debt := FirstDebt(steps, back);
      DutyOf(steps, back[|back| - 1]) == if debt.Some? then Must(debt.value.0, debt.value.1) else Free
  {
    hide StepOk;
    var x := back[|back| - 1];
    if |back| == 1 {
      assert back[1..] == [];
      if Declined(steps[x]) {
        DeclinedIsUnconfirmed(steps[x]);
        assert OwnDuty(steps, x) == Free;
      }
    } else {
      var front, y := back[..|back| - 1], back[|back| - 2];
      ChainParts(steps, back);
      assert Replaces(steps[x], Id(steps[y]));
      ReplacedStep(rules, steps, n, status, x, y);
      DutyIsFirstDebt(rules, steps, n, status, front);
      assert back == front + [x];
      FirstDebtSnoc(steps, front, x);
      DeclinedIsUnconfirmed(steps[x]);
      assert [x][1..] == [];
    }
  }

  /** The evidence of a step names this run. */
  predicate NamesRun(step: Step, run: string, restartOnly: bool) {
    && step.Step? && step.evidence.Has?
    && (|| (step.evidence.e.action == Str("agent_run.start") && step.evidence.e.restartOf == Str(run))
        || (step.evidence.e.action == Str("agent_run.retry") && step.evidence.e.retryOf == Str(run) && !restartOnly))
  }

  /** A confirmed agent run that ended without a submitted result, or a step whose
      proposal was rejected or expired. */
  predicate Replaceable(step: Step)
    requires step.Step? && step.evidence.Has?
  {
    var e, state := step.evidence.e, step.state.Text();
    || (e.status == Str("confirmed") && e.action.Text() in {"agent_run.start", "agent_run.retry"}
        && state in {"failed", "cancelled", "interrupted", "retained"} && Identity(e.resultId))
    || (e.status == step.state && state in {"rejected", "expired"})
  }

  lemma ReplaceableIsFailedOrDeclined(step: Step)
    requires step.Step? && step.evidence.Has?
    ensures Replaceable(step) <==> FailedRun(step) || Declined(step)
  {
  }

  /** When a step may replace the step before it in its chain: that step is an
      action with evidence, unsatisfied and not replaced yet; it is a failed run or
      was declined; and if anything on the way down to it left a run to be named,
      the new step names the first such run. Otherwise it may be anything. */
  lemma ReplacementRule(rules: Rules, steps: seq<Step>, status: Field, i: nat, back: seq<nat>)
    requires i < |steps| && PassOk(rules, steps, i, status) && Descent(steps, back)
    requires forall m :: 0 <= m < |back| ==> back[m] < i
    requires steps[i].Step? && steps[i].predecessor == Str(Id(steps[back[|back| - 1]]))
    ensures var prior, debt := steps[back[|back| - 1]], FirstDebt(steps, back);
      ReplaceOk(steps, i) <==>
        && prior.Step? && prior.kind == Str("action") && prior.evidence.Has? && prior.satisfied == Bool(false)
        && (forall k :: 0 <= k < i ==> !Replaces(steps[k], Id(prior)))
        && Replaceable(prior)
        && (debt.Some? ==> NamesRun(steps[i], debt.value.0, debt.value.1))
  {
    hide StepOk, FailedRun, Declined, Replaceable, FirstDebt;
    var j := back[|back| - 1];
    if steps[j].Step? && steps[j].evidence.Has? {
      ReplaceableIsFailedOrDeclined(steps[j]);
    }
    LookupFinds(rules, steps, i, status, j);
    if FailedRun(steps[j]) || Declined(steps[j]) {
      DutyIsFirstDebt(rules, steps, i, status, back);
    } else {
      assert DutyOf(steps, j).Forbidden?;
    }
  }

  lemma LookupFinds(rules: Rules, steps: seq<Step>, n: nat, status: Field, j: nat)
    requires PassOk(rules, steps, n, status) && j < n
    ensures Lookup(steps, n, Id(steps[j])) == Some(j)
  {
    var k := Lookup(steps, n, Id(steps[j])).value;
    assert StepOk(rules, steps, j, status) && StepOk(rules, steps, k, status);
  }

  /** The rule over whole chains of an accepted plan. */
  lemma ChainsNameFirstDebt(rules: Rules, steps: seq<Step>, status: Field, back: seq<nat>, i: nat)
    requires StepsOk(rules, steps, status) && Descent(steps, back) && i < |steps| && Chain(steps, back + [i])
    ensures var debt := FirstDebt(steps, back); debt.Some? ==> NamesRun(steps[i], debt.value.0, debt.value.1)
  {
    hide StepOk, Names, FirstDebt;
    var j := back[|back| - 1];
    assert (back + [i])[|back|] == i && (back + [i])[|back| - 1] == j;
    assert Replaces((steps)[(back + [i])[|back| - 1 + 1]], Id(steps[(back + [i])[|back| - 1]]));
    assert PassOk(rules, steps, |steps|, status);
    ReplacedStep(rules, steps, |steps|, status, i, j);
    DutyIsFirstDebt(rules, steps, |steps|, status, back);
    NamesMeansRun(steps, i, j);
  }

  lemma NamesMeansRun(steps: seq<Step>, i: nat, j: nat)
    requires j < i < |steps| && steps[i].Step? && steps[i].predecessor.Str? && ReplaceOk(steps, i)
    requires Lookup(steps, i, steps[i].predecessor.s) == Some(j)
    ensures var d := DutyOf(steps, j); d.Must? ==> NamesRun(steps[i], d.run, d.restartOnly)
  {
  }

  /** A declined restart names run R and replaces nothing: every later step of its
      chain, up to and including the next confirmed one, names R by restart or retry. */
  lemma DeclinedRestartsAreNamed(rules: Rules, steps: seq<Step>, status: Field, chain: seq<nat>)
    requires StepsOk(rules, steps, status) && Chain(steps, chain) && |chain| > 1
    requires var first := steps[chain[0]];
      && first.Step? && first.predecessor.Absent? && first.evidence.Has?
      && first.state.Text() in {"rejected", "expired"} && first.evidence.e.status == first.state
      && first.evidence.e.action == Str("agent_run.start") && Identity(first.evidence.e.restartOf)
    requires forall m :: 0 < m < |chain| - 1 ==> !Confirmed(steps[chain[m]])
    ensures var run, last := steps[chain[0]].evidence.e.restartOf, steps[chain[|chain| - 1]];
      && last.Step? && last.evidence.Has?
      && (|| (last.evidence.e.action == Str("agent_run.start") && last.evidence.e.restartOf == run)
          || (last.evidence.e.action == Str("agent_run.retry") && last.evidence.e.retryOf == run))
  {
    hide StepsOk;
    var back, i := chain[..|chain| - 1], chain[|chain| - 1];
    ChainParts(steps, chain);
    assert chain == back + [i];
    ChainsNameFirstDebt(rules, steps, status, back, i);
  }

  // ----- what else an accepted plan says -----

  /** Ready means exactly that every dependency is ready and satisfied. */
  lemma ReadyMeansDepsDone(rules: Rules, steps: seq<Step>, status: Field, i: nat)
    requires StepsOk(rules, steps, status) && i < |steps|
    ensures steps[i].Step? && steps[i].ready.Bool?
    ensures steps[i].ready == Bool(true) <==>
            forall j :: 0 <= j < |steps| && DependsOn(steps, i, j) ==>
              steps[j].Step? && steps[j].ready == Bool(true) && steps[j].satisfied == Bool(true)
  {
    hide LocalOk;
    assert StepOk(rules, steps, i, status);
    StepOkIsLocal(rules, steps, i, status);
    if steps[i].ready == Bool(true) {
      forall j | 0 <= j < |steps| && DependsOn(steps, i, j) ensures Done(steps[j]) {
        DependencyIsEarlier(rules, steps, status, i, j);
      }
    } else {
      var d :| d in steps[i].dependsOn.items && !Done(steps[Lookup(steps, i, d.Text()).value]);
      var j := Lookup(steps, i, d.Text()).value;
      StepOkIsLocal(rules, steps, j, status);
      LocalShape(rules, steps[i], status);
      LocalShape(rules, steps[j], status);
      assert DependsOn(steps, i, j);
    }
  }

  lemma LocalShape(rules: Rules, step: Step, status: Field)
    requires LocalOk(rules, step, status)
    ensures step.Step? && step.id.Str? && step.ready.Bool? && step.dependsOn.List?
    ensures forall d :: d in step.dependsOn.items ==> d.Str?
  {
  }

  /** No two actions share a proposal, and at most one analysis is in progress. */
  lemma ProposalsAndProgressAreSingle(rules: Rules, steps: seq<Step>, status: Field, i: nat, j: nat)
    requires StepsOk(rules, steps, status) && i < j < |steps|
    ensures steps[i].Step? && steps[j].Step?
    ensures !steps[j].proposalId.Absent? ==> steps[i].proposalId != steps[j].proposalId
    ensures !(&& steps[i].kind == Str("analysis") && steps[i].report == Str("in_progress")
              && steps[j].kind == Str("analysis") && steps[j].report == Str("in_progress"))
  {
    assert StepOk(rules, steps, i, status) && StepOk(rules, steps, j, status);
    assert !Proposes(steps[i], steps[j].proposalId) || steps[j].proposalId.Absent?;
    assert !(InProgress(steps[i]) && InProgress(steps[j]));
  }

  /** An action of an accepted plan counts as satisfied only on confirmed evidence,
      and then exactly in the states that end its kind of action. */
  lemma SatisfiedMeansFinished(rules: Rules, steps: seq<Step>, status: Field, i: nat)
    requires StepsOk(rules, steps, status) && i < |steps|
    ensures steps[i].Step? && (steps[i].kind == Str("analysis") || steps[i].kind == Str("action"))
    ensures steps[i].kind == Str("analysis") ==>
              (steps[i].satisfied == Bool(true) <==> steps[i].report == Str("reported_done"))
    ensures steps[i].kind == Str("action") && !(steps[i].evidence.Has? && Confirmed(steps[i])) ==>
              steps[i].satisfied == Bool(false)
    ensures steps[i].kind == Str("action") && steps[i].evidence.Has? && Confirmed(steps[i]) ==>
              var action, state := steps[i].evidence.e.action.Text(), steps[i].state.Text();
              (steps[i].satisfied == Bool(true) <==>
                || state in {"recorded", "submitted", "succeeded"}
                || (state == "completed" && action in {"agent_delegate.spawn", "agent_delegate.followup"})
                || (state == "cancelled" && action in {"agent_run.cancel", "agent_run.cancel_many"}))
    ensures steps[i].kind == Str("action") && steps[i].evidence.Has? && !Confirmed(steps[i]) ==>
              steps[i].state == steps[i].evidence.e.status && steps[i].evidence.e.resultId.Absent?
  {
    StepOkIsLocal(rules, steps, i, status);
    assert |"analysis"| == 8 && |"action"| == 6;
  }

  /** What an accepted step says about itself: dependencies are listed once; an
      analysis shows its report, or that it waits once the generation no longer
      streams; a run is retried or restarted only by the action for it, which then
      names one other run. */
  lemma AcceptedStepsAreClear(rules: Rules, steps: seq<Step>, status: Field, i: nat)
    requires StepsOk(rules, steps, status) && i < |steps|
    ensures steps[i].Step? && steps[i].dependsOn.List?
    ensures forall a, b :: 0 <= a < b < |steps[i].dependsOn.items| ==>
              steps[i].dependsOn.items[a] != steps[i].dependsOn.items[b]
    ensures steps[i].kind == Str("analysis") ==>
              && steps[i].proposalId.Absent? && steps[i].evidence.NoEvidence? && steps[i].supersededBy.Absent?
              && steps[i].state == if steps[i].report == Str("in_progress") && status != Str("streaming")
                                   then Str("awaiting_continuation") else steps[i].report
    ensures steps[i].kind == Str("action") && steps[i].evidence.Has? ==>
              var e := steps[i].evidence.e;
              && e.proposalId == steps[i].proposalId
              && (!e.retryOf.Absent? ==> e.action == Str("agent_run.retry") && e.retryOf != e.resultId)
              && (!e.restartOf.Absent? ==> e.action == Str("agent_run.start") && e.restartOf != e.resultId)
              && (e.retryOf.Absent? || e.restartOf.Absent?)
              && (!e.submission.Absent? ==> steps[i].state == Str("submitted"))
    ensures steps[i].kind == Str("action") && steps[i].evidence.NoEvidence? ==>
              steps[i].state == Str(if steps[i].proposalId.Absent? then "not_proposed" else "evidence_unavailable")
  {
    StepOkIsLocal(rules, steps, i, status);
    assert |"analysis"| == 8 && |"action"| == 6;
  }

  /** The version of an accepted plan may be any from 1 to 128, and its closing date
      any that parses or none; it has one to twelve steps. */
  lemma AcceptedHeadersVary(rules: Rules, plan: Plan, sessionId: string, version: int, closedAt: Field)
    requires PlanOk(rules, plan, sessionId)
    ensures 1 <= |plan.steps| <= 12
    ensures PlanOk(rules, plan.(version := Int(version)), sessionId) <==> 1 <= version <= 128
    ensures PlanOk(rules, plan.(closedAt := closedAt), sessionId) <==>
              closedAt.Absent? || (closedAt.Str? && rules.date(closedAt.s))
  {
    hide StepsOk;
  }
}
