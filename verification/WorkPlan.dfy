/** The work plan parser: one pass over the steps that fills four maps, proved
    to accept exactly the plans that `PlanOk` describes without them. */
module WorkPlan {
  import opened Options

  // ----- the untyped response -----

  /** One JSON field: missing, a string, or another value with its text form. */
  datatype Field = Absent | Str(s: string) | Other(text: string) {
    /** String(value). */
    function Text(): string {
      match this
      case Absent => "undefined"
      case Str(s) => s
      case Other(text) => text
    }
  }

  datatype Flag = Bool(b: bool) | NotBool
  datatype Number = Int(n: int) | NotInt
  datatype Fields = List(items: seq<Field>) | NotList

  datatype Evidence = Evidence(
    proposalId: Field, generationId: Field, action: Field, status: Field, resultId: Field,
    retryOf: Field, restartOf: Field, route: Field, submission: Field)

  datatype EvidenceField = NoEvidence | Has(e: Evidence) | BadEvidence

  datatype Step =
    | Step(id: Field, title: Field, kind: Field, dependsOn: Fields, ready: Flag, satisfied: Flag,
           state: Field, report: Field, proposalId: Field, predecessor: Field, supersededBy: Field,
           evidence: EvidenceField)
    | NotAnObject

  datatype Plan = Plan(
    sessionId: Field, generationId: Field, version: Number, generationStatus: Field, title: Field,
    steps: seq<Step>, createdAt: Field, asOf: Field, closedAt: Field)

  /** `Malformed` is anything but null or an object whose steps are an array. */
  datatype Response = Null | Value(plan: Plan) | Malformed
  datatype Parsed = NoPlan | Accepted(plan: Plan) | Invalid

  /** String rules taken as given: the trimmed length bound, the known actions,
      parsable dates and workspace routes. */
  datatype Rules = Rules(
    bounded: (string, nat) -> bool, action: string -> bool, date: string -> bool, route: string -> bool)

  // ----- checks on one value -----

  predicate Hex(c: char) {
    '0' <= c <= '9' || 'a' <= c <= 'f'
  }

  /** The 8-4-4-4-12 lower-case form of an identity. */
  predicate IsIdentity(s: string) {
    && |s| == 36
    && (forall i :: 0 <= i < 36 ==> if i in {8, 13, 18, 23} then s[i] == '-' else Hex(s[i]))
  }

  predicate Identity(f: Field) {
    f.Str? && IsIdentity(f.s)
  }

  predicate StepName(s: string) {
    && 1 <= |s| <= 40
    && 'a' <= s[0] <= 'z'
    && (forall i :: 1 <= i < |s| ==>
          'a' <= s[i] <= 'z' || '0' <= s[i] <= '9' || s[i] == '_' || s[i] == '-')
  }

  const STATES: set<string> := {
    "pending", "child_pending_approval", "completed", "not_proposed", "in_progress", "reported_done",
    "awaiting_continuation", "recorded", "rejected", "expired", "unavailable", "evidence_unavailable",
    "queued", "streaming", "running", "output_pending", "submitted", "retained", "failed", "cancelled",
    "interrupted", "succeeded", "download_unverified" }

  const AGENT_STATES: set<string> := {
    "queued", "running", "output_pending", "submitted", "retained", "failed", "cancelled", "interrupted",
    "evidence_unavailable" }

  const DELEGATION_STATES: set<string> := {
    "queued", "streaming", "child_pending_approval", "completed", "failed", "cancelled",
    "evidence_unavailable" }

  predicate Agent(action: string) {
    "agent_run." <= action
  }

  predicate Delegation(action: string) {
    action == "agent_delegate.spawn" || action == "agent_delegate.followup"
  }

  /** The states a confirmed action may be in. */
  function StatesOf(action: string): set<string> {
    if Agent(action) then AGENT_STATES
    else if action == "automation.retry" then {"succeeded", "failed", "evidence_unavailable"}
    else if Delegation(action) then DELEGATION_STATES
    else if action == "finance.export_csv" then {"download_unverified"}
    else {"recorded"}
  }

  predicate FinishedState(action: string, state: string) {
    || state == "recorded"
    || (Delegation(action) && state == "completed")
    || state == "submitted"
    || state == "succeeded"
    || (state == "cancelled" && (action == "agent_run.cancel" || action == "agent_run.cancel_many"))
  }

  predicate EvidenceOk(rules: Rules, step: Step, e: Evidence)
    requires step.Step?
  {
    && e.proposalId == step.proposalId
    && Identity(e.generationId)
    && e.action.Str? && rules.bounded(e.action.s, 80) && rules.action(e.action.s)
    && e.status.Text() in {"pending", "confirmed", "rejected", "expired", "unavailable"}
    && (e.resultId.Absent? || Identity(e.resultId))
    && (!e.retryOf.Absent? ==>
          e.action == Str("agent_run.retry") && Identity(e.retryOf) && e.retryOf != e.resultId)
    && (!e.restartOf.Absent? ==>
          e.action == Str("agent_run.start") && e.retryOf.Absent? && Identity(e.restartOf)
          && e.restartOf != e.resultId)
    && (e.route.Absent? || (e.route.Str? && rules.route(e.route.s)))
    && (e.submission.Absent? ||
          (e.submission.Text() in {"pending_review", "accepted", "changes_requested", "withdrawn"}
           && Agent(e.action.s) && step.state == Str("submitted")))
    && (if e.status != Str("confirmed")
        then step.state == e.status && step.satisfied == Bool(false) && e.resultId.Absent?
        else && Identity(e.resultId)
             && step.state.Text() in StatesOf(e.action.s)
             && step.satisfied == Bool(FinishedState(e.action.s, step.state.Text())))
  }

  predicate AnalysisOk(step: Step, generationStatus: Field)
    requires step.Step?
  {
    && step.report.Text() in {"pending", "in_progress", "reported_done"}
    && step.proposalId.Absent? && step.evidence.NoEvidence? && step.predecessor.Absent?
    && step.supersededBy.Absent?
    && step.satisfied == Bool(step.report == Str("reported_done"))
    && step.state == (if step.report == Str("in_progress") && generationStatus != Str("streaming")
                      then Str("awaiting_continuation") else step.report)
  }

  predicate ActionOk(rules: Rules, step: Step)
    requires step.Step?
  {
    && step.report.Absent?
    && (step.supersededBy.Absent? || (step.supersededBy.Str? && StepName(step.supersededBy.s)))
    && (if step.proposalId.Absent?
        then step.state == Str("not_proposed") && step.satisfied == Bool(false) && step.evidence.NoEvidence?
        else && Identity(step.proposalId)
             && match step.evidence
                case NoEvidence => step.state == Str("evidence_unavailable") && step.satisfied == Bool(false)
                case Has(e) => EvidenceOk(rules, step, e)
                case BadEvidence => false)
  }

  predicate NoDuplicates(fields: seq<Field>) {
    forall i, j :: 0 <= i < j < |fields| ==> fields[i] != fields[j]
  }

  /** Everything about a step that needs no other step. */
  predicate LocalOk(rules: Rules, step: Step, generationStatus: Field) {
    && step.Step?
    && step.id.Str? && StepName(step.id.s)
    && step.title.Str? && rules.bounded(step.title.s, 300)
    && step.dependsOn.List?
    && (forall d :: d in step.dependsOn.items ==> d.Str?)
    && NoDuplicates(step.dependsOn.items)
    && step.ready.Bool? && step.satisfied.Bool?
    && step.state.Str? && step.state.s in STATES
    && (if step.kind == Str("analysis") then AnalysisOk(step, generationStatus)
        else step.kind == Str("action") && ActionOk(rules, step))
    && (step.predecessor.Absent? || step.predecessor.Str?)
  }

  predicate HeaderOk(rules: Rules, plan: Plan, sessionId: string) {
    && plan.sessionId == Str(sessionId) && IsIdentity(sessionId)
    && Identity(plan.generationId)
    && plan.version.Int? && 1 <= plan.version.n <= 128
    && plan.generationStatus.Text() in {"streaming", "completed", "failed", "cancelled"}
    && plan.title.Str? && rules.bounded(plan.title.s, 200)
    && 1 <= |plan.steps| <= 12
    && plan.createdAt.Str? && rules.date(plan.createdAt.s)
    && plan.asOf.Str? && rules.date(plan.asOf.s)
    && (plan.closedAt.Absent? || (plan.closedAt.Str? && rules.date(plan.closedAt.s)))
  }

  // ----- what a step owes to the steps before it -----

  function Id(step: Step): string {
    if step.Step? then step.id.Text() else ""
  }

  predicate Active(step: Step) {
    step.Step? && step.supersededBy.Absent?
  }

  predicate Done(step: Step) {
    step.Step? && step.ready == Bool(true) && step.satisfied == Bool(true)
  }

  predicate InProgress(step: Step) {
    step.Step? && step.kind == Str("analysis") && step.report == Str("in_progress")
  }

  predicate Replaces(step: Step, id: string) {
    step.Step? && step.predecessor == Str(id)
  }

  predicate Proposes(step: Step, proposal: Field) {
    step.Step? && step.kind == Str("action") && step.proposalId == proposal
  }

  /** The last of the first `n` steps that is called `id`. */
  function Lookup(steps: seq<Step>, n: nat, id: string): (r: Option<nat>)
    requires n <= |steps|
    ensures r.Some? ==> r.value < n && Id(steps[r.value]) == id
    ensures r.None? ==> forall k :: 0 <= k < n ==> Id(steps[k]) != id
  {
    if n == 0 then None
    else if Id(steps[n - 1]) == id then Some(n - 1)
    else Lookup(steps, n - 1, id)
  }

  /** Which run the replacement of a step has to name: none, one run (perhaps
      only by a restart), or the step may not be replaced at all. */
  datatype Duty = Free | Must(run: string, restartOnly: bool) | Forbidden

  /** An agent run that ended without a submitted result. */
  predicate FailedRun(step: Step) {
    && step.Step? && step.evidence.Has?
    && step.evidence.e.status == Str("confirmed")
    && step.evidence.e.action.Text() in {"agent_run.start", "agent_run.retry"}
    && step.state.Text() in {"failed", "cancelled", "interrupted", "retained"}
    && Identity(step.evidence.e.resultId)
  }

  predicate Declined(step: Step) {
    && step.Step? && step.evidence.Has?
    && step.state.Text() in {"rejected", "expired"}
    && step.evidence.e.status == step.state
  }

  /** What a step that replaces step `j` has to name. */
  function DutyOf(steps: seq<Step>, j: nat): Duty
    requires j < |steps|
    decreases j, 1
  {
    var previous := steps[j];
    if FailedRun(previous) then Must(previous.evidence.e.resultId.s, previous.state.Text() == "retained")
    else if Declined(previous) then
      var inherited := OwnDuty(steps, j);
      if inherited.Must? then inherited
      else if previous.evidence.e.action == Str("agent_run.start") && Identity(previous.evidence.e.restartOf)
      then Must(previous.evidence.e.restartOf.s, false)
      else Free
    else Forbidden
  }

  /** What step `i` itself had to name because of the step it replaces. */
  function OwnDuty(steps: seq<Step>, i: nat): Duty
    requires i < |steps|
    decreases i, 0
  {
    if !steps[i].Step? || !steps[i].predecessor.Str? then Free else
    var j := Lookup(steps, i, steps[i].predecessor.s);
    if j.None? then Free else DutyOf(steps, j.value)
  }

  predicate Names(step: Step, run: string, restartOnly: bool) {
    && step.Step? && step.evidence.Has?
    && (|| (step.evidence.e.action == Str("agent_run.retry") && !restartOnly
            && step.evidence.e.retryOf == Str(run))
        || (step.evidence.e.action == Str("agent_run.start") && step.evidence.e.restartOf == Str(run)))
  }

  /** Step `i` may replace the step it says it replaces. */
  predicate ReplaceOk(steps: seq<Step>, i: nat)
    requires i < |steps| && steps[i].Step? && steps[i].predecessor.Str?
  {
    var j := Lookup(steps, i, steps[i].predecessor.s);
    && j.Some?
    && steps[j.value].Step?
    && steps[j.value].kind == Str("action")
    && (forall k :: 0 <= k < i ==> !Replaces(steps[k], steps[i].predecessor.s))
    && steps[j.value].evidence.Has?
    && steps[j.value].satisfied == Bool(false)
    && (match DutyOf(steps, j.value)
        case Free => true
        case Must(run, restartOnly) => Names(steps[i], run, restartOnly)
        case Forbidden => false)
  }

  predicate AllDepsDone(steps: seq<Step>, i: nat)
    requires i < |steps| && steps[i].Step? && steps[i].dependsOn.List?
  {
    forall d :: d in steps[i].dependsOn.items ==>
      var k := Lookup(steps, i, d.Text()); k.Some? && Done(steps[k.value])
  }

  predicate DepsOk(steps: seq<Step>, i: nat)
    requires i < |steps| && steps[i].Step? && steps[i].dependsOn.List?
  {
    && (forall d :: d in steps[i].dependsOn.items ==> Lookup(steps, i, d.Text()).Some?)
    && (steps[i].ready == Bool(AllDepsDone(steps, i)))
    && (Active(steps[i]) ==>
          forall d :: d in steps[i].dependsOn.items ==>
            var k := Lookup(steps, i, d.Text()); k.Some? && Active(steps[k.value]))
  }

  predicate StepOk(rules: Rules, steps: seq<Step>, i: nat, generationStatus: Field)
    requires i < |steps|
  {
    && LocalOk(rules, steps[i], generationStatus)
    && Lookup(steps, i, Id(steps[i])).None?
    && DepsOk(steps, i)
    && (!steps[i].proposalId.Absent? ==> forall k :: 0 <= k < i ==> !Proposes(steps[k], steps[i].proposalId))
    && (steps[i].predecessor.Str? ==> ReplaceOk(steps, i))
  }

  /** superseded_by names exactly the step that replaces this one. */
  predicate SupersededOk(steps: seq<Step>, i: nat)
    requires i < |steps|
  {
    && steps[i].Step?
    && (steps[i].supersededBy.Absent? ==> forall k :: 0 <= k < |steps| ==> !Replaces(steps[k], Id(steps[i])))
    && (!steps[i].supersededBy.Absent? ==>
          exists k :: 0 <= k < |steps| && Replaces(steps[k], Id(steps[i]))
                      && steps[i].supersededBy == Str(Id(steps[k])))
  }

  predicate StepsOk(rules: Rules, steps: seq<Step>, generationStatus: Field) {
    && (forall i :: 0 <= i < |steps| ==> StepOk(rules, steps, i, generationStatus))
    && (forall i :: 0 <= i < |steps| ==> SupersededOk(steps, i))
    && (forall i, j :: 0 <= i < j < |steps| ==> !(InProgress(steps[i]) && InProgress(steps[j])))
  }

  predicate PlanOk(rules: Rules, plan: Plan, sessionId: string) {
    HeaderOk(rules, plan, sessionId) && StepsOk(rules, plan.steps, plan.generationStatus)
  }

  // ----- the parser -----

  /** What the maps of the pass hold after the first `n` steps. */
  ghost predicate KnownOk(steps: seq<Step>, n: nat, satisfied: map<string, bool>, known: map<string, Step>)
    requires n <= |steps|
  {
    && (forall id: string :: id in satisfied <==> Lookup(steps, n, id).Some?)
    && (forall id: string :: id in known <==> Lookup(steps, n, id).Some?)
    && (forall id: string :: id in satisfied ==> satisfied[id] == Done(steps[Lookup(steps, n, id).value]))
    && (forall id: string :: id in known ==> known[id] == steps[Lookup(steps, n, id).value])
  }

  ghost predicate ReplacedOk(steps: seq<Step>, n: nat, replacements: map<string, string>)
    requires n <= |steps|
  {
    && (forall k, r | 0 <= k < n && Replaces(steps[k], r) ::
          r in replacements && replacements[r] == Id(steps[k]))
    && (forall r :: r in replacements ==> exists k :: 0 <= k < n && Replaces(steps[k], r))
  }

  ghost predicate DutiesOk(steps: seq<Step>, n: nat, duties: map<string, Duty>)
    requires n <= |steps|
  {
    && (forall id: string :: id in duties <==>
          Lookup(steps, n, id).Some? && OwnDuty(steps, Lookup(steps, n, id).value).Must?)
    && (forall id: string :: id in duties ==> duties[id] == OwnDuty(steps, Lookup(steps, n, id).value))
  }

  ghost predicate ProposalsOk(steps: seq<Step>, n: nat, proposals: set<Field>)
    requires n <= |steps|
  {
    && (forall p :: p in proposals ==> !p.Absent? && exists k :: 0 <= k < n && Proposes(steps[k], p))
    && (forall k, p | 0 <= k < n && Proposes(steps[k], p) && !p.Absent? :: p in proposals)
  }

  /** The duty that the replacement of `previous` inherits, read from the map. */
  function MappedDuty(previous: Step, duties: map<string, Duty>): Duty {
    if FailedRun(previous) then Must(previous.evidence.e.resultId.s, previous.state.Text() == "retained")
    else if Declined(previous) then
      if Id(previous) in duties then duties[Id(previous)]
      else if previous.evidence.e.action == Str("agent_run.start") && Identity(previous.evidence.e.restartOf)
      then Must(previous.evidence.e.restartOf.s, false)
      else Free
    else Forbidden
  }

  ghost predicate MappedDepsOk(step: Step, satisfied: map<string, bool>, known: map<string, Step>)
    requires step.Step? && step.dependsOn.List?
  {
    && (forall d :: d in step.dependsOn.items ==> d.Text() in satisfied)
    && step.ready == Bool(forall d :: d in step.dependsOn.items ==>
                            d.Text() in satisfied && satisfied[d.Text()])
    && (Active(step) ==> forall d :: d in step.dependsOn.items ==>
                           d.Text() in known && Active(known[d.Text()]))
  }

  /** The replaced step is known, may be replaced, and its run is named. */
  predicate ReplacementOk(step: Step, known: map<string, Step>, replacements: map<string, string>,
                          duties: map<string, Duty>)
    requires step.Step? && step.predecessor.Str?
  {
    var replaced := step.predecessor.s;
    && replaced in known
    && known[replaced].Step?
    && known[replaced].kind == Str("action")
    && replaced !in replacements
    && known[replaced].evidence.Has?
    && known[replaced].satisfied == Bool(false)
    && var duty := MappedDuty(known[replaced], duties);
       (duty.Free? || (duty.Must? && Names(step, duty.run, duty.restartOnly)))
  }

  lemma MapsDecideDeps(steps: seq<Step>, n: nat, satisfied: map<string, bool>, known: map<string, Step>)
    requires n < |steps| && KnownOk(steps, n, satisfied, known)
    requires steps[n].Step? && steps[n].dependsOn.List?
    ensures DepsOk(steps, n) <==> MappedDepsOk(steps[n], satisfied, known)
  {
    assert AllDepsDone(steps, n) <==>
           forall d :: d in steps[n].dependsOn.items ==> d.Text() in satisfied && satisfied[d.Text()];
  }

  lemma MappedDutyIsDuty(steps: seq<Step>, n: nat, j: nat, duties: map<string, Duty>)
    requires j < n <= |steps| && DutiesOk(steps, n, duties) && Lookup(steps, n, Id(steps[j])) == Some(j)
    ensures MappedDuty(steps[j], duties) == DutyOf(steps, j)
  {
  }

  lemma MapsDecideReplacement(steps: seq<Step>, n: nat, satisfied: map<string, bool>, known: map<string, Step>,
                              replacements: map<string, string>, duties: map<string, Duty>)
    requires n < |steps| && KnownOk(steps, n, satisfied, known) && ReplacedOk(steps, n, replacements)
    requires DutiesOk(steps, n, duties)
    requires steps[n].Step? && steps[n].predecessor.Str?
    ensures ReplaceOk(steps, n) <==> ReplacementOk(steps[n], known, replacements, duties)
  {
    hide DutiesOk, DutyOf, MappedDuty, Names;
    var r := steps[n].predecessor.s;
    var j := Lookup(steps, n, r);
    assert r in known <==> j.Some?;
    if j.Some? {
      assert Id(steps[j.value]) == r && known[r] == steps[j.value];
      MappedDutyIsDuty(steps, n, j.value, duties);
      assert (forall k :: 0 <= k < n ==> !Replaces(steps[k], r)) <==> r !in replacements;
    }
  }

  lemma OwnDutyIsMapped(steps: seq<Step>, n: nat, satisfied: map<string, bool>, known: map<string, Step>,
                        duties: map<string, Duty>)
    requires n < |steps| && KnownOk(steps, n, satisfied, known) && DutiesOk(steps, n, duties)
    requires steps[n].Step? && steps[n].predecessor.Str?
    requires Lookup(steps, n, steps[n].predecessor.s).Some?
    ensures OwnDuty(steps, n) == MappedDuty(known[steps[n].predecessor.s], duties)
  {
    hide DutiesOk, DutyOf, MappedDuty;
    var j := Lookup(steps, n, steps[n].predecessor.s).value;
    assert Id(steps[j]) == steps[n].predecessor.s;
    MappedDutyIsDuty(steps, n, j, duties);
  }

  lemma KnownGrow(steps: seq<Step>, n: nat, satisfied: map<string, bool>, known: map<string, Step>)
    requires n < |steps| && KnownOk(steps, n, satisfied, known)
    ensures KnownOk(steps, n + 1, satisfied[Id(steps[n]) := Done(steps[n])], known[Id(steps[n]) := steps[n]])
  {
  }

  lemma ReplacedGrow(steps: seq<Step>, n: nat, replacements: map<string, string>)
    requires n < |steps| && ReplacedOk(steps, n, replacements)
    requires steps[n].Step? && (steps[n].predecessor.Str? ==> steps[n].predecessor.s !in replacements)
    ensures ReplacedOk(steps, n + 1,
                       if steps[n].predecessor.Str?
                       then replacements[steps[n].predecessor.s := Id(steps[n])] else replacements)
  {
    if steps[n].predecessor.Str? {
      assert Replaces(steps[n], steps[n].predecessor.s);
    }
  }

  lemma DutiesGrow(steps: seq<Step>, n: nat, duties: map<string, Duty>)
    requires n < |steps| && DutiesOk(steps, n, duties) && Lookup(steps, n, Id(steps[n])).None?
    ensures DutiesOk(steps, n + 1,
                     if OwnDuty(steps, n).Must? then duties[Id(steps[n]) := OwnDuty(steps, n)] else duties)
  {
  }

  lemma ProposalsGrow(steps: seq<Step>, n: nat, proposals: set<Field>)
    requires n < |steps| && ProposalsOk(steps, n, proposals)
    requires steps[n].Step? && (steps[n].kind == Str("action") || steps[n].proposalId.Absent?)
    ensures ProposalsOk(steps, n + 1,
                        if steps[n].proposalId.Absent? then proposals else proposals + {steps[n].proposalId})
  {
    if !steps[n].proposalId.Absent? {
      assert Proposes(steps[n], steps[n].proposalId);
    }
  }

  /** The two maps filled by the `n` earlier steps decide the dependency rules. */
  method CheckDependencies(step: Step, satisfied: map<string, bool>, known: map<string, Step>,
                           ghost steps: seq<Step>, ghost n: nat)
    returns (ok: bool)
    requires n < |steps| && step == steps[n] && KnownOk(steps, n, satisfied, known)
    requires step.Step? && step.dependsOn.List?
    ensures ok <==> DepsOk(steps, n)
  {
    hide DepsOk;
    MapsDecideDeps(steps, n, satisfied, known);
    assert satisfied.Keys == known.Keys;
    var ready, current := true, true;
    var deps := step.dependsOn.items;
    for n := 0 to |deps|
      invariant forall d :: d in deps[..n] ==> d.Text() in satisfied
      invariant ready <==> forall d :: d in deps[..n] ==> d.Text() in satisfied && satisfied[d.Text()]
      invariant current <==> forall d :: d in deps[..n] ==> d.Text() in known && Active(known[d.Text()])
    {
      var d := deps[n].Text();
      assert deps[..n + 1] == deps[..n] + [deps[n]];
      if d !in satisfied {
        return false;
      }
      ready := ready && satisfied[d];
      current := current && Active(known[d]);
    }
    assert deps[..|deps|] == deps;
    ok := step.ready == Bool(ready) && (Active(step) ==> current);
  }

  /** All checks of one round of the pass. */
  method CheckStep(rules: Rules, step: Step, generationStatus: Field,
                   satisfied: map<string, bool>, known: map<string, Step>, replacements: map<string, string>,
                   duties: map<string, Duty>, proposals: set<Field>,
                   ghost steps: seq<Step>, ghost n: nat)
    returns (ok: bool)
    requires n < |steps| && step == steps[n]
    requires KnownOk(steps, n, satisfied, known) && ReplacedOk(steps, n, replacements)
    requires DutiesOk(steps, n, duties) && ProposalsOk(steps, n, proposals)
    ensures ok <==> StepOk(rules, steps, n, generationStatus)
  {
    if !LocalOk(rules, step, generationStatus) || Id(step) in satisfied {
      return false;
    }
    hide LocalOk, DepsOk;
    ok := CheckDependencies(step, satisfied, known, steps, n);
    if !ok || (!step.proposalId.Absent? && step.proposalId in proposals) {
      return false;
    }
    if step.predecessor.Str? {
      MapsDecideReplacement(steps, n, satisfied, known, replacements, duties);
      ok := ReplacementOk(step, known, replacements, duties);
    }
  }

  lemma MapDecidesSuperseded(steps: seq<Step>, i: nat, replacements: map<string, string>)
    requires i < |steps| && steps[i].Step? && ReplacedOk(steps, |steps|, replacements)
    ensures SupersededOk(steps, i) <==>
            steps[i].supersededBy == if Id(steps[i]) in replacements then Str(replacements[Id(steps[i])]) else Absent
  {
    if Id(steps[i]) in replacements {
      var k :| 0 <= k < |steps| && Replaces(steps[k], Id(steps[i]));
    }
  }

  /** The check after the pass: superseded_by is what the map of replacements says. */
  method CheckSuperseded(rules: Rules, steps: seq<Step>, generationStatus: Field,
                         replacements: map<string, string>)
    returns (ok: bool)
    requires forall i :: 0 <= i < |steps| ==> StepOk(rules, steps, i, generationStatus)
    requires ReplacedOk(steps, |steps|, replacements)
    ensures ok <==> forall i :: 0 <= i < |steps| ==> SupersededOk(steps, i)
  {
    hide StepOk;
    for i := 0 to |steps|
      invariant forall k :: 0 <= k < i ==> SupersededOk(steps, k)
    {
      var step := steps[i];
      assert step.Step? by {
        StepOkIsLocal(rules, steps, i, generationStatus);
      }
      var expected := if Id(step) in replacements then Str(replacements[Id(step)]) else Absent;
      MapDecidesSuperseded(steps, i, replacements);
      if step.supersededBy != expected {
        return false;
      }
    }
    ok := true;
  }

  lemma StepOkIsLocal(rules: Rules, steps: seq<Step>, i: nat, generationStatus: Field)
    requires i < |steps| && StepOk(rules, steps, i, generationStatus)
    ensures LocalOk(rules, steps[i], generationStatus)
    ensures steps[i].Step? && steps[i].dependsOn.List?
    ensures steps[i].kind == Str("action") || steps[i].proposalId.Absent?
    ensures steps[i].predecessor.Absent? || steps[i].predecessor.Str?
    ensures Lookup(steps, i, Id(steps[i])).None?
  {
  }

  lemma PassGrows(rules: Rules, steps: seq<Step>, n: nat, generationStatus: Field,
                  satisfied: map<string, bool>, known: map<string, Step>, replacements: map<string, string>,
                  duties: map<string, Duty>, proposals: set<Field>)
    requires n < |steps| && StepOk(rules, steps, n, generationStatus)
    requires KnownOk(steps, n, satisfied, known) && ReplacedOk(steps, n, replacements)
    requires DutiesOk(steps, n, duties) && ProposalsOk(steps, n, proposals)
    requires steps[n].Step?
    ensures KnownOk(steps, n + 1, satisfied[Id(steps[n]) := Done(steps[n])], known[Id(steps[n]) := steps[n]])
    ensures ReplacedOk(steps, n + 1,
                       if steps[n].predecessor.Str?
                       then replacements[steps[n].predecessor.s := Id(steps[n])] else replacements)
    ensures DutiesOk(steps, n + 1,
                     if OwnDuty(steps, n).Must? then duties[Id(steps[n]) := OwnDuty(steps, n)] else duties)
    ensures ProposalsOk(steps, n + 1,
                        if steps[n].proposalId.Absent? then proposals else proposals + {steps[n].proposalId})
    ensures if steps[n].predecessor.Str?
            then && steps[n].predecessor.s in known
                 && OwnDuty(steps, n) == MappedDuty(known[steps[n].predecessor.s], duties)
            else OwnDuty(steps, n).Free?
  {
    StepOkIsLocal(rules, steps, n, generationStatus);
    if steps[n].predecessor.Str? {
      MapsDecideReplacement(steps, n, satisfied, known, replacements, duties);
      OwnDutyIsMapped(steps, n, satisfied, known, duties);
    }
    hide StepOk, ReplaceOk, DutyOf, MappedDuty;
    KnownGrow(steps, n, satisfied, known);
    ReplacedGrow(steps, n, replacements);
    DutiesGrow(steps, n, duties);
    ProposalsGrow(steps, n, proposals);
  }

  /** The pass over the steps; `replacements` and `active` are what the checks
      after it read. */
  method CheckSteps(rules: Rules, steps: seq<Step>, generationStatus: Field)
    returns (ok: bool, replacements: map<string, string>, active: nat)
    ensures ok <==> forall i :: 0 <= i < |steps| ==> StepOk(rules, steps, i, generationStatus)
    ensures ok ==> ReplacedOk(steps, |steps|, replacements)
    ensures ok ==> (active <= 1 <==>
                    forall i, j :: 0 <= i < j < |steps| ==> !(InProgress(steps[i]) && InProgress(steps[j])))
  {
    hide StepOk, KnownOk, ReplacedOk, DutiesOk, ProposalsOk, MappedDuty, OwnDuty, LocalOk, Lookup, InProgress;
    var satisfied: map<string, bool> := map[];
    var known: map<string, Step> := map[];
    var duties: map<string, Duty> := map[];
    var proposals: set<Field> := {};
    replacements, active := map[], 0;
    PassStarts(steps);
    for n := 0 to |steps|
      invariant forall i :: 0 <= i < n ==> StepOk(rules, steps, i, generationStatus)
      invariant KnownOk(steps, n, satisfied, known) && ReplacedOk(steps, n, replacements)
      invariant DutiesOk(steps, n, duties) && ProposalsOk(steps, n, proposals)
      invariant active == 0 <==> forall i :: 0 <= i < n ==> !InProgress(steps[i])
      invariant active <= 1 <==> forall i, j :: 0 <= i < j < n ==> !(InProgress(steps[i]) && InProgress(steps[j]))
    {
      var step := steps[n];
      ok := CheckStep(rules, step, generationStatus, satisfied, known, replacements, duties, proposals, steps, n);
      if !ok {
        return;
      }
      StepOkIsLocal(rules, steps, n, generationStatus);
      PassGrows(rules, steps, n, generationStatus, satisfied, known, replacements, duties, proposals);
      if step.predecessor.Str? {
        var duty := MappedDuty(known[step.predecessor.s], duties);
        if duty.Must? {
          duties := duties[Id(step) := duty];
        }
        replacements := replacements[step.predecessor.s := Id(step)];
      }
      if !step.proposalId.Absent? {
        proposals := proposals + {step.proposalId};
      }
      satisfied := satisfied[Id(step) := Done(step)];
      known := known[Id(step) := step];
      active := active + if InProgress(step) then 1 else 0;
    }
    ok := true;
  }

  method ParseAiWorkPlan(rules: Rules, response: Response, sessionId: string) returns (r: Parsed)
    ensures response.Null? ==> r == NoPlan
    ensures response.Malformed? ==> r == Invalid
    ensures response.Value? ==>
              r == if PlanOk(rules, response.plan, sessionId) then Accepted(response.plan) else Invalid
  {
    hide HeaderOk, StepOk, SupersededOk, ReplacedOk, InProgress;
    if response.Null? {
      return NoPlan;
    }
    if response.Malformed? || !HeaderOk(rules, response.plan, sessionId) {
      return Invalid;
    }
    var plan := response.plan;
    var ok, replacements, active := CheckSteps(rules, plan.steps, plan.generationStatus);
    if !ok {
      return Invalid;
    }
    var superseded := CheckSuperseded(rules, plan.steps, plan.generationStatus, replacements);
    r := if superseded && active <= 1 then Accepted(plan) else Invalid;
  }

  lemma PassStarts(steps: seq<Step>)
    ensures KnownOk(steps, 0, map[], map[]) && ReplacedOk(steps, 0, map[])
    ensures DutiesOk(steps, 0, map[]) && ProposalsOk(steps, 0, {})
  {
  }
}
