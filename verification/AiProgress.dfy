/** Agent run progress: parsing one step, checking a stored list of steps, and
    folding a live stream of steps into such a list. */
module AiProgress {
  import opened Options

  // ----- the untyped response -----

  /** `Num` holds a safe integer; `Other` stands for every other JSON value. */
  datatype Value = Undefined | Num(n: int) | Str(s: string) | Other

  datatype Raw = NotAnObject | Object(fields: map<string, Value>) {
    function Get(key: string): Value
      requires Object?
    {
      if key in fields then fields[key] else Undefined
    }
  }

  /** Date rules taken as given: the accepted timestamp form and Date.parse. */
  datatype Rules = Rules(timestamp: string -> bool, millis: string -> int)

  // ----- one step -----

  datatype Kind = ModelTurn | ToolCall | SelfCheck | CitationValidation | Persistence

  datatype Status = Running | Succeeded | Failed | Cancelled

  datatype Progress = Progress(
    sequence: int, kind: Kind, status: Status, startedAt: string, durationMs: int, turnIndex: Option<int>,
    toolName: Option<string>, retryCount: Option<int>, retryReason: Option<string>, trimmedHistory: Option<int>,
    compactedResults: Option<int>, completedAt: Option<string>)

  const KEYS: set<string> := {
    "sequence", "kind", "status", "turn_index", "tool_name", "started_at", "completed_at", "duration_ms",
    "retry_count", "retry_reason", "trimmed_history_turns", "compacted_tool_results" }

  const TOOLS: set<string> := {
    "memory_search", "memory_write", "memory_propose", "workspace_guide", "workspace_plan", "workspace_search",
    "workspace_get", "workspace_outputs", "workspace_agent_runs", "workspace_agent_execution",
    "workspace_agent_project_files", "workspace_inbox_tasks", "workspace_inbox_source", "workspace_task_options",
    "workspace_task_assignments", "workspace_task_submissions", "workspace_read_artifact_file",
    "workspace_task_views", "workspace_today", "workspace_tasks", "workspace_projects", "workspace_focus",
    "workspace_focus_report", "workspace_project_notes", "workspace_project_outputs", "workspace_content_items",
    "workspace_roadmap_milestones", "workspace_client_records", "workspace_automations", "workspace_finance",
    "workspace_propose", "knowledge_search", "knowledge_read", "knowledge_library", "unknown_tool" }

  function KindOf(v: Value): Option<Kind> {
    if v == Str("model_turn") then Some(ModelTurn)
    else if v == Str("tool_call") then Some(ToolCall)
    else if v == Str("self_check") then Some(SelfCheck)
    else if v == Str("citation_validation") then Some(CitationValidation)
    else if v == Str("persistence") then Some(Persistence)
    else None
  }

  function StatusOf(v: Value): Option<Status> {
    if v == Str("running") then Some(Running)
    else if v == Str("succeeded") then Some(Succeeded)
    else if v == Str("failed") then Some(Failed)
    else if v == Str("cancelled") then Some(Cancelled)
    else None
  }

  predicate IsModel(kind: Kind) {
    kind == ModelTurn || kind == SelfCheck
  }

  predicate InRange(v: Value, low: int, high: int) {
    v.Num? && low <= v.n <= high
  }

  predicate OptionalCount(v: Value, model: bool, low: int, high: int) {
    v == Undefined || (model && InRange(v, low, high))
  }

  function Number(v: Value): Option<int> {
    if v.Num? then Some(v.n) else None
  }

  function Text(v: Value): Option<string> {
    if v.Str? then Some(v.s) else None
  }

  predicate Timestamp(rules: Rules, v: Value) {
    v.Str? && rules.timestamp(v.s)
  }

  predicate Refused(rules: Rules, raw: Raw)
    requires raw.Object?
  {
    var kind, status := KindOf(raw.Get("kind")), StatusOf(raw.Get("status"));
    || (exists key :: key in raw.fields && key !in KEYS)
    || !InRange(raw.Get("sequence"), 2, 64)
    || kind == None || status == None
    || !Timestamp(rules, raw.Get("started_at"))
    || !raw.Get("duration_ms").Num? || raw.Get("duration_ms").n < 0
    || !OptionalCount(raw.Get("trimmed_history_turns"), IsModel(kind.value), 1, 200)
    || !OptionalCount(raw.Get("compacted_tool_results"), IsModel(kind.value), 1, 32)
    || (if IsModel(kind.value) then !InRange(raw.Get("turn_index"), 1, 8) else raw.Get("turn_index") != Undefined)
    || (if kind == Some(ToolCall)
        then !raw.Get("tool_name").Str? || raw.Get("tool_name").s !in TOOLS
        else raw.Get("tool_name") != Undefined)
    || RetryRefused(raw, IsModel(kind.value))
    || (if status == Some(Running)
        then raw.Get("completed_at") != Undefined || raw.Get("duration_ms") != Num(0) || kind == Some(Persistence)
        else !Timestamp(rules, raw.Get("completed_at"))
             || rules.millis(raw.Get("completed_at").s) < rules.millis(raw.Get("started_at").s))
  }

  predicate RetryRefused(raw: Raw, model: bool)
    requires raw.Object?
  {
    var count, reason := raw.Get("retry_count"), raw.Get("retry_reason");
    if model then
      || (count != Undefined && !InRange(count, 0, 8))
      || (reason != Undefined && (!reason.Str? || |reason.s| > 80 || (if count.Num? then count.n else 0) < 1))
    else
      count != Undefined || reason != Undefined
  }

  /** parseAiRunProgress: None stands for the exception. */
  function Parse(rules: Rules, raw: Raw): Option<Progress> {
    if raw.NotAnObject? || Refused(rules, raw) then None
    else
      var kind := KindOf(raw.Get("kind")).value;
      Some(Progress(
        raw.Get("sequence").n, kind, StatusOf(raw.Get("status")).value, raw.Get("started_at").s,
        raw.Get("duration_ms").n,
        if IsModel(kind) then Number(raw.Get("turn_index")) else None,
        if kind == ToolCall then Text(raw.Get("tool_name")) else None,
        if IsModel(kind) then Number(raw.Get("retry_count")) else None,
        if IsModel(kind) then Text(raw.Get("retry_reason")) else None,
        if IsModel(kind) then Number(raw.Get("trimmed_history_turns")) else None,
        if IsModel(kind) then Number(raw.Get("compacted_tool_results")) else None,
        Text(raw.Get("completed_at"))))
  }

  // ----- what a step may be, stated on the typed value -----

  predicate Within(o: Option<int>, low: int, high: int) {
    o.Some? ==> low <= o.value <= high
  }

  predicate WellFormed(rules: Rules, p: Progress) {
    && 2 <= p.sequence <= 64 && p.durationMs >= 0 && rules.timestamp(p.startedAt)
    && (IsModel(p.kind) <==> p.turnIndex.Some?) && Within(p.turnIndex, 1, 8)
    && (p.kind == ToolCall <==> p.toolName.Some?) && (p.toolName.Some? ==> p.toolName.value in TOOLS)
    && (p.retryCount.Some? || p.trimmedHistory.Some? || p.compactedResults.Some? ==> IsModel(p.kind))
    && Within(p.retryCount, 0, 8) && Within(p.trimmedHistory, 1, 200) && Within(p.compactedResults, 1, 32)
    && (p.retryReason.Some? ==> p.retryCount.Some? && p.retryCount.value >= 1 && |p.retryReason.value| <= 80)
    && (p.status == Running <==> p.completedAt.None?)
    && (p.status == Running ==> p.durationMs == 0 && p.kind != Persistence)
    && (p.completedAt.Some? ==>
          rules.timestamp(p.completedAt.value) && rules.millis(p.startedAt) <= rules.millis(p.completedAt.value))
  }

  function KindName(kind: Kind): string {
    match kind
    case ModelTurn => "model_turn"
    case ToolCall => "tool_call"
    case SelfCheck => "self_check"
    case CitationValidation => "citation_validation"
    case Persistence => "persistence"
  }

  function StatusName(status: Status): string {
    match status
    case Running => "running"
    case Succeeded => "succeeded"
    case Failed => "failed"
    case Cancelled => "cancelled"
  }

  function IntField(o: Option<int>): Value {
    if o.Some? then Num(o.value) else Undefined
  }

  function TextField(o: Option<string>): Value {
    if o.Some? then Str(o.value) else Undefined
  }

  /** The object a step came from. */
  function Encode(p: Progress): Raw {
    Object(map[
      "sequence" := Num(p.sequence),
      "kind" := Str(KindName(p.kind)),
      "status" := Str(StatusName(p.status)),
      "started_at" := Str(p.startedAt),
      "duration_ms" := Num(p.durationMs),
      "turn_index" := IntField(p.turnIndex),
      "tool_name" := TextField(p.toolName),
      "retry_count" := IntField(p.retryCount),
      "retry_reason" := TextField(p.retryReason),
      "trimmed_history_turns" := IntField(p.trimmedHistory),
      "compacted_tool_results" := IntField(p.compactedResults),
      "completed_at" := TextField(p.completedAt)])
  }

  ghost predicate SameFields(a: Raw, b: Raw) {
    a.Object? && b.Object? && forall key: string :: a.Get(key) == b.Get(key) && (key in a.fields ==> key in KEYS)
  }

  predicate FieldsAre(raw: Raw, p: Progress)
    requires raw.Object?
  {
    && raw.Get("sequence") == Num(p.sequence) && raw.Get("kind") == Str(KindName(p.kind))
    && raw.Get("status") == Str(StatusName(p.status)) && raw.Get("started_at") == Str(p.startedAt)
    && raw.Get("duration_ms") == Num(p.durationMs) && raw.Get("turn_index") == IntField(p.turnIndex)
    && raw.Get("tool_name") == TextField(p.toolName) && raw.Get("retry_count") == IntField(p.retryCount)
    && raw.Get("retry_reason") == TextField(p.retryReason)
    && raw.Get("trimmed_history_turns") == IntField(p.trimmedHistory)
    && raw.Get("compacted_tool_results") == IntField(p.compactedResults)
    && raw.Get("completed_at") == TextField(p.completedAt)
  }

  lemma EncodedFields(p: Progress)
    ensures Encode(p).Object? && Encode(p).fields.Keys == KEYS && FieldsAre(Encode(p), p)
  {
    hide KindName, StatusName, IntField, TextField;
  }

  lemma SameFieldsByName(raw: Raw, p: Progress)
    requires raw.Object?
    ensures SameFields(raw, Encode(p)) <==> FieldsAre(raw, p) && raw.fields.Keys <= KEYS
  {
    hide KindName, StatusName, IntField, TextField, Encode;
    EncodedFields(p);
    var encoded := Encode(p);
    if SameFields(raw, encoded) {
      assert forall key :: key in KEYS ==> raw.Get(key) == encoded.Get(key);
      assert forall key :: key in raw.fields ==> raw.Get(key) == encoded.Get(key);
    }
    if FieldsAre(raw, p) && raw.fields.Keys <= KEYS {
      forall key ensures raw.Get(key) == encoded.Get(key) && (key in raw.fields ==> key in KEYS) {
        assert key !in KEYS ==> key !in raw.fields && key !in encoded.fields;
      }
    }
  }

  lemma NamesRoundTrip(v: Value, kind: Kind, status: Status)
    ensures KindOf(v) == Some(kind) <==> v == Str(KindName(kind))
    ensures StatusOf(v) == Some(status) <==> v == Str(StatusName(status))
  {
  }

  lemma FieldsParse(rules: Rules, raw: Raw, p: Progress)
    requires raw.Object? && raw.fields.Keys <= KEYS
    ensures Parse(rules, raw) == Some(p) <==> WellFormed(rules, p) && FieldsAre(raw, p)
  {
    hide KindOf, StatusOf, KindName, StatusName, Raw.Get;
    NamesRoundTrip(raw.Get("kind"), p.kind, p.status);
    NamesRoundTrip(raw.Get("status"), p.kind, p.status);
  }

  /** The parser accepts exactly the encodings of well-formed steps and
      returns the step encoded: nothing is dropped, defaulted or added. */
  lemma ParseInvertsEncode(rules: Rules, raw: Raw, p: Progress)
    ensures Parse(rules, raw) == Some(p) <==> WellFormed(rules, p) && SameFields(raw, Encode(p))
  {
    hide WellFormed, FieldsAre, Encode;
    if raw.Object? {
      SameFieldsByName(raw, p);
      if raw.fields.Keys <= KEYS {
        FieldsParse(rules, raw, p);
      } else {
        var key :| key in raw.fields && key !in KEYS;
        assert Refused(rules, raw);
      }
    }
  }

  // ----- a stored list -----

  const LIMIT: nat := 63

  datatype Stored = Missing | NotAList | Items(items: seq<Raw>)

  /** `Absent` is the answer for older sidecars, `Invalid` the exception. */
  datatype StoredSteps = Absent | Invalid | Steps(steps: seq<Progress>)

  predicate Open(p: Progress) {
    p.status == Running || p.kind == Persistence
  }

  /** At most 63 steps numbered from 2; only the last may run or persist. */
  predicate ListOk(steps: seq<Progress>) {
    && |steps| <= LIMIT
    && (forall i :: 0 <= i < |steps| ==> steps[i].sequence == i + 2)
    && (forall i :: 0 <= i < |steps| - 1 ==> !Open(steps[i]))
  }

  /** The items parse, one by one, into these steps. */
  ghost predicate ParsesTo(rules: Rules, items: seq<Raw>, steps: seq<Progress>) {
    |items| == |steps| && forall i :: 0 <= i < |steps| ==> Parse(rules, items[i]) == Some(steps[i])
  }

  /** parseAiRunProgressList: parse every item, then check the order. It refuses
      an array only when no accepted list parses from it. */
  method ParseAiRunProgressList(rules: Rules, value: Stored) returns (r: StoredSteps)
    ensures r == Absent <==> value.Missing?
    ensures value.NotAList? ==> r == Invalid
    ensures r.Steps? ==> value.Items? && ParsesTo(rules, value.items, r.steps) && ListOk(r.steps)
    ensures r == Invalid && value.Items? ==>
              forall steps :: ParsesTo(rules, value.items, steps) ==> !ListOk(steps)
  {
    hide Parse, Open;
    if value.Missing? {
      return Absent;
    }
    if value.NotAList? || |value.items| > LIMIT {
      return Invalid;
    }
    var items, result := value.items, [];
    for i := 0 to |items|
      invariant ParsesTo(rules, items[..i], result)
    {
      var step := Parse(rules, items[i]);
      if step == None {
        assert forall steps :: ParsesTo(rules, items, steps) ==> Parse(rules, items[i]) == Some(steps[i]);
        return Invalid;
      }
      result := result + [step.value];
      assert items[..i + 1] == items[..i] + [items[i]];
    }
    assert items[..|items|] == items;
    for i := 0 to |result|
      invariant forall j :: 0 <= j < i ==> result[j].sequence == j + 2 && (j < |result| - 1 ==> !Open(result[j]))
    {
      if result[i].sequence != i + 2 || (i < |result| - 1 && Open(result[i])) {
        forall steps | ParsesTo(rules, items, steps) ensures !ListOk(steps) {
          assert Parse(rules, items[i]) == Some(steps[i]) == Some(result[i]);
        }
        return Invalid;
      }
    }
    r := Steps(result);
  }

  // ----- the live fold -----

  predicate Completes(previous: Progress, step: Progress) {
    && previous.status == Running && step.status != Running
    && previous.kind == step.kind && previous.startedAt == step.startedAt
    && previous.turnIndex == step.turnIndex && previous.toolName == step.toolName
  }

  /** What one live step does to the list: it completes the last step, follows
      it, or is refused. */
  function Appended(steps: seq<Progress>, step: Progress): Option<seq<Progress>>
    requires step.sequence >= 2
  {
    var n := |steps|;
    if n > 0 && step.sequence == n + 1 && Completes(steps[n - 1], step) then Some(steps[..n - 1] + [step])
    else if step.sequence == n + 2 && (n > 0 ==> !Open(steps[n - 1])) then Some(steps + [step])
    else None
  }

  /** appendAiRunProgress: copy, then overwrite the last slot or push. */
  method AppendAiRunProgress(steps: Option<seq<Progress>>, step: Progress) returns (r: Option<seq<Progress>>)
    requires step.sequence >= 2
    ensures r == Appended(if steps.Some? then steps.value else [], step)
  {
    var next := if steps.Some? then steps.value else [];
    var index := step.sequence - 2;
    if index > |next| || index < |next| - 1 {
      return None;
    }
    if index < |next| {
      var previous := next[index];
      if || previous.status != Running || step.status == Running
         || previous.kind != step.kind || previous.startedAt != step.startedAt
         || previous.turnIndex != step.turnIndex || previous.toolName != step.toolName
      {
        return None;
      }
      next := next[index := step];
      assert next == next[..index] + [step];
    } else {
      if |next| > 0 && (next[|next| - 1].status == Running || next[|next| - 1].kind == Persistence) {
        return None;
      }
      next := next + [step];
    }
    r := Some(next);
  }

  ghost predicate Stream(rules: Rules, events: seq<Progress>) {
    forall i :: 0 <= i < |events| ==> WellFormed(rules, events[i])
  }

  function Fold(events: seq<Progress>): Option<seq<Progress>>
    requires forall i :: 0 <= i < |events| ==> events[i].sequence >= 2
  {
    if events == [] then Some([])
    else
      var before := Fold(events[..|events| - 1]);
      if before == None then None else Appended(before.value, events[|events| - 1])
  }

  /** One more live step keeps any accepted list accepted, wherever it came from. */
  lemma AppendKeepsListOk(rules: Rules, steps: seq<Progress>, step: Progress)
    requires ListOk(steps) && WellFormed(rules, step) && Appended(steps, step).Some?
    ensures ListOk(Appended(steps, step).value)
  {
    SequenceBounded(rules, step);
    hide WellFormed;
  }

  /** Any accepted stream folds into a list of well-formed steps that the list
      validator accepts. */
  lemma {:induction false} FoldIsAccepted(rules: Rules, events: seq<Progress>)
    requires Stream(rules, events) && Fold(events).Some?
    ensures ListOk(Fold(events).value) && Stream(rules, Fold(events).value)
  {
    if events != [] {
      hide WellFormed, ListOk;
      var front, last := events[..|events| - 1], events[|events| - 1];
      FoldIsAccepted(rules, front);
      AppendKeepsListOk(rules, Fold(front).value, last);
    } else {
      assert ListOk([]);
    }
  }

  lemma SequenceBounded(rules: Rules, p: Progress)
    requires WellFormed(rules, p)
    ensures 2 <= p.sequence <= 64
  {
  }

  /** Streaming an accepted list step by step gives that list back, and no other
      list survives it: the fold and the validator agree on every list. */
  lemma {:induction false} FoldOfListIsList(rules: Rules, steps: seq<Progress>)
    requires Stream(rules, steps)
    ensures ListOk(steps) <==> Fold(steps) == Some(steps)
  {
    if steps != [] {
      hide WellFormed;
      var front, last := steps[..|steps| - 1], steps[|steps| - 1];
      assert steps == front + [last] && WellFormed(rules, last);
      SequenceBounded(rules, last);
      FoldOfListIsList(rules, front);
      if Fold(steps) == Some(steps) {
        FoldIsAccepted(rules, steps);
      }
    }
  }

  lemma AppendedKeeps(steps: seq<Progress>, step: Progress, i: nat)
    requires step.sequence >= 2 && i < |steps| && Appended(steps, step).Some?
    ensures var next := Appended(steps, step).value;
      && |steps| <= |next| && next[i].kind == steps[i].kind && next[i].startedAt == steps[i].startedAt
      && (steps[i].status != Running ==> next[i] == steps[i])
  {
  }

  /** Steps that no longer run stay as they are, and entries never disappear. */
  lemma {:induction false} FinishedStepsStay(rules: Rules, events: seq<Progress>, n: nat, i: nat)
    requires Stream(rules, events) && Fold(events).Some? && n <= |events|
    requires Fold(events[..n]).Some? ==> i < |Fold(events[..n]).value|
    ensures Fold(events[..n]).Some? && |Fold(events[..n]).value| <= |Fold(events).value|
    ensures Fold(events[..n]).value[i].status != Running ==> Fold(events).value[i] == Fold(events[..n]).value[i]
    ensures Fold(events).value[i].kind == Fold(events[..n]).value[i].kind
    ensures Fold(events).value[i].startedAt == Fold(events[..n]).value[i].startedAt
  {
    if n == |events| {
      assert events[..n] == events;
    } else {
      hide WellFormed, Appended;
      var front := events[..|events| - 1];
      assert front[..n] == events[..n];
      FinishedStepsStay(rules, front, n, i);
      AppendedKeeps(Fold(front).value, events[|events| - 1], i);
    }
  }

  // ----- exactly which streams are accepted -----

  /** `o` announces that `p` runs: the same step, still running. */
  predicate Opens(o: Progress, p: Progress) {
    && o.status == Running && p.status != Running
    && o.sequence == p.sequence && o.kind == p.kind && o.startedAt == p.startedAt
    && o.turnIndex == p.turnIndex && o.toolName == p.toolName
  }

  ghost predicate Openings(steps: seq<Progress>, openings: seq<Option<Progress>>) {
    && |openings| == |steps|
    && (forall i :: 0 <= i < |steps| ==> openings[i].Some? ==> Opens(openings[i].value, steps[i]))
  }

  /** The steps one after the other, each after its announcement if it has one. */
  function Expand(steps: seq<Progress>, openings: seq<Option<Progress>>): seq<Progress>
    requires |openings| == |steps|
  {
    if steps == [] then [] else
      var n := |steps| - 1;
      Expand(steps[..n], openings[..n]) + (if openings[n].Some? then [openings[n].value] else []) + [steps[n]]
  }

  /** Numbered from 2, and only the last may run or persist. */
  predicate Ordered(steps: seq<Progress>) {
    && (forall i :: 0 <= i < |steps| ==> steps[i].sequence == i + 2)
    && (forall i :: 0 <= i < |steps| - 1 ==> steps[i].status != Running && steps[i].kind != Persistence)
  }

  ghost predicate IsExpansion(events: seq<Progress>, steps: seq<Progress>, openings: seq<Option<Progress>>) {
    Openings(steps, openings) && events == Expand(steps, openings)
  }

  lemma ExpandSnoc(steps: seq<Progress>, openings: seq<Option<Progress>>, step: Progress, opening: Option<Progress>)
    requires |openings| == |steps|
    ensures Expand(steps + [step], openings + [opening]) ==
              Expand(steps, openings) + (if opening.Some? then [opening.value] else []) + [step]
  {
    assert (steps + [step])[..|steps|] == steps && (openings + [opening])[..|steps|] == openings;
  }

  lemma OpeningsSnoc(steps: seq<Progress>, openings: seq<Option<Progress>>, step: Progress, opening: Option<Progress>)
    requires |openings| == |steps|
    ensures Openings(steps + [step], openings + [opening]) <==>
              Openings(steps, openings) && (opening.Some? ==> Opens(opening.value, step))
  {
    if Openings(steps + [step], openings + [opening]) {
      assert (openings + [opening])[|steps|] == opening && (steps + [step])[|steps|] == step;
      forall i | 0 <= i < |steps| && openings[i].Some? ensures Opens(openings[i].value, steps[i]) {
        assert (openings + [opening])[i] == openings[i] && (steps + [step])[i] == steps[i];
      }
    }
  }

  /** What an accepted event does to a list in order. */
  lemma AppendedCases(steps: seq<Progress>, step: Progress)
    requires Ordered(steps) && step.sequence >= 2
    ensures var n, r := |steps|, Appended(steps, step);
      r.Some? ==>
        && Ordered(r.value)
        && (if |r.value| == n + 1 then r.value == steps + [step]
            else n > 0 && r.value == steps[..n - 1] + [step] && Opens(steps[n - 1], step))
  {
  }

  lemma {:induction false} FoldIsExpansion(events: seq<Progress>) returns (openings: seq<Option<Progress>>)
    requires forall i :: 0 <= i < |events| ==> events[i].sequence >= 2
    requires Fold(events).Some?
    ensures Ordered(Fold(events).value) && IsExpansion(events, Fold(events).value, openings)
  {
    if events == [] {
      openings := [];
    } else {
      hide Appended, Ordered, Expand, Openings, Opens;
      var front, last := events[..|events| - 1], events[|events| - 1];
      assert events == front + [last];
      var before := FoldIsExpansion(front);
      var steps := Fold(front).value;
      AppendedCases(steps, last);
      openings := NextOpenings(front, steps, before, last, Fold(events).value);
    }
  }

  lemma NextOpenings(front: seq<Progress>, steps: seq<Progress>, before: seq<Option<Progress>>, last: Progress,
                     next: seq<Progress>) returns (openings: seq<Option<Progress>>)
    requires IsExpansion(front, steps, before)
    requires next == steps + [last]
             || (steps != [] && next == steps[..|steps| - 1] + [last] && Opens(steps[|steps| - 1], last))
    ensures IsExpansion(front + [last], next, openings)
  {
    var n := |steps|;
    if next == steps + [last] {
      openings := before + [None];
      ExpandSnoc(steps, before, last, None);
      OpeningsSnoc(steps, before, last, None);
      assert front + [] + [last] == front + [last];
    } else {
      var o := steps[n - 1];
      assert before[n - 1].None?;
      var rest := before[..n - 1];
      assert steps == steps[..n - 1] + [o] && before == rest + [None];
      openings := rest + [Some(o)];
      ExpandSnoc(steps[..n - 1], rest, o, None);
      ExpandSnoc(steps[..n - 1], rest, last, Some(o));
      OpeningsSnoc(steps[..n - 1], rest, o, None);
      OpeningsSnoc(steps[..n - 1], rest, last, Some(o));
    }
  }

  /** An announced or unannounced step is accepted after a list in order. */
  lemma StepAccepted(front: seq<Progress>, last: Progress, opening: Option<Progress>)
    requires Ordered(front + [last]) && (opening.Some? ==> Opens(opening.value, last))
    ensures Ordered(front) && last.sequence >= 2
    ensures opening.None? ==> Appended(front, last) == Some(front + [last])
    ensures opening.Some? ==>
      && opening.value.sequence >= 2 && Appended(front, opening.value) == Some(front + [opening.value])
      && Appended(front + [opening.value], last) == Some(front + [last])
  {
    var n, all := |front|, front + [last];
    assert all[n] == last && (n > 0 ==> all[n - 1] == front[n - 1]);
    forall i | 0 <= i < n ensures front[i].sequence == i + 2 && !Open(front[i]) {
      assert all[i] == front[i];
    }
    if opening.Some? {
      assert (front + [opening.value])[..n] == front;
    }
  }

  lemma SnocFolds(events: seq<Progress>, front: seq<Progress>, last: Progress, opening: Option<Progress>)
    requires (forall i :: 0 <= i < |events| ==> events[i].sequence >= 2) && Fold(events) == Some(front)
    requires Ordered(front + [last]) && (opening.Some? ==> Opens(opening.value, last))
    ensures last.sequence >= 2 && (opening.Some? ==> opening.value.sequence >= 2)
    ensures Fold(events + (if opening.Some? then [opening.value] else []) + [last]) == Some(front + [last])
  {
    hide Fold, Ordered, Appended, Opens;
    StepAccepted(front, last, opening);
    if opening.Some? {
      FoldTwo(events, opening.value, last);
      assert events + [opening.value] + [last] == events + [opening.value, last];
    } else {
      FoldSnoc(events, last);
      assert events + [] + [last] == events + [last];
    }
  }

  lemma {:induction false} ExpansionFolds(steps: seq<Progress>, openings: seq<Option<Progress>>)
    requires Ordered(steps) && Openings(steps, openings)
    ensures var events := Expand(steps, openings);
      (forall i :: 0 <= i < |events| ==> events[i].sequence >= 2) && Fold(events) == Some(steps)
  {
    hide Fold, Appended, Opens;
    if steps == [] {
      FoldEmpty();
    } else {
      var n := |steps| - 1;
      ExpansionFolds(steps[..n], openings[..n]);
      assert steps == steps[..n] + [steps[n]];
      SnocFolds(Expand(steps[..n], openings[..n]), steps[..n], steps[n], openings[n]);
    }
  }

  /** A stream is accepted and folds into `steps` exactly when it runs through
      `steps` in order, each step announced by at most one running step of the same
      kind, start, turn and tool, whatever way the step then ends. */
  lemma AcceptedStreamsAreExpansions(events: seq<Progress>, steps: seq<Progress>)
    requires forall i :: 0 <= i < |events| ==> events[i].sequence >= 2
    ensures Fold(events) == Some(steps) <==>
            Ordered(steps) && exists openings :: IsExpansion(events, steps, openings)
  {
    hide Fold, Expand, Openings, Ordered;
    if Fold(events) == Some(steps) {
      var openings := FoldIsExpansion(events);
      assert IsExpansion(events, steps, openings);
    }
    if Ordered(steps) && exists openings :: IsExpansion(events, steps, openings) {
      var openings :| IsExpansion(events, steps, openings);
      ExpansionFolds(steps, openings);
    }
  }

  /** Two per entry, less one while the last entry still runs. */
  function Measure(steps: seq<Progress>): int {
    2 * |steps| - if steps != [] && steps[|steps| - 1].status == Running then 1 else 0
  }

  lemma {:induction false} MeasureCounts(rules: Rules, events: seq<Progress>)
    requires Stream(rules, events) && Fold(events).Some?
    ensures |events| <= Measure(Fold(events).value)
  {
    if events != [] {
      hide WellFormed;
      MeasureCounts(rules, events[..|events| - 1]);
    }
  }

  /** An accepted stream has at most 126 events. */
  lemma AcceptedStreamsAreShort(rules: Rules, events: seq<Progress>)
    requires Stream(rules, events) && Fold(events).Some?
    ensures |events| <= 126
  {
    MeasureCounts(rules, events);
    FoldIsAccepted(rules, events);
  }

  function Citation(sequence: int, status: Status, at: string): Progress {
    Progress(sequence, CitationValidation, status, at, 0, None, None, None, None, None, None,
             if status == Running then None else Some(at))
  }

  /** Every entry first runs and then succeeds. */
  function BusyStream(n: nat, at: string): (events: seq<Progress>)
    ensures |events| == 2 * n
  {
    if n == 0 then [] else BusyStream(n - 1, at) + [Citation(n + 1, Running, at), Citation(n + 1, Succeeded, at)]
  }

  lemma FoldSnoc(events: seq<Progress>, step: Progress)
    requires step.sequence >= 2 && forall i :: 0 <= i < |events| ==> events[i].sequence >= 2
    ensures Fold(events + [step]) == if Fold(events).None? then None else Appended(Fold(events).value, step)
  {
    hide Appended;
    assert (events + [step])[..|events|] == events;
  }

  lemma FoldTwo(events: seq<Progress>, a: Progress, b: Progress)
    requires forall i :: 0 <= i < |events| ==> events[i].sequence >= 2
    requires a.sequence >= 2 && b.sequence >= 2 && Fold(events).Some? && Appended(Fold(events).value, a).Some?
    ensures Fold(events + [a, b]) == Appended(Appended(Fold(events).value, a).value, b)
  {
    hide Fold, Appended;
    FoldSnoc(events, a);
    FoldSnoc(events + [a], b);
    assert events + [a] + [b] == events + [a, b];
  }

  lemma CitationsAreWellFormed(rules: Rules, sequence: int, at: string)
    requires 2 <= sequence <= 64 && rules.timestamp(at)
    ensures WellFormed(rules, Citation(sequence, Running, at))
    ensures WellFormed(rules, Citation(sequence, Succeeded, at))
  {
  }

  /** The bound of 126 is reached. */
  lemma {:induction false} BusyStreamIsAccepted(rules: Rules, n: nat, at: string)
    requires n <= 63 && rules.timestamp(at)
    ensures Stream(rules, BusyStream(n, at))
    ensures forall i :: 0 <= i < 2 * n ==> BusyStream(n, at)[i].sequence >= 2
    ensures Fold(BusyStream(n, at)).Some?
    ensures var steps := Fold(BusyStream(n, at)).value;
      |steps| == n && (n > 0 ==> steps[n - 1] == Citation(n + 1, Succeeded, at))
  {
    hide Fold, WellFormed;
    if n > 0 {
      BusyStreamIsAccepted(rules, n - 1, at);
      CitationsAreWellFormed(rules, n + 1, at);
      FoldTwo(BusyStream(n - 1, at), Citation(n + 1, Running, at), Citation(n + 1, Succeeded, at));
    } else {
      FoldEmpty();
    }
  }

  lemma FoldEmpty()
    ensures Fold([]) == Some([])
  {
  }
}
