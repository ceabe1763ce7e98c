/** The layout requests of a run read off its calls alone, and what the dispatched
    layout commands have to do with the arguments of those calls. */
module SurfaceCalls {
  import opened Options
  import opened SurfaceLease

  /** The calls of a run, without the resumptions in between. */
  function CallsOf(run: seq<Action>): seq<Action> {
    if run == [] then [] else
      var last := run[|run| - 1];
      CallsOf(run[..|run| - 1]) + if last.Resume? then [] else [last]
  }

  function Acquires(calls: seq<Action>): nat {
    if calls == [] then 0
    else Acquires(calls[..|calls| - 1]) + if calls[|calls| - 1].CallAcquire? then 1 else 0
  }

  /** Who holds the surface: the last to acquire it, until it releases it itself. */
  function Holder(calls: seq<Action>): Option<nat> {
    if calls == [] then None else
      var front, last := calls[..|calls| - 1], calls[|calls| - 1];
      if last.CallAcquire? then Some(Acquires(front))
      else if last.CallRelease? && Holder(front) == Some(last.who) then None
      else Holder(front)
  }

  /** The layout a call asks for: what update was given, or to hide on release. */
  function Argument(call: Action): Option<Bounds> {
    if call.CallUpdate? then call.bounds else None
  }

  /** Call `c` is an update or a release by whoever holds the surface then. */
  ghost predicate Counts(calls: seq<Action>, c: nat) {
    && c < |calls| && (calls[c].CallUpdate? || calls[c].CallRelease?)
    && Holder(calls[..c]) == Some(calls[c].who)
  }

  /** Task `t` stands for call `c`. */
  ghost predicate StandsFor(t: Task, calls: seq<Action>, c: nat) {
    && Counts(calls, c) && t.request == c && t.owner == calls[c].who
    && t.Layout() == Argument(calls[c]) && (t.Show? <==> Argument(calls[c]).Some?)
    && (t.Hide? ==> (t.releasing <==> calls[c].CallRelease?))
  }

  ghost predicate HasTask(s: Surface, c: nat) {
    exists i :: 0 <= i < |s.tasks| && s.tasks[i].request == c
  }

  /** The surface after a run knows exactly what the calls say. */
  ghost predicate Mirrors(s: Surface, calls: seq<Action>) {
    && |s.calls| == |calls| && s.owner == Holder(calls) && s.owners == Acquires(calls)
    && (forall i :: 0 <= i < |s.tasks| ==> StandsFor(s.tasks[i], calls, s.tasks[i].request))
    && (forall c :: 0 <= c < |calls| ==> (Counts(calls, c) <==> HasTask(s, c)))
    && (forall c :: 0 <= c < |calls| ==> (s.calls[c].Ignored? <==> !calls[c].CallAcquire? && !Counts(calls, c)))
    && (forall k :: 0 <= k < |s.issued| ==>
          s.issued[k].task < |s.tasks| && s.issued[k].bounds == s.tasks[s.issued[k].task].Layout())
  }

  lemma CountsStays(calls: seq<Action>, a: Action, c: nat)
    requires c < |calls|
    ensures Counts(calls + [a], c) <==> Counts(calls, c)
  {
    assert (calls + [a])[..c] == calls[..c];
  }

  lemma CountsLast(calls: seq<Action>, a: Action)
    ensures Counts(calls + [a], |calls|) <==>
              (a.CallUpdate? || a.CallRelease?) && Holder(calls) == Some(a.who)
  {
    assert (calls + [a])[..|calls|] == calls;
  }

  lemma HolderNext(calls: seq<Action>, a: Action)
    ensures Holder(calls + [a]) ==
              if a.CallAcquire? then Some(Acquires(calls))
              else if a.CallRelease? && Holder(calls) == Some(a.who) then None
              else Holder(calls)
    ensures Acquires(calls + [a]) == Acquires(calls) + if a.CallAcquire? then 1 else 0
  {
    assert (calls + [a])[..|calls|] == calls;
  }

  /** What a call does to the surface, in terms of who owns it. */
  lemma CallAdds(s: Surface, a: Action)
    requires !a.Resume?
    ensures var s', n := Next(s, a), |s.tasks|;
      var counts := (a.CallUpdate? || a.CallRelease?) && s.owner == Some(a.who);
      && |s'.calls| == |s.calls| + 1 && s'.calls[..|s.calls|] == s.calls && s'.issued == s.issued
      && (s'.calls[|s.calls|].Ignored? <==> !a.CallAcquire? && !counts)
      && s'.owners == s.owners + (if a.CallAcquire? then 1 else 0)
      && s'.owner == (if a.CallAcquire? then Some(s.owners) else if a.CallRelease? && counts then None else s.owner)
      && |s'.tasks| == (if counts then n + 1 else n) && s'.tasks[..n] == s.tasks
      && (counts ==>
            var t := s'.tasks[n];
            && t.request == |s.calls| && t.owner == a.who && t.Layout() == Argument(a)
            && (t.Show? <==> Argument(a).Some?) && (t.Hide? ==> (t.releasing <==> a.CallRelease?)))
  {
  }

  lemma CallKeepsTask(s: Surface, calls: seq<Action>, a: Action, c: nat)
    requires Mirrors(s, calls) && !a.Resume? && c <= |calls|
    ensures HasTask(Next(s, a), c) <==>
              if c < |calls| then HasTask(s, c)
              else (a.CallUpdate? || a.CallRelease?) && s.owner == Some(a.who)
  {
    hide Holder, Acquires, Next;
    var s', n := Next(s, a), |s.tasks|;
    CallAdds(s, a);
    assert forall i :: 0 <= i < n ==> s'.tasks[i] == s.tasks[i] && s.tasks[i].request < |calls|;
    if c < |calls| && HasTask(s, c) {
      var i :| 0 <= i < n && s.tasks[i].request == c;
      assert s'.tasks[i].request == c;
    }
    if c == |calls| && |s'.tasks| == n + 1 {
      assert s'.tasks[n].request == c;
    }
  }

  lemma CallMirrors(s: Surface, calls: seq<Action>, a: Action)
    requires Mirrors(s, calls) && !a.Resume?
    ensures Mirrors(Next(s, a), calls + [a])
  {
    hide Holder, Acquires, Counts, HasTask, Next;
    var s', all := Next(s, a), calls + [a];
    HolderNext(calls, a);
    CountsLast(calls, a);
    CallAdds(s, a);
    forall c | 0 <= c < |calls| ensures Counts(all, c) <==> Counts(calls, c) {
      CountsStays(calls, a, c);
    }
    forall i | 0 <= i < |s'.tasks| ensures StandsFor(s'.tasks[i], all, s'.tasks[i].request) {
      if i < |s.tasks| {
        assert s'.tasks[i] == s.tasks[i] && StandsFor(s.tasks[i], calls, s.tasks[i].request);
        CountsInRange(calls, s.tasks[i].request);
      }
    }
    forall c | 0 <= c < |all| ensures Counts(all, c) <==> HasTask(s', c) {
      CallKeepsTask(s, calls, a, c);
    }
    forall c | 0 <= c < |all|
      ensures s'.calls[c].Ignored? <==> !all[c].CallAcquire? && !Counts(all, c)
    {
      if c < |calls| {
        assert s'.calls[c] == s.calls[c];
      }
    }
    assert forall k :: 0 <= k < |s.issued| ==> s'.tasks[s.issued[k].task] == s.tasks[s.issued[k].task];
  }

  lemma CountsInRange(calls: seq<Action>, c: nat)
    requires Counts(calls, c)
    ensures c < |calls|
  {
  }

  lemma ResumeMirrors(s: Surface, calls: seq<Action>, i: nat, ok: bool)
    requires Mirrors(s, calls)
    ensures Mirrors(s.Resume(i, ok), calls)
  {
    hide Holder, Acquires, Counts, HasTask;
    var s' := s.Resume(i, ok);
    ResumeKeepsRequests(s, i, ok);
    forall c | 0 <= c < |calls| ensures HasTask(s', c) <==> HasTask(s, c) {
      SameRequests(s, s', c);
    }
  }

  lemma ResumeKeepsRequests(s: Surface, i: nat, ok: bool)
    ensures var s' := s.Resume(i, ok);
      && |s'.tasks| == |s.tasks| && s'.calls == s.calls && s'.owner == s.owner && s'.owners == s.owners
      && (forall k :: 0 <= k < |s.tasks| ==> s'.tasks[k] == s.tasks[k].At(s'.tasks[k].at))
      && (s'.issued == s.issued
          || (i < |s.tasks| && s'.issued == s.issued + [Issue(i, s.tasks[i].Layout(), |s.calls|)]))
  {
  }

  lemma SameRequests(s: Surface, s': Surface, c: nat)
    requires |s'.tasks| == |s.tasks|
    requires forall k :: 0 <= k < |s.tasks| ==> s'.tasks[k].request == s.tasks[k].request
    ensures HasTask(s', c) <==> HasTask(s, c)
  {
    if HasTask(s, c) {
      var i :| 0 <= i < |s.tasks| && s.tasks[i].request == c;
      assert s'.tasks[i].request == c;
    }
  }

  lemma {:induction false} RunsMirror(run: seq<Action>)
    ensures Mirrors(After(run), CallsOf(run))
  {
    hide Next, Mirrors;
    if run == [] {
      StartMirrors();
    } else {
      var front, last := run[..|run| - 1], run[|run| - 1];
      RunsMirror(front);
      if last.Resume? {
        ResumeMirrors(After(front), CallsOf(front), last.task, last.ok);
        assert CallsOf(front) + [] == CallsOf(front);
        ResumeIsNext(After(front), last);
      } else {
        CallMirrors(After(front), CallsOf(front), last);
      }
    }
  }

  lemma ResumeIsNext(s: Surface, a: Action)
    requires a.Resume?
    ensures Next(s, a) == s.Resume(a.task, a.ok)
  {
  }

  lemma StartMirrors()
    ensures Mirrors(IDLE, [])
  {
  }

  // ----- what holds over every run -----

  /** Each update or release by the holder makes exactly one request, which carries
      the argument of that call, and no other call makes any. */
  lemma RequestsAreCalls(run: seq<Action>)
    ensures var s, calls := After(run), CallsOf(run);
      && |s.calls| == |calls| && s.owner == Holder(calls)
      && (forall i :: 0 <= i < |s.tasks| ==> StandsFor(s.tasks[i], calls, s.tasks[i].request))
      && (forall c :: 0 <= c < |calls| ==> (Counts(calls, c) <==> HasTask(s, c)))
      && (forall i, j :: 0 <= i < j < |s.tasks| ==> s.tasks[i].request < s.tasks[j].request)
  {
    hide StandsFor, Counts, Holder, HasTask, After;
    RunsMirror(run);
    Reachable(run);
    var s := After(run);
    forall i, j | 0 <= i < j < |s.tasks| ensures s.tasks[i].request < s.tasks[j].request {
      assert PairOk(s, i, j);
    }
  }

  /** Every layout command issued carries the argument of the call that requested
      it: the bounds given to update, or none for a hide and a release. */
  lemma CommandsCarryArguments(run: seq<Action>, k: nat)
    requires k < |After(run).issued|
    ensures var s, calls := After(run), CallsOf(run); var e := s.issued[k];
      && e.task < |s.tasks| && s.tasks[e.task].request < |calls|
      && Counts(calls, s.tasks[e.task].request)
      && e.bounds == Argument(calls[s.tasks[e.task].request])
  {
    hide Counts, Holder, HasTask, After;
    RunsMirror(run);
    var s := After(run);
    var t := s.issued[k].task;
    assert StandsFor(s.tasks[t], CallsOf(run), s.tasks[t].request);
    CountsInRange(CallsOf(run), s.tasks[t].request);
  }

  /** When everything has settled and the request of the last call that counted did
      not fail, the last layout dispatched is the argument of that call. */
  lemma LastArgumentWins(run: seq<Action>, c: nat)
    requires Counts(CallsOf(run), c)
    requires forall d :: c < d < |CallsOf(run)| ==> !CallsOf(run)[d].CallAcquire? && !Counts(CallsOf(run), d)
    requires forall i :: 0 <= i < |After(run).tasks| ==>
               && After(run).tasks[i].at.Settled()
               && (After(run).tasks[i].request == c ==> !After(run).tasks[i].at.Failed?)
    ensures var s := After(run);
      && |s.issued| > 0 && s.issued[|s.issued| - 1].bounds == Argument(CallsOf(run)[c])
      && s.issued[|s.issued| - 1].task < |s.tasks| && s.tasks[s.issued[|s.issued| - 1].task].request == c
  {
    hide After, Holder, Counts;
    RunsMirror(run);
    var s, calls := After(run), CallsOf(run);
    CountsInRange(calls, c);
    assert HasTask(s, c);
    var i :| 0 <= i < |s.tasks| && s.tasks[i].request == c;
    LastTaskIsLastCall(run, c, i);
    LastRequestWins(run);
    CommandsCarryArguments(run, |s.issued| - 1);
  }

  lemma LastTaskIsLastCall(run: seq<Action>, c: nat, i: nat)
    requires i < |After(run).tasks| && After(run).tasks[i].request == c
    requires forall d :: c < d < |CallsOf(run)| ==> !CallsOf(run)[d].CallAcquire? && !Counts(CallsOf(run), d)
    ensures i == |After(run).tasks| - 1
    ensures forall d :: c < d < |After(run).calls| ==> After(run).calls[d].Ignored?
  {
    hide After, Holder, Counts;
    RequestsAreCalls(run);
    RunsMirror(run);
    var s, last := After(run), |After(run).tasks| - 1;
    if i < last {
      var d := s.tasks[last].request;
      assert StandsFor(s.tasks[last], CallsOf(run), d);
      CountsInRange(CallsOf(run), d);
    }
  }

  /** At step `k` of the run task `i`, standing at `at`, resumed with outcome `ok`. */
  ghost predicate Resumed(run: seq<Action>, k: nat, i: nat, at: Point, ok: bool) {
    && k < |run| && run[k] == Resume(i, ok)
    && i < |After(run[..k]).tasks| && After(run[..k]).tasks[i].at == at
  }

  /** The lease of task `i` had gone when step `k` resumed it. */
  ghost predicate WasStale(run: seq<Action>, k: nat, i: nat) {
    && k < |run| && i < |After(run[..k]).tasks|
    && !After(run[..k]).Current(After(run[..k]).tasks[i])
  }

  ghost predicate Told(run: seq<Action>, i: nat)
    requires i < |After(run).tasks|
  {
    var t := After(run).tasks[i];
    && (t.at.Completed? ==> exists k :: Resumed(run, k, i, InFlight, true))
    && (t.at == Failed(true) ==> exists k :: Resumed(run, k, i, InFlight, false))
    && (t.at == Failed(false) ==>
          || (t.Hide? && t.request < |CallsOf(run)| && !CallsOf(run)[t.request].CallAcquire?
              && !CallsOf(run)[t.request].Resume? && !CallsOf(run)[t.request].desktop)
          || (exists k :: Resumed(run, k, i, Loading, false))
          || (exists k :: Resumed(run, k, i, AtBarrier, false)))
    && (t.at.Skipped? ==> exists k :: WasStale(run, k, i))
  }

  lemma EarlierStays(run: seq<Action>, a: Action, k: nat, i: nat, at: Point, ok: bool)
    ensures Resumed(run, k, i, at, ok) ==> Resumed(run + [a], k, i, at, ok)
    ensures WasStale(run, k, i) ==> WasStale(run + [a], k, i)
  {
    if k < |run| {
      assert (run + [a])[..k] == run[..k];
    }
  }

  /** Task `i` of the next surface is as it was, was just requested, or resumed. */
  lemma HowTasksMove(s: Surface, a: Action, i: nat)
    requires i < |Next(s, a).tasks|
    ensures var s' := Next(s, a);
      || (i < |s.tasks| && s'.tasks[i] == s.tasks[i])
      || (i == |s.tasks| && !a.Resume? && !a.CallAcquire? && s'.tasks[i].request == |s.calls|
          && (s'.tasks[i].at.Queued? || s'.tasks[i].at.Loading?
              || (s'.tasks[i].Hide? && s'.tasks[i].at == Failed(false) && !a.desktop)))
      || (&& i < |s.tasks| && a == Resume(i, a.ok)
          && var t, at := s.tasks[i], s'.tasks[i].at;
             && (at.Completed? <==> t.at.InFlight? && a.ok)
             && (at == Failed(true) <==> t.at.InFlight? && !a.ok)
             && (at == Failed(false) ==> !a.ok && (t.at.Loading? || t.at.AtBarrier?))
             && (at.Skipped? ==> !s.Current(t)))
  {
  }

  lemma TaskTells(run: seq<Action>, a: Action, i: nat)
    requires forall j :: 0 <= j < |After(run).tasks| ==> Told(run, j)
    requires i < |After(run + [a]).tasks|
    ensures Told(run + [a], i)
  {
    hide After, Next, Resumed, WasStale, CallsOf;
    Extend(run, a);
    var s, s' := After(run), After(run + [a]);
    HowTasksMove(s, a, i);
    CallsGrowTo(run, a);
    RunsMirror(run);
    forall k: nat, at, ok | Resumed(run, k, i, at, ok) ensures Resumed(run + [a], k, i, at, ok) {
      EarlierStays(run, a, k, i, at, ok);
    }
    forall k: nat | WasStale(run, k, i) ensures WasStale(run + [a], k, i) {
      EarlierStays(run, a, k, i, Queued, true);
    }
    if i < |s.tasks| && s'.tasks[i] == s.tasks[i] {
      assert Told(run, i);
    } else if i < |s.tasks| {
      ResumedNow(run, i, a.ok);
    }
  }

  lemma CallsGrowTo(run: seq<Action>, a: Action)
    ensures CallsOf(run + [a]) == CallsOf(run) + if a.Resume? then [] else [a]
  {
    assert (run + [a])[..|run|] == run;
  }

  lemma ResumedNow(run: seq<Action>, i: nat, ok: bool)
    requires i < |After(run).tasks|
    ensures Resumed(run + [Resume(i, ok)], |run|, i, After(run).tasks[i].at, ok)
    ensures !After(run).Current(After(run).tasks[i]) ==> WasStale(run + [Resume(i, ok)], |run|, i)
  {
    assert (run + [Resume(i, ok)])[..|run|] == run;
  }

  /** A settled request tells how it went: it completed exactly by a command that
      succeeded, failed after its command only by one that failed, failed before
      it only for want of the desktop runtime or the native module, and was
      skipped only when its lease had gone. */
  lemma {:induction false} OutcomesAreTold(run: seq<Action>)
    ensures forall i :: 0 <= i < |After(run).tasks| ==> Told(run, i)
  {
    hide Next, Told;
    if run != [] {
      var front, last := run[..|run| - 1], run[|run| - 1];
      OutcomesAreTold(front);
      assert run == front + [last];
      forall i | 0 <= i < |After(run).tasks| ensures Told(run, i) {
        TaskTells(front, last, i);
      }
    }
  }
}
