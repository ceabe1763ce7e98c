/** When a show may be dispatched while an older hide is still in flight: exactly
    when no show up to it was queued behind that hide. */
module SurfaceOvertake {
  import opened Options
  import opened SurfaceLease

  // ----- what every task has waited for -----

  /** A show points back at an earlier show and an earlier hide, and has waited for
      each of them once it is past it. */
  ghost predicate HasWaited(s: Surface, k: nat)
    requires k < |s.tasks|
  {
    var t := s.tasks[k];
    t.Show? ==>
      && (t.previous.Some? ==> t.previous.value < k && s.tasks[t.previous.value].Show?)
      && (t.barrier.Some? ==> t.barrier.value < k && s.tasks[t.barrier.value].Hide?)
      && (!t.at.Queued? ==> s.SettledTask(t.previous))
      && (!t.at.Queued? && !t.at.AtBarrier? ==> s.SettledTask(t.barrier))
  }

  ghost predicate Waits(s: Surface) {
    && (s.latestHide.Some? ==> s.latestHide.value < |s.tasks| && s.tasks[s.latestHide.value].Hide?)
    && (s.queue.Some? ==> s.queue.value < |s.tasks| && s.tasks[s.queue.value].Show?)
    && (forall k :: 0 <= k < |s.tasks| ==> HasWaited(s, k))
  }

  /** Every task of `s` is still there, changed at most in where it stands, and
      settled if it was. */
  ghost predicate Moves(s: Surface, s': Surface) {
    && |s.tasks| <= |s'.tasks|
    && (forall k :: 0 <= k < |s.tasks| ==>
          && s'.tasks[k] == s.tasks[k].At(s'.tasks[k].at)
          && (s.tasks[k].at.Settled() ==> s'.tasks[k].at.Settled()))
  }

  lemma NextMoves(s: Surface, a: Action)
    ensures Moves(s, Next(s, a))
  {
  }

  lemma SettledStays(s: Surface, s': Surface, i: Option<nat>)
    requires Moves(s, s') && s.SettledTask(i)
    ensures s'.SettledTask(i)
  {
  }

  lemma NextKeepsWaits(s: Surface, a: Action)
    requires Waits(s)
    ensures Waits(Next(s, a))
  {
    var s' := Next(s, a);
    NextMoves(s, a);
    forall k | 0 <= k < |s'.tasks| ensures HasWaited(s', k) {
      if k < |s.tasks| {
        assert HasWaited(s, k);
        TaskKeepsWaiting(s, a, k);
      }
    }
  }

  lemma TaskKeepsWaiting(s: Surface, a: Action, k: nat)
    requires k < |s.tasks| && HasWaited(s, k) && Moves(s, Next(s, a))
    ensures HasWaited(Next(s, a), k)
  {
    var s', t := Next(s, a), s.tasks[k];
    if t.Show? {
      if s.SettledTask(t.previous) {
        SettledStays(s, s', t.previous);
      }
      if s.SettledTask(t.barrier) {
        SettledStays(s, s', t.barrier);
      }
    }
  }

  lemma {:induction false} WaitsReachable(run: seq<Action>)
    ensures Waits(After(run))
  {
    hide Next, HasWaited;
    if run == [] {
      assert Waits(IDLE);
    } else {
      WaitsReachable(run[..|run| - 1]);
      NextKeepsWaits(After(run[..|run| - 1]), run[|run| - 1]);
    }
  }

  // ----- which hide a show is queued behind -----

  function LastHide(tasks: seq<Task>): (r: Option<nat>)
    ensures r.Some? ==> r.value < |tasks| && tasks[r.value].Hide?
    ensures forall k :: (if r.Some? then r.value + 1 else 0) <= k < |tasks| ==> !tasks[k].Hide?
  {
    if tasks == [] then None
    else if tasks[|tasks| - 1].Hide? then Some(|tasks| - 1)
    else LastHide(tasks[..|tasks| - 1])
  }

  function LastShow(tasks: seq<Task>): (r: Option<nat>)
    ensures r.Some? ==> r.value < |tasks| && tasks[r.value].Show?
    ensures forall k :: (if r.Some? then r.value + 1 else 0) <= k < |tasks| ==> !tasks[k].Show?
  {
    if tasks == [] then None
    else if tasks[|tasks| - 1].Show? then Some(|tasks| - 1)
    else LastShow(tasks[..|tasks| - 1])
  }

  lemma SameKindsSameLast(a: seq<Task>, b: seq<Task>)
    requires |a| == |b| && forall k :: 0 <= k < |a| ==> (a[k].Hide? <==> b[k].Hide?)
    ensures LastHide(a) == LastHide(b) && LastShow(a) == LastShow(b)
  {
  }

  ghost predicate PointsBack(s: Surface, k: nat)
    requires k < |s.tasks|
  {
    s.tasks[k].Show? ==>
      s.tasks[k].barrier == LastHide(s.tasks[..k]) && s.tasks[k].previous == LastShow(s.tasks[..k])
  }

  ghost predicate Pointed(s: Surface) {
    && s.latestHide == LastHide(s.tasks) && s.queue == LastShow(s.tasks)
    && (forall k :: 0 <= k < |s.tasks| ==> PointsBack(s, k))
  }

  /** An action resumes one task, or requests one task behind the latest ones. */
  lemma HowTasksGrow(s: Surface, a: Action)
    ensures var s', n := Next(s, a), |s.tasks|;
      && n <= |s'.tasks| <= n + 1
      && (forall k :: 0 <= k < n ==> s'.tasks[k] == s.tasks[k].At(s'.tasks[k].at))
      && (|s'.tasks| == n ==> s'.latestHide == s.latestHide && s'.queue == s.queue)
      && (|s'.tasks| > n && s'.tasks[n].Hide? ==> s'.latestHide == Some(n) && s'.queue == s.queue)
      && (|s'.tasks| > n && s'.tasks[n].Show? ==>
            && s'.latestHide == s.latestHide && s'.queue == Some(n)
            && s'.tasks[n].barrier == s.latestHide && s'.tasks[n].previous == s.queue)
  {
  }

  lemma NextKeepsPointed(s: Surface, a: Action)
    requires Pointed(s)
    ensures Pointed(Next(s, a))
  {
    hide Next;
    var s', n := Next(s, a), |s.tasks|;
    HowTasksGrow(s, a);
    SameKindsSameLast(s.tasks, s'.tasks[..n]);
    forall k | 0 <= k < |s'.tasks| ensures PointsBack(s', k) {
      if k < n {
        assert PointsBack(s, k);
        SameKindsSameLast(s.tasks[..k], s'.tasks[..k]);
      }
    }
    if |s'.tasks| == n {
      assert s'.tasks[..n] == s'.tasks;
    }
  }

  lemma {:induction false} PointedReachable(run: seq<Action>)
    ensures Pointed(After(run))
  {
    hide Next, PointsBack;
    if run != [] {
      PointedReachable(run[..|run| - 1]);
      NextKeepsPointed(After(run[..|run| - 1]), run[|run| - 1]);
    }
  }

  /** A show is queued behind the show and the hide requested last before it. */
  lemma QueuedBehindLatest(run: seq<Action>, k: nat, i: nat)
    requires k < |After(run).tasks| && After(run).tasks[k].Show?
    ensures var s := After(run);
      && (s.tasks[k].barrier == Some(i) <==>
            i < k && s.tasks[i].Hide? && forall m :: i < m < k ==> s.tasks[m].Show?)
      && (s.tasks[k].previous == Some(i) <==>
            i < k && s.tasks[i].Show? && forall m :: i < m < k ==> s.tasks[m].Hide?)
  {
    hide After;
    PointedReachable(run);
    assert PointsBack(After(run), k);
    var before := After(run).tasks[..k];
    assert forall m :: 0 <= m < k ==> before[m] == After(run).tasks[m];
  }

  // ----- continuations -----

  function Continue(s: Surface, more: seq<Action>): Surface
    decreases |more|
  {
    if more == [] then s else Next(Continue(s, more[..|more| - 1]), more[|more| - 1])
  }

  lemma {:induction false} RunsContinue(run: seq<Action>, more: seq<Action>)
    ensures After(run + more) == Continue(After(run), more)
  {
    hide Next, After;
    if more == [] {
      assert run + more == run;
    } else {
      var front, last := more[..|more| - 1], more[|more| - 1];
      RunsContinue(run, front);
      assert run + more == run + front + [last];
      Extend(run + front, last);
    }
  }

  lemma {:induction false} ContinueTwice(s: Surface, a: seq<Action>, b: seq<Action>)
    ensures Continue(s, a + b) == Continue(Continue(s, a), b)
  {
    hide Next;
    if b == [] {
      assert a + b == a;
    } else {
      var front, last := b[..|b| - 1], b[|b| - 1];
      assert (a + b)[..|a + b| - 1] == a + front;
      ContinueTwice(s, a, front);
    }
  }

  lemma ContinueOnce(s: Surface, a: Action)
    ensures Continue(s, [a]) == Next(s, a)
  {
    assert [a][..0] == [] && Continue(s, []) == s;
  }

  /** Only tasks other than `i` resume. */
  predicate Spares(more: seq<Action>, i: nat) {
    forall a :: a in more ==> a.Resume? && a.task != i
  }

  /** What stays as it is while only tasks other than `i` resume. */
  ghost predicate Spared(s: Surface, s': Surface, i: nat) {
    && Inv(s') && Waits(s') && Moves(s, s') && |s'.tasks| == |s.tasks|
    && s'.epoch == s.epoch && s'.owner == s.owner
    && i < |s.tasks| && s'.tasks[i] == s.tasks[i]
  }

  ghost predicate Sound(s: Surface, i: nat) {
    Inv(s) && Waits(s) && i < |s.tasks|
  }

  lemma ResumeSpares(s: Surface, i: nat, k: nat, ok: bool)
    requires Sound(s, i) && k != i
    ensures Spared(s, s.Resume(k, ok), i)
  {
    hide Inv, Waits;
    ResumeKeeps(s, k, ok);
    NextKeepsWaits(s, Resume(k, ok));
    NextMoves(s, Resume(k, ok));
  }

  lemma {:induction false} ContinueSpares(s: Surface, i: nat, more: seq<Action>)
    requires Sound(s, i) && Spares(more, i)
    ensures Spared(s, Continue(s, more), i)
  {
    hide Inv, Waits;
    if more == [] {
    } else {
      var front, last := more[..|more| - 1], more[|more| - 1];
      assert last in more;
      ContinueSpares(s, i, front);
      ResumeSpares(Continue(s, front), i, last.task, last.ok);
    }
  }

  // ----- necessity: a show that was queued behind the hide has to wait for it -----

  lemma QueuedBehindWaits(s: Surface, i: nat, k: nat, j: nat)
    requires Inv(s) && Waits(s) && k <= j < |s.tasks| && s.tasks[k].Show? && s.tasks[j].Show?
    requires s.tasks[k].barrier == Some(i) && !s.tasks[j].at.Queued? && !s.tasks[j].at.AtBarrier?
    ensures i < k && s.tasks[i].at.Settled()
  {
    assert HasWaited(s, k);
    if k < j {
      assert PairOk(s, k, j);
    }
  }

  /** When a show is issued, every earlier show has settled, and so has every hide
      that it or an earlier show was queued behind, whatever the epoch of that
      hide; a hide of the show's own epoch is always one of these. */
  lemma ShowsWait(run: seq<Action>, i: nat, j: nat)
    requires var s := After(run);
             && i < j < |s.tasks| && s.tasks[j].Show? && !s.tasks[j].at.Queued? && !s.tasks[j].at.AtBarrier?
             && (|| s.tasks[i].Show?
                 || s.tasks[i].epoch == s.tasks[j].epoch
                 || exists k :: 0 <= k <= j && s.tasks[k].Show? && s.tasks[k].barrier == Some(i))
    ensures After(run).tasks[i].at.Settled()
    ensures After(run).tasks[i].Hide? && After(run).tasks[i].epoch == After(run).tasks[j].epoch ==>
              After(run).tasks[j].barrier == Some(i)
  {
    hide After;
    Reachable(run);
    WaitsReachable(run);
    var s := After(run);
    assert PairOk(s, i, j);
    if s.tasks[i].Hide? && s.tasks[i].epoch != s.tasks[j].epoch {
      var k :| 0 <= k <= j && s.tasks[k].Show? && s.tasks[k].barrier == Some(i);
      QueuedBehindWaits(s, i, k, j);
    }
  }

  // ----- sufficiency: everything but the hide can be brought to rest in order -----

  /** No show but `k` moved. */
  ghost predicate OnlyShow(s: Surface, s': Surface, k: nat)
    requires |s.tasks| == |s'.tasks|
  {
    forall m :: 0 <= m < |s.tasks| && m != k && s.tasks[m].Show? ==> s'.tasks[m] == s.tasks[m]
  }

  lemma SettleHide(s: Surface, i: nat, b: nat) returns (more: seq<Action>)
    requires Sound(s, i) && b < |s.tasks| && b != i && s.tasks[b].Hide?
    ensures Spares(more, i) && Spared(s, Continue(s, more), i)
    ensures Continue(s, more).tasks[b].at.Settled()
    ensures forall k :: 0 <= k < |s.tasks| && k != b ==> Continue(s, more).tasks[k] == s.tasks[k]
  {
    assert TaskOk(s, b);
    if s.tasks[b].at.Settled() {
      more := [];
    } else {
      var a := Resume(b, s.tasks[b].at.InFlight?);
      more := [a];
      ContinueOnce(s, a);
    }
    ContinueSpares(s, i, more);
  }

  /** Show `k` comes past its barrier as soon as the show before it has settled. */
  lemma PassBarrier(s: Surface, i: nat, k: nat) returns (more: seq<Action>)
    requires Sound(s, i) && k < |s.tasks| && k != i && s.tasks[k].Show?
    requires s.tasks[k].barrier != Some(i) && s.SettledTask(s.tasks[k].previous)
    ensures Spares(more, i) && Spared(s, Continue(s, more), i)
    ensures var s' := Continue(s, more);
      && !s'.tasks[k].at.Queued? && (s'.tasks[k].at.AtBarrier? ==> s'.SettledTask(s'.tasks[k].barrier))
      && (s.tasks[k].at.Queued? || s.tasks[k].at.AtBarrier? ==> s'.tasks[k].at.AtBarrier?)
      && (!s.tasks[k].at.Queued? && !s.tasks[k].at.AtBarrier? ==> s'.tasks[k] == s.tasks[k])
      && OnlyShow(s, s', k)
  {
    hide Inv;
    var t := s.tasks[k];
    var first := if t.at.Queued? then [Resume(k, true)] else [];
    if t.at.Queued? {
      ContinueOnce(s, Resume(k, true));
    }
    ContinueSpares(s, i, first);
    var s1 := Continue(s, first);
    more := first;
    if s1.tasks[k].at.AtBarrier? && t.barrier.Some? {
      assert HasWaited(s1, k);
      var b := t.barrier.value;
      var rest := SettleHide(s1, i, b);
      more := first + rest;
      ContinueTwice(s, first, rest);
      ContinueSpares(s, i, more);
    }
  }

  lemma SettleShow(s: Surface, i: nat, k: nat) returns (more: seq<Action>)
    requires Sound(s, i) && k < |s.tasks| && k != i && s.tasks[k].Show?
    requires s.tasks[k].barrier != Some(i) && s.SettledTask(s.tasks[k].previous)
    ensures Spares(more, i) && Spared(s, Continue(s, more), i)
    ensures Continue(s, more).tasks[k].at.Settled() && OnlyShow(s, Continue(s, more), k)
  {
    hide Inv, Waits;
    var first := PassBarrier(s, i, k);
    var s1 := Continue(s, first);
    if s1.tasks[k].at.Settled() {
      more := first;
    } else {
      var a := Resume(k, s1.tasks[k].at.InFlight?);
      more := first + [a];
      ContinueTwice(s, first, [a]);
      ContinueOnce(s1, a);
      ContinueSpares(s, i, more);
    }
  }

  ghost predicate NoneBehind(s: Surface, i: nat, n: nat)
    requires n <= |s.tasks|
  {
    forall k :: 0 <= k < n && s.tasks[k].Show? ==> s.tasks[k].barrier != Some(i)
  }

  ghost predicate ShowsSettled(s: Surface, n: nat)
    requires n <= |s.tasks|
  {
    forall k :: 0 <= k < n && s.tasks[k].Show? ==> s.tasks[k].at.Settled()
  }

  lemma PreviousSettled(s: Surface, k: nat)
    requires Waits(s) && k < |s.tasks| && s.tasks[k].Show? && ShowsSettled(s, k)
    ensures s.SettledTask(s.tasks[k].previous)
  {
    assert HasWaited(s, k);
  }

  /** The shows before `n` are brought to rest one after the other. */
  lemma {:induction false} SettleShows(s: Surface, i: nat, n: nat) returns (more: seq<Action>)
    requires Sound(s, i) && n <= |s.tasks| && s.tasks[i].Hide? && NoneBehind(s, i, n)
    ensures Spares(more, i) && Spared(s, Continue(s, more), i)
    ensures ShowsSettled(Continue(s, more), n)
    ensures forall m :: n <= m < |s.tasks| && s.tasks[m].Show? ==> Continue(s, more).tasks[m] == s.tasks[m]
  {
    hide Inv, Waits;
    if n == 0 {
      more := [];
      ContinueSpares(s, i, more);
    } else {
      var first := SettleShows(s, i, n - 1);
      var s1 := Continue(s, first);
      more := first;
      if s.tasks[n - 1].Show? {
        PreviousSettled(s1, n - 1);
        var rest := SettleShow(s1, i, n - 1);
        more := first + rest;
        ContinueTwice(s, first, rest);
        ContinueSpares(s, i, more);
      }
    }
  }

  /** With the shows before it at rest, a current show can go on to its dispatch. */
  lemma IssueShow(s: Surface, i: nat, j: nat) returns (more: seq<Action>)
    requires Sound(s, i) && j < |s.tasks| && j != i && Pending(s, j)
    requires s.tasks[j].barrier != Some(i) && s.SettledTask(s.tasks[j].previous)
    ensures Spares(more, i) && Spared(s, Continue(s, more), i)
    ensures Continue(s, more).tasks[j].at.InFlight?
  {
    hide Inv, Waits;
    var first := PassBarrier(s, i, j);
    var s1 := Continue(s, first);
    var go := Resume(j, true);
    var load := if s1.tasks[j].at.AtBarrier? then [go] else [];
    if s1.tasks[j].at.AtBarrier? {
      ContinueOnce(s1, go);
    }
    var s2 := Continue(s1, load);
    assert s2.tasks[j].at.Loading? && s2.Current(s2.tasks[j]);
    ContinueTwice(s, first, load);
    ContinueTwice(s, first + load, [go]);
    ContinueOnce(s2, go);
    more := first + load + [go];
    ContinueSpares(s, i, more);
  }

  // ----- the exact condition -----

  /** Show `j` waits to be dispatched and still would be. */
  ghost predicate Pending(s: Surface, j: nat)
    requires j < |s.tasks|
  {
    var t := s.tasks[j];
    t.Show? && (t.at.Queued? || t.at.AtBarrier? || t.at.Loading?) && s.Current(t)
  }

  /** After `more`, show `j` has been dispatched and hide `i` is still in flight. */
  ghost predicate Overtakes(run: seq<Action>, more: seq<Action>, i: nat, j: nat) {
    var s := After(run + more);
    && i < |s.tasks| && j < |s.tasks|
    && s.tasks[i].at.InFlight? && s.tasks[j].at.InFlight?
  }

  /** No continuation at all, calls included, lets a show overtake a hide that it
      or an earlier show was queued behind. */
  lemma QueuedBehindNeverOvertakes(run: seq<Action>, more: seq<Action>, i: nat, k: nat, j: nat)
    requires var s := After(run);
      k <= j < |s.tasks| && s.tasks[k].Show? && s.tasks[j].Show? && s.tasks[k].barrier == Some(i)
    ensures !Overtakes(run, more, i, j)
  {
    hide After, Inv, Waits;
    Reachable(run + more);
    WaitsReachable(run + more);
    RunsContinue(run, more);
    ContinueMoves(After(run), more);
    var s' := After(run + more);
    if s'.tasks[j].at.InFlight? {
      QueuedBehindWaits(s', i, k, j);
    }
  }

  lemma {:induction false} ContinueMoves(s: Surface, more: seq<Action>)
    ensures Moves(s, Continue(s, more))
  {
    hide Next;
    if more != [] {
      ContinueMoves(s, more[..|more| - 1]);
      NextMoves(Continue(s, more[..|more| - 1]), more[|more| - 1]);
    }
  }

  lemma NotBehindMayOvertake(run: seq<Action>, i: nat, j: nat) returns (more: seq<Action>)
    requires var s := After(run);
      && i < |s.tasks| && s.tasks[i].Hide? && s.tasks[i].at.InFlight?
      && j < |s.tasks| && Pending(s, j) && NoneBehind(s, i, j + 1)
    ensures Spares(more, i) && Overtakes(run, more, i, j)
  {
    hide After, Inv, Waits;
    Reachable(run);
    WaitsReachable(run);
    var s := After(run);
    var first := SettleShows(s, i, j);
    var s1 := Continue(s, first);
    PreviousSettled(s1, j);
    var rest := IssueShow(s1, i, j);
    more := first + rest;
    ContinueTwice(s, first, rest);
    RunsContinue(run, more);
  }

  /** A show may be dispatched while an older hide is still in flight, by doing no
      more than resuming pending tasks, exactly when no show up to it was queued
      behind that hide. */
  lemma ShowOvertakesHide(run: seq<Action>, i: nat, j: nat)
    requires var s := After(run);
      && i < |s.tasks| && s.tasks[i].Hide? && s.tasks[i].at.InFlight?
      && j < |s.tasks| && Pending(s, j)
    ensures (exists more :: Spares(more, i) && Overtakes(run, more, i, j)) <==>
            NoneBehind(After(run), i, j + 1)
    ensures (exists more :: Overtakes(run, more, i, j)) <==> NoneBehind(After(run), i, j + 1)
  {
    hide After, Overtakes;
    if NoneBehind(After(run), i, j + 1) {
      var more := NotBehindMayOvertake(run, i, j);
      assert Spares(more, i) && Overtakes(run, more, i, j);
    } else {
      var k :| 0 <= k < j + 1 && After(run).tasks[k].Show? && After(run).tasks[k].barrier == Some(i);
      forall more ensures !Overtakes(run, more, i, j) {
        QueuedBehindNeverOvertakes(run, more, i, k, j);
      }
    }
  }
}
