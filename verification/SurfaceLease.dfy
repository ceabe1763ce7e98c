/** The native browser surface: an owner lease, an epoch, a serial queue for
    shows and an immediate path for hides.

    A layout request is a task that runs between awaits. `Surface` is the value
    of the four module variables and of the pending tasks; the class
    `BrowserSurface` updates the same variables in place. */
module SurfaceLease {
  import opened Options

  datatype Bounds = Bounds(x: int, y: int, width: nat, height: nat)

  /** Where a task stands. `Failed` remembers whether the layout command had
      been issued before the failure. */
  datatype Point =
    | Queued        // a show behind the previous show
    | AtBarrier     // a show behind the hide that was latest when it was requested
    | Loading       // loading the native module
    | InFlight      // the layout command was issued
    | Skipped | Completed | Failed(issued: bool)
  {
    predicate Settled() { Skipped? || Completed? || Failed? }
    predicate Issued() { InFlight? || Completed? || this == Failed(true) }
  }

  datatype Task =
    | Hide(owner: nat, epoch: nat, request: nat, at: Point, releasing: bool)
    | Show(owner: nat, epoch: nat, request: nat, at: Point, bounds: Bounds,
           previous: Option<nat>, barrier: Option<nat>)
  {
    function At(p: Point): Task {
      this.(at := p)
    }

    /** The argument of the layout command: bounds to show, nothing to hide. */
    function Layout(): Option<Bounds> {
      if Show? then Some(bounds) else None
    }

    /** The owner that makes this task current. */
    function Lease(): Option<nat> {
      match this
      case Hide(owner, _, _, _, releasing) => if releasing then None else Some(owner)
      case Show(owner, _, _, _, _, _, _) => Some(owner)
    }
  }

  /** The calls made so far. Only an update by a stale owner is `Ignored`. */
  datatype Call = Acquired | HideCalled | ShowCalled | Ignored {
    predicate Invalidates() { Acquired? || HideCalled? }
  }

  /** One issued layout command: its task, its argument, and how many calls preceded it. */
  datatype Issue = Issue(task: nat, bounds: Option<Bounds>, calls: nat)

  /** `calls` and `issued` only record the past. */
  datatype Surface = Surface(
    owner: Option<nat>,
    epoch: nat,
    queue: Option<nat>,
    latestHide: Option<nat>,
    owners: nat,
    tasks: seq<Task>,
    calls: seq<Call>,
    issued: seq<Issue>)
  {
    /** The `current` callback of a task. */
    predicate Current(t: Task) {
      epoch == t.epoch && owner == t.Lease()
    }

    predicate SettledTask(i: Option<nat>) {
      i.None? || (i.value < |tasks| && tasks[i.value].at.Settled())
    }

    function Acquire(): Surface {
      this.(owner := Some(owners), owners := owners + 1, epoch := epoch + 1, calls := calls + [Acquired])
    }

    /** `desktop` is the check for the embedded runtime, made before any await. */
    function HideNow(who: nat, releasing: bool, desktop: bool): Surface {
      var t := Hide(who, epoch + 1, |calls|, if desktop then Loading else Failed(false), releasing);
      this.(epoch := epoch + 1, tasks := tasks + [t], latestHide := Some(|tasks|), calls := calls + [HideCalled])
    }

    function Update(who: nat, bounds: Option<Bounds>, desktop: bool): Surface {
      if owner != Some(who) then this.(calls := calls + [Ignored])
      else if bounds.None? then HideNow(who, false, desktop)
      else
        this.(tasks := tasks + [Show(who, epoch, |calls|, Queued, bounds.value, queue, latestHide)],
              queue := Some(|tasks|),
              calls := calls + [ShowCalled])
    }

    function Release(who: nat, desktop: bool): Surface {
      if owner != Some(who) then this.(calls := calls + [Ignored])
      else this.(owner := None).HideNow(who, true, desktop)
    }

    function Move(i: nat, p: Point): Surface
      requires i < |tasks|
    {
      this.(tasks := tasks[i := tasks[i].At(p)])
    }

    /** Task `i` resumes after its await. `ok` is the outcome of the runtime
        check, of the module import or of the layout command. */
    function Resume(i: nat, ok: bool): Surface {
      if i >= |tasks| then this else
      var t := tasks[i];
      match t.at
      case Queued => if t.Show? && SettledTask(t.previous) then Move(i, AtBarrier) else this
      case AtBarrier =>
        if !(t.Show? && SettledTask(t.barrier)) then this
        else Move(i, if !Current(t) then Skipped else if ok then Loading else Failed(false))
      case Loading =>
        if !ok then Move(i, Failed(false))
        else if !Current(t) then Move(i, Skipped)
        else Move(i, InFlight).(issued := issued + [Issue(i, t.Layout(), |calls|)])
      case InFlight => Move(i, if ok then Completed else Failed(true))
      case _ => this
    }
  }

  const IDLE: Surface := Surface(None, 0, None, None, 0, [], [], [])

  /** The module variables of the browser API and the promises they point to. */
  class BrowserSurface {
    var surfaceOwner: Option<nat>
    var layoutEpoch: nat
    var layoutQueue: Option<nat>
    var latestHide: Option<nat>
    var owners: nat
    var tasks: seq<Task>
    var calls: seq<Call>
    var issued: seq<Issue>

    ghost function View(): Surface
      reads this
    {
      Surface(surfaceOwner, layoutEpoch, layoutQueue, latestHide, owners, tasks, calls, issued)
    }

    constructor ()
      ensures View() == IDLE
    {
      surfaceOwner, layoutEpoch, layoutQueue, latestHide := None, 0, None, None;
      owners, tasks, calls, issued := 0, [], [], [];
    }

    method Acquire() returns (owner: nat)
      modifies this
      ensures owner == old(owners) && View() == old(View()).Acquire()
    {
      owner := owners;
      owners := owners + 1;
      surfaceOwner := Some(owner);
      layoutEpoch := layoutEpoch + 1;
      calls := calls + [Acquired];
    }

    method HideNow(who: nat, releasing: bool, desktop: bool)
      modifies this
      ensures View() == old(View()).HideNow(who, releasing, desktop)
    {
      layoutEpoch := layoutEpoch + 1;
      latestHide := Some(|tasks|);
      tasks := tasks + [Hide(who, layoutEpoch, |calls|, if desktop then Loading else Failed(false), releasing)];
      calls := calls + [HideCalled];
    }

    method Update(who: nat, bounds: Option<Bounds>, desktop: bool)
      modifies this
      ensures View() == old(View()).Update(who, bounds, desktop)
    {
      if surfaceOwner != Some(who) {
        calls := calls + [Ignored];
        return;
      }
      if bounds.None? {
        HideNow(who, false, desktop);
        return;
      }
      var task := Show(who, layoutEpoch, |calls|, Queued, bounds.value, layoutQueue, latestHide);
      layoutQueue := Some(|tasks|);
      tasks := tasks + [task];
      calls := calls + [ShowCalled];
    }

    method Release(who: nat, desktop: bool)
      modifies this
      ensures View() == old(View()).Release(who, desktop)
    {
      if surfaceOwner != Some(who) {
        calls := calls + [Ignored];
        return;
      }
      surfaceOwner := None;
      HideNow(who, true, desktop);
    }

    /** The part of task `i` from the await it is at to its next one. */
    method Resume(i: nat, ok: bool)
      requires i < |tasks|
      modifies this
      ensures View() == old(View()).Resume(i, ok)
    {
      var task := tasks[i];
      match task.at {
        case Queued =>
          if task.Show? && (task.previous.None? || Settled(task.previous.value)) {
            tasks := tasks[i := task.At(AtBarrier)];
          }
        case AtBarrier =>
          if task.Show? && (task.barrier.None? || Settled(task.barrier.value)) {
            tasks := tasks[i := task.At(if !IsCurrent(task) then Skipped else if ok then Loading else Failed(false))];
          }
        case Loading =>
          if !ok {
            tasks := tasks[i := task.At(Failed(false))];
          } else if !IsCurrent(task) {
            tasks := tasks[i := task.At(Skipped)];
          } else {
            tasks := tasks[i := task.At(InFlight)];
            issued := issued + [Issue(i, task.Layout(), |calls|)];
          }
        case InFlight =>
          tasks := tasks[i := task.At(if ok then Completed else Failed(true))];
        case _ =>
      }
    }

    predicate Settled(i: nat)
      reads this
    {
      i < |tasks| && tasks[i].at.Settled()
    }

    predicate IsCurrent(t: Task)
      reads this
    {
      layoutEpoch == t.epoch && surfaceOwner == t.Lease()
    }
  }

  // ----- runs -----

  datatype Action =
    | CallAcquire
    | CallUpdate(who: nat, bounds: Option<Bounds>, desktop: bool)
    | CallRelease(who: nat, desktop: bool)
    | Resume(task: nat, ok: bool)

  function Next(s: Surface, a: Action): Surface {
    match a
    case CallAcquire => s.Acquire()
    case CallUpdate(who, bounds, desktop) => s.Update(who, bounds, desktop)
    case CallRelease(who, desktop) => s.Release(who, desktop)
    case Resume(i, ok) => s.Resume(i, ok)
  }

  function After(run: seq<Action>): Surface {
    if run == [] then IDLE else Next(After(run[..|run| - 1]), run[|run| - 1])
  }

  // ----- invariant -----

  function Invalidations(calls: seq<Call>): nat {
    if calls == [] then 0
    else Invalidations(calls[..|calls| - 1]) + if calls[|calls| - 1].Invalidates() then 1 else 0
  }

  ghost predicate InLog(issued: seq<Issue>, i: nat) {
    exists k :: 0 <= k < |issued| && issued[k].task == i
  }

  /** What holds of the task at `i` alone. */
  ghost predicate TaskOk(s: Surface, i: nat)
    requires i < |s.tasks|
  {
    var t := s.tasks[i];
    && t.request < |s.calls|
    && t.epoch == Invalidations(s.calls[..t.request + 1])
    && t.epoch <= s.epoch
    && (t.epoch == s.epoch ==> s.Current(t))
    && (t.at.Skipped? ==> t.epoch < s.epoch)
    && (t.Hide? ==> !t.at.Queued? && !t.at.AtBarrier? && s.calls[t.request].HideCalled?)
    && (t.Show? ==> s.calls[t.request].ShowCalled?)
    && (t.at.Issued() <==> InLog(s.issued, i))
  }

  /** What holds of an earlier task `i` and a later task `j`. */
  ghost predicate PairOk(s: Surface, i: nat, j: nat)
    requires i < j < |s.tasks|
  {
    var t, u := s.tasks[i], s.tasks[j];
    && t.epoch <= u.epoch
    && t.request < u.request
    && (u.Hide? ==> t.epoch < u.epoch)
    && (t.Show? && u.Show? && !u.at.Queued? ==> t.at.Settled())
    && (t.Hide? && u.Show? && t.epoch == u.epoch ==> u.barrier == Some(i))
    && (t.Hide? && u.Show? && t.epoch == u.epoch && !u.at.Queued? && !u.at.AtBarrier? ==> t.at.Settled())
    && (t.Show? && u.Show? && u.previous.Some? ==> i <= u.previous.value)
    && (t.Show? && u.Show? ==> u.previous.Some? && u.previous.value < j && s.tasks[u.previous.value].Show?)
  }

  ghost predicate Pointers(s: Surface) {
    && s.epoch == Invalidations(s.calls)
    && (s.queue.Some? ==> s.queue.value < |s.tasks| && s.tasks[s.queue.value].Show?)
    && (forall i :: 0 <= i < |s.tasks| && s.tasks[i].Show? ==> s.queue.Some? && i <= s.queue.value)
    && (forall i :: 0 <= i < |s.tasks| && s.tasks[i].Hide? && s.tasks[i].epoch == s.epoch ==>
          s.latestHide == Some(i))
  }

  ghost predicate Log(s: Surface) {
    && (forall k :: 0 <= k < |s.issued| ==>
          && s.issued[k].task < |s.tasks|
          && s.tasks[s.issued[k].task].request < s.issued[k].calls <= |s.calls|
          && s.tasks[s.issued[k].task].epoch == Invalidations(s.calls[..s.issued[k].calls]))
    && (forall k, l :: 0 <= k < l < |s.issued| ==> s.issued[k].task < s.issued[l].task)
  }

  ghost predicate Inv(s: Surface) {
    && Pointers(s)
    && Log(s)
    && (forall i :: 0 <= i < |s.tasks| ==> TaskOk(s, i))
    && (forall i, j :: 0 <= i < j < |s.tasks| ==> PairOk(s, i, j))
  }

  // ----- proof that every action keeps it -----

  lemma LogGrows(issued: seq<Issue>, e: Issue)
    ensures forall i: nat :: InLog(issued + [e], i) <==> InLog(issued, i) || i == e.task
  {
    forall i: nat ensures InLog(issued + [e], i) <==> InLog(issued, i) || i == e.task {
      if InLog(issued, i) {
        var k :| 0 <= k < |issued| && issued[k].task == i;
        assert (issued + [e])[k].task == i;
      }
      assert (issued + [e])[|issued|] == e;
    }
  }

  lemma CallsGrow(calls: seq<Call>, c: Call)
    ensures Invalidations(calls + [c]) == Invalidations(calls) + if c.Invalidates() then 1 else 0
    ensures forall n :: 0 <= n <= |calls| ==> (calls + [c])[..n] == calls[..n]
  {
    assert (calls + [c])[..|calls|] == calls;
  }

  /** Task `i` may go to point `p` without issuing a command. */
  ghost predicate MayMove(s: Surface, i: nat, p: Point)
    requires i < |s.tasks|
  {
    var t := s.tasks[i];
    && !t.at.Settled()
    && !p.Queued?
    && (p.AtBarrier? ==> t.at.Queued?)
    && (t.at.Issued() <==> p.Issued())
    && (p.Skipped? ==> t.epoch < s.epoch)
    && (t.at.Queued? ==> t.Show? && p.AtBarrier? && s.SettledTask(t.previous))
    && (t.at.AtBarrier? ==> t.Show? && s.SettledTask(t.barrier))
  }

  lemma MoveKeepsPairs(s: Surface, i: nat, p: Point, j: nat, k: nat)
    requires Inv(s) && i < |s.tasks| && MayMove(s, i, p) && j < k < |s.tasks|
    ensures PairOk(s.Move(i, p), j, k)
  {
    assert PairOk(s, j, k) && TaskOk(s, i);
    if k == i && s.tasks[k].Show? && s.tasks[k].previous.Some? {
      var q := s.tasks[k].previous.value;
      if j < q < k {
        assert PairOk(s, j, q);
      }
    }
  }

  lemma MoveKeeps(s: Surface, i: nat, p: Point)
    requires Inv(s) && i < |s.tasks| && MayMove(s, i, p)
    ensures Inv(s.Move(i, p))
  {
    var s' := s.Move(i, p);
    forall j | 0 <= j < |s.tasks| ensures TaskOk(s', j) {
      assert TaskOk(s, j) && TaskOk(s, i);
    }
    forall j, k | 0 <= j < k < |s.tasks| ensures PairOk(s', j, k) {
      MoveKeepsPairs(s, i, p, j, k);
    }
  }

  /** The task that issues now comes after every task that issued before. */
  lemma IssueIsNewest(s: Surface, i: nat, k: nat)
    requires Inv(s) && i < |s.tasks| && s.tasks[i].at.Loading? && s.tasks[i].epoch == s.epoch
    requires k < |s.issued|
    ensures s.issued[k].task < i
  {
    var j := s.issued[k].task;
    assert InLog(s.issued, j) && TaskOk(s, j) && TaskOk(s, i);
    assert i < j ==> PairOk(s, i, j);
  }

  lemma IssueKeeps(s: Surface, i: nat)
    requires Inv(s) && i < |s.tasks| && s.tasks[i].at.Loading? && s.tasks[i].epoch == s.epoch
    ensures Inv(s.Move(i, InFlight).(issued := s.issued + [Issue(i, s.tasks[i].Layout(), |s.calls|)]))
  {
    var s' := s.Move(i, InFlight).(issued := s.issued + [Issue(i, s.tasks[i].Layout(), |s.calls|)]);
    LogGrows(s.issued, Issue(i, s.tasks[i].Layout(), |s.calls|));
    forall k | 0 <= k < |s.issued| ensures s.issued[k].task < i {
      IssueIsNewest(s, i, k);
    }
    assert TaskOk(s, i);
    assert s.calls[..|s.calls|] == s.calls;
    forall j | 0 <= j < |s.tasks| ensures TaskOk(s', j) {
      assert TaskOk(s, j);
    }
    forall j, k | 0 <= j < k < |s.tasks| ensures PairOk(s', j, k) {
      assert PairOk(s, j, k);
    }
  }

  lemma ResumeKeeps(s: Surface, i: nat, ok: bool)
    requires Inv(s)
    ensures Inv(s.Resume(i, ok))
  {
    if i < |s.tasks| {
      hide Inv;
      var t := s.tasks[i];
      EpochDecides(s, i);
      match t.at
      case Queued => if t.Show? && s.SettledTask(t.previous) { MoveKeeps(s, i, AtBarrier); }
      case AtBarrier =>
        if t.Show? && s.SettledTask(t.barrier) {
          MoveKeeps(s, i, if !s.Current(t) then Skipped else if ok then Loading else Failed(false));
        }
      case Loading =>
        if !ok {
          MoveKeeps(s, i, Failed(false));
        } else if !s.Current(t) {
          MoveKeeps(s, i, Skipped);
        } else {
          IssueKeeps(s, i);
        }
      case InFlight => MoveKeeps(s, i, if ok then Completed else Failed(true));
      case _ =>
    }
  }

  /** The owner condition of a task never decides alone: a task is current
      exactly when its epoch is, and an old epoch is smaller. */
  lemma EpochDecides(s: Surface, i: nat)
    requires Inv(s) && i < |s.tasks|
    ensures s.Current(s.tasks[i]) <==> s.tasks[i].epoch == s.epoch
    ensures s.tasks[i].epoch <= s.epoch
  {
    assert TaskOk(s, i);
  }

  lemma EpochsBounded(s: Surface)
    requires Inv(s)
    ensures forall i :: 0 <= i < |s.tasks| ==> s.tasks[i].epoch <= s.epoch
  {
    forall i | 0 <= i < |s.tasks| ensures s.tasks[i].epoch <= s.epoch {
      assert TaskOk(s, i);
    }
  }

  lemma AcquireKeeps(s: Surface)
    requires Inv(s)
    ensures Inv(s.Acquire())
  {
    var s' := s.Acquire();
    CallsGrow(s.calls, Acquired);
    EpochsBounded(s);
    forall j | 0 <= j < |s.tasks| ensures TaskOk(s', j) {
      assert TaskOk(s, j);
    }
    forall j, k | 0 <= j < k < |s.tasks| ensures PairOk(s', j, k) {
      assert PairOk(s, j, k);
    }
  }

  lemma IgnoredKeeps(s: Surface)
    requires Inv(s)
    ensures Inv(s.(calls := s.calls + [Ignored]))
  {
    var s' := s.(calls := s.calls + [Ignored]);
    CallsGrow(s.calls, Ignored);
    forall j | 0 <= j < |s.tasks| ensures TaskOk(s', j) {
      assert TaskOk(s, j);
    }
    forall j, k | 0 <= j < k < |s.tasks| ensures PairOk(s', j, k) {
      assert PairOk(s, j, k);
    }
  }

  /** `o` is the owner before the hide: a release has already given the lease up. */
  lemma HideKeeps(s: Surface, o: Option<nat>, who: nat, releasing: bool, desktop: bool)
    requires Inv(s.(owner := o)) && s.owner == if releasing then None else Some(who)
    ensures Inv(s.HideNow(who, releasing, desktop))
  {
    var s' := s.HideNow(who, releasing, desktop);
    var s0 := s.(owner := o);
    EpochsBounded(s0);
    CallsGrow(s.calls, HideCalled);
    assert s'.calls[..|s.calls| + 1] == s'.calls;
    NotYetInLog(s0);
    forall j | 0 <= j < |s.tasks| ensures TaskOk(s', j) {
      assert TaskOk(s0, j);
    }
    forall j, k | 0 <= j < k <= |s.tasks| ensures PairOk(s', j, k) {
      assert TaskOk(s0, j);
      if k < |s.tasks| {
        assert PairOk(s0, j, k);
      }
    }
  }

  lemma NotYetInLog(s: Surface)
    requires Inv(s)
    ensures !InLog(s.issued, |s.tasks|)
  {
  }

  lemma ShowKeeps(s: Surface, who: nat, bounds: Bounds, desktop: bool)
    requires Inv(s) && s.owner == Some(who)
    ensures Inv(s.Update(who, Some(bounds), desktop))
  {
    var s' := s.Update(who, Some(bounds), desktop);
    CallsGrow(s.calls, ShowCalled);
    assert s'.calls[..|s.calls| + 1] == s'.calls;
    NotYetInLog(s);
    forall j | 0 <= j < |s.tasks| ensures TaskOk(s', j) {
      assert TaskOk(s, j);
    }
    forall j, k | 0 <= j < k <= |s.tasks| ensures PairOk(s', j, k) {
      assert TaskOk(s, j);
      if k < |s.tasks| {
        assert PairOk(s, j, k);
      }
    }
  }

  lemma NextKeeps(s: Surface, a: Action)
    requires Inv(s)
    ensures Inv(Next(s, a))
  {
    hide Inv;
    IgnoredKeeps(s);
    match a
    case CallAcquire => AcquireKeeps(s);
    case CallUpdate(who, bounds, desktop) =>
      if s.owner == Some(who) {
        if bounds.None? {
          assert s.(owner := s.owner) == s;
          HideKeeps(s, s.owner, who, false, desktop);
        } else {
          ShowKeeps(s, who, bounds.value, desktop);
        }
      }
    case CallRelease(who, desktop) =>
      if s.owner == Some(who) {
        assert s.(owner := None).(owner := s.owner) == s;
        HideKeeps(s.(owner := None), s.owner, who, true, desktop);
      }
    case Resume(i, ok) => ResumeKeeps(s, i, ok);
  }

  lemma {:induction false} Reachable(run: seq<Action>)
    ensures Inv(After(run))
  {
    hide Inv, Next;
    if run == [] {
      StartOk();
    } else {
      Reachable(run[..|run| - 1]);
      NextKeeps(After(run[..|run| - 1]), run[|run| - 1]);
    }
  }

  lemma StartOk()
    ensures Inv(IDLE)
  {
  }

  // ----- what holds over every run -----

  lemma {:induction false} NoneInvalidatesBetween(calls: seq<Call>, a: nat, b: nat)
    requires a <= b <= |calls|
    ensures Invalidations(calls[..a]) <= Invalidations(calls[..b])
    ensures Invalidations(calls[..a]) == Invalidations(calls[..b]) <==>
            forall c :: a <= c < b ==> !calls[c].Invalidates()
  {
    if a < b {
      NoneInvalidatesBetween(calls, a, b - 1);
      assert calls[..b][..b - 1] == calls[..b - 1];
    }
  }

  /** A layout command is issued only while no acquire, hide or release has
      happened since it was requested. */
  lemma NoLayoutIsStale(run: seq<Action>, k: nat)
    requires k < |After(run).issued|
    ensures var s := After(run); var e := s.issued[k];
            && e.task < |s.tasks|
            && s.tasks[e.task].request < e.calls <= |s.calls|
            && (forall c :: s.tasks[e.task].request < c < e.calls ==> !s.calls[c].Invalidates())
  {
    Reachable(run);
    var s := After(run);
    var e := s.issued[k];
    assert TaskOk(s, e.task);
    NoneInvalidatesBetween(s.calls, s.tasks[e.task].request + 1, e.calls);
  }

  /** Commands, hides and shows alike, are issued in the order in which they
      were requested, and each request issues at most one. */
  lemma LayoutsIssueInOrder(run: seq<Action>, k: nat, l: nat)
    requires k < l < |After(run).issued|
    ensures var s := After(run); var t, u := s.issued[k].task, s.issued[l].task;
            t < u < |s.tasks| && s.tasks[t].request < s.tasks[u].request
  {
    Reachable(run);
    var s := After(run);
    assert PairOk(s, s.issued[k].task, s.issued[l].task);
  }

  /** When everything has settled, the last request is the last command issued,
      provided it did not fail and every later call was ignored. */
  lemma LastRequestWins(run: seq<Action>)
    requires var s := After(run);
             && |s.tasks| > 0
             && (forall i :: 0 <= i < |s.tasks| ==> s.tasks[i].at.Settled())
             && !s.tasks[|s.tasks| - 1].at.Failed?
             && (forall c :: s.tasks[|s.tasks| - 1].request < c < |s.calls| ==> s.calls[c].Ignored?)
    ensures var s := After(run);
            |s.issued| > 0 && s.issued[|s.issued| - 1].task == |s.tasks| - 1
  {
    hide After, PairOk;
    Reachable(run);
    var s := After(run);
    var last := |s.tasks| - 1;
    assert TaskOk(s, last);
    NoneInvalidatesBetween(s.calls, s.tasks[last].request + 1, |s.calls|);
    assert s.calls[..|s.calls|] == s.calls;
    assert s.tasks[last].at.Completed?;
    var k :| 0 <= k < |s.issued| && s.issued[k].task == last;
    assert s.issued[|s.issued| - 1].task <= last;
  }

  /** An older hide may still be in flight when a show is issued: the show waits
      only for the hide that was latest when it was requested. */
  lemma OlderHideMayStillRun()
    ensures exists run :: var s := After(run);
              && |s.tasks| == 3 && s.tasks[0].Hide? && s.tasks[0].at.InFlight?
              && s.tasks[2].Show? && s.tasks[2].at.InFlight?
  {
    var b := Bounds(0, 0, 1, 1);
    var r1 := [CallAcquire];
    var r2 := r1 + [CallUpdate(0, None, true)];
    var r3 := r2 + [Resume(0, true)];
    var r4 := r3 + [CallUpdate(0, None, true)];
    var r5 := r4 + [Resume(1, true)];
    var r6 := r5 + [Resume(1, true)];
    var r7 := r6 + [CallUpdate(0, Some(b), true)];
    var r8 := r7 + [Resume(2, true)];
    var r9 := r8 + [Resume(2, true)];
    var r10 := r9 + [Resume(2, true)];
    assert After(r1) == Next(IDLE, CallAcquire);
    Extend(r1, CallUpdate(0, None, true));
    Extend(r2, Resume(0, true));
    Extend(r3, CallUpdate(0, None, true));
    Extend(r4, Resume(1, true));
    assert After(r5).tasks[1].at.InFlight?;
    Extend(r5, Resume(1, true));
    assert After(r6).tasks[1].at.Completed?;
    Extend(r6, CallUpdate(0, Some(b), true));
    Extend(r7, Resume(2, true));
    assert After(r8).tasks[2].at.AtBarrier?;
    Extend(r8, Resume(2, true));
    assert After(r9).tasks[2].at.Loading?;
    Extend(r9, Resume(2, true));
    assert |After(r10).tasks| == 3 && After(r10).tasks[0].Hide? && After(r10).tasks[0].at.InFlight?;
  }

  lemma Extend(run: seq<Action>, a: Action)
    ensures After(run + [a]) == Next(After(run), a)
  {
    assert (run + [a])[..|run|] == run;
  }
}
