/** Embedded browser tabs: the shared snapshot, the lock-held changes made to it
    by serialized commands and by native events, and page captures. */
module BrowserTabs {
  import opened Options

  const MAX_TABS: nat := 12
  /** The page every tab starts on, and the title shown for it. */
  const BLANK := "about:blank"
  const NEW_TAB := "\U{65B0}\U{6807}\U{7B7E}\U{9875}"
  const TITLE_LIMIT: nat := 512

  datatype Tab = Tab(
    id: string, url: string, title: string, loading: bool, canGoBack: bool, canGoForward: bool,
    error: Option<string>, navigationId: nat)

  datatype Snapshot = Snapshot(tabs: seq<Tab>, active: Option<string>, revision: nat)

  /** The first tab with this identity, or the length when there is none. */
  function Position(tabs: seq<Tab>, id: string): (p: nat)
    ensures p <= |tabs| && (p < |tabs| ==> tabs[p].id == id)
    ensures forall i :: 0 <= i < p ==> tabs[i].id != id
  {
    if tabs == [] || tabs[0].id == id then 0 else 1 + Position(tabs[1..], id)
  }

  predicate Has(tabs: seq<Tab>, id: string) {
    Position(tabs, id) < |tabs|
  }

  // ----- the changes -----

  datatype Change =
    | Push(id: string)
    | Activate(id: string)
    | Remove(id: string)
    | NavigationStarting(id: string, navigationId: nat)
    | NavigationCompleted(id: string, navigationId: nat, cancelled: bool, failure: Option<string>)
    | Refresh(id: string, url: Option<string>, title: Option<string>, back: bool, forward: bool)
    | ProcessFailed(id: string, message: string)
    | NavigationBlocked(id: string, message: string)
    | Stopped(id: string)

  function NewTab(id: string): Tab {
    Tab(id, BLANK, NEW_TAB, false, false, false, None, 0)
  }

  function ShownTitle(title: string): string {
    if title == "" || title == BLANK then NEW_TAB
    else if |title| > TITLE_LIMIT then title[..TITLE_LIMIT] else title
  }

  /** What a change to one tab makes of that tab. */
  function Updated(tab: Tab, change: Change): Tab {
    match change
    case NavigationStarting(_, nav) => tab.(navigationId := nav, loading := true, error := None)
    case NavigationCompleted(_, nav, cancelled, failure) =>
      if tab.navigationId != nav then tab
      else if cancelled then tab.(loading := false)
      else tab.(loading := false, error := failure)
    case Refresh(_, url, title, back, forward) =>
      tab.(url := if url.Some? then url.value else tab.url,
           title := if title.Some? then ShownTitle(title.value) else tab.title,
           canGoBack := back, canGoForward := forward)
    case ProcessFailed(_, message) => tab.(loading := false, error := Some(message))
    case NavigationBlocked(_, message) => tab.(loading := false, error := Some(message))
    case Stopped(_) => tab.(loading := false)
    case _ => tab
  }

  function Without(s: Snapshot, id: string): Snapshot {
    var p := Position(s.tabs, id);
    if p == |s.tabs| then s
    else
      var tabs := s.tabs[..p] + s.tabs[p + 1..];
      Snapshot(
        tabs,
        if s.active != Some(id) then s.active
        else if tabs == [] then None
        else Some(tabs[if p < |tabs| then p else |tabs| - 1].id),
        s.revision)
  }

  function Applied(s: Snapshot, change: Change): Snapshot {
    match change
    case Push(id) => s.(tabs := s.tabs + [NewTab(id)])
    case Activate(id) => s.(active := Some(id))
    case Remove(id) => Without(s, id)
    case _ =>
      var p := Position(s.tabs, change.id);
      if p == |s.tabs| then s else s.(tabs := s.tabs[p := Updated(s.tabs[p], change)])
  }

  /** The revision moves exactly when the snapshot differs. */
  function Bumped(before: Snapshot, after: Snapshot): Snapshot {
    if before == after then before else after.(revision := after.revision + 1)
  }

  function Committed(s: Snapshot, change: Change): Snapshot {
    Bumped(s, Applied(s, change))
  }

  // ----- the shared state -----

  class BrowserState {
    var snapshot: Snapshot

    constructor ()
      ensures snapshot == Snapshot([], None, 0)
    {
      snapshot := Snapshot([], None, 0);
    }

    method SnapshotMutation(update: Snapshot -> Snapshot) returns (result: Snapshot)
      modifies this
      ensures snapshot == result == Bumped(old(snapshot), update(old(snapshot)))
    {
      var before := snapshot;
      snapshot := update(snapshot);
      if before == snapshot {
        return before;
      }
      snapshot := snapshot.(revision := snapshot.revision + 1);
      result := snapshot;
    }

    /** Changes the first tab with this identity, if there is one. */
    method UpdateTab(id: string, update: Tab -> Tab)
      modifies this
      ensures var p := Position(old(snapshot.tabs), id);
        snapshot == Bumped(old(snapshot),
          if p == |old(snapshot.tabs)| then old(snapshot)
          else old(snapshot).(tabs := old(snapshot.tabs)[p := update(old(snapshot.tabs)[p])]))
    {
      var _ := SnapshotMutation((s: Snapshot) =>
        var p := Position(s.tabs, id);
        if p == |s.tabs| then s else s.(tabs := s.tabs[p := update(s.tabs[p])]));
    }

    method OnNavigationStarting(id: string, navigationId: nat)
      modifies this
      ensures snapshot == Committed(old(snapshot), NavigationStarting(id, navigationId))
    {
      UpdateTab(id, (tab: Tab) => tab.(navigationId := navigationId, loading := true, error := None));
    }

    method OnNavigationCompleted(id: string, navigationId: nat, success: bool, cancelled: bool, message: string)
      modifies this
      ensures snapshot == Committed(old(snapshot),
        NavigationCompleted(id, navigationId, cancelled, if success then None else Some(message)))
    {
      UpdateTab(id, (tab: Tab) =>
        if tab.navigationId != navigationId then tab
        else
          var stopped := tab.(loading := false);
          if !cancelled then stopped.(error := if success then None else Some(message)) else stopped);
    }

    method OnRefresh(id: string, url: Option<string>, title: Option<string>, back: bool, forward: bool)
      modifies this
      ensures snapshot == Committed(old(snapshot), Refresh(id, url, title, back, forward))
    {
      hide Position, ShownTitle;
      UpdateTab(id, (tab: Tab) =>
        var located := if url.Some? then tab.(url := url.value) else tab;
        var titled := if title.Some? then located.(title := ShownTitle(title.value)) else located;
        titled.(canGoBack := back, canGoForward := forward));
    }

    method OnProcessFailed(id: string, message: string)
      modifies this
      ensures snapshot == Committed(old(snapshot), ProcessFailed(id, message))
    {
      UpdateTab(id, (tab: Tab) => tab.(loading := false, error := Some(message)));
    }

    method RequireTab(id: string) returns (ok: bool)
      ensures ok <==> exists tab :: tab in snapshot.tabs && tab.id == id
    {
      var p := Position(snapshot.tabs, id);
      ok := p < |snapshot.tabs|;
    }

    method SetActive(id: string)
      modifies this
      ensures snapshot == Committed(old(snapshot), Activate(id))
    {
      var _ := SnapshotMutation((s: Snapshot) => s.(active := Some(id)));
    }

    method PushTab(id: string)
      modifies this
      ensures snapshot == Committed(old(snapshot), Push(id))
    {
      var _ := SnapshotMutation((s: Snapshot) => s.(tabs := s.tabs + [NewTab(id)]));
    }

    method RemoveTab(id: string)
      modifies this
      ensures snapshot == Committed(old(snapshot), Remove(id))
    {
      var _ := SnapshotMutation((s: Snapshot) => Without(s, id));
    }
  }

  // ----- captures -----

  /** capture_target; `allowed` says whether the address parses and is not protected. */
  function CaptureTarget(s: Snapshot, id: string, allowed: bool): Option<Tab> {
    var p := Position(s.tabs, id);
    if s.active != Some(id) || p == |s.tabs| then None
    else if s.tabs[p].loading || s.tabs[p].error.Some? || !allowed then None
    else Some(s.tabs[p])
  }

  predicate SameDocument(expected: Tab, current: Tab) {
    expected.url == current.url && expected.navigationId == current.navigationId
  }

  // ----- commands and native events -----

  /** The command holding the operations lock. */
  datatype Command =
    | Idle
    | LimitChecked(id: string)
    | Pushed(id: string)
    | Shown(id: string)
    | Activating(id: string)
    | Closing(id: string)
    | Capturing(id: string, target: Tab, mark: nat)

  datatype Start = Start(id: string, navigationId: nat)

  /** A capture that succeeded: the tab at its first check, and how many
      navigations had started by its first and second check. */
  datatype Capture = Capture(target: Tab, since: nat, until: nat)

  /** `used` holds every identity ever generated, `starts` every navigation start
      that reached a tab. */
  datatype World = World(
    snapshot: Snapshot, command: Command, used: set<string>, starts: seq<Start>, captures: seq<Capture>)

  datatype Action =
    | Native(change: Change)
    | BeginCreate(id: string)
    | PushNew
    | ShowNew
    | FinishCreate(ok: bool)
    | BeginActivate(id: string)
    | BeginClose(id: string)
    | FinishCommand(ok: bool)
    | BeginCapture(id: string, allowed: bool)
    | FinishCapture(allowed: bool)

  predicate FromPage(change: Change) {
    !change.Push? && !change.Activate? && !change.Remove?
  }

  function Commit(w: World, change: Change): World {
    w.(snapshot := Committed(w.snapshot, change),
       starts := if change.NavigationStarting? && Has(w.snapshot.tabs, change.id)
                 then w.starts + [Start(change.id, change.navigationId)] else w.starts)
  }

  /** One atomic step. An action that is not enabled changes nothing. */
  function Step(w: World, a: Action): World {
    match a
    case Native(change) => if FromPage(change) then Commit(w, change) else w
    case BeginCreate(id) =>
      if w.command.Idle? && |w.snapshot.tabs| < MAX_TABS && id !in w.used
      then w.(command := LimitChecked(id), used := w.used + {id}) else w
    case PushNew =>
      if w.command.LimitChecked? then Commit(w, Push(w.command.id)).(command := Pushed(w.command.id)) else w
    case ShowNew =>
      if w.command.Pushed? then Commit(w, Activate(w.command.id)).(command := Shown(w.command.id)) else w
    case FinishCreate(ok) =>
      if w.command.Shown? && ok then w.(command := Idle)
      else if w.command.LimitChecked? && !ok then w.(command := Idle)
      else if (w.command.Pushed? || w.command.Shown?) && !ok
      then Commit(w, Remove(w.command.id)).(command := Idle)
      else w
    case BeginActivate(id) =>
      if w.command.Idle? && Has(w.snapshot.tabs, id) then w.(command := Activating(id)) else w
    case BeginClose(id) =>
      if w.command.Idle? && Has(w.snapshot.tabs, id) then w.(command := Closing(id)) else w
    case FinishCommand(ok) =>
      if w.command.Activating? then Commit(w, Activate(w.command.id)).(command := Idle)
      else if w.command.Closing? && ok then Commit(w, Remove(w.command.id)).(command := Idle)
      else if w.command.Closing? then w.(command := Idle)
      else w
    case BeginCapture(id, allowed) =>
      var target := CaptureTarget(w.snapshot, id, allowed);
      if w.command.Idle? && target.Some? then w.(command := Capturing(id, target.value, |w.starts|)) else w
    case FinishCapture(allowed) =>
      if !w.command.Capturing? then w
      else
        var current := CaptureTarget(w.snapshot, w.command.id, allowed);
        if current.Some? && SameDocument(w.command.target, current.value)
        then w.(command := Idle, captures := w.captures + [Capture(w.command.target, w.command.mark, |w.starts|)])
        else w.(command := Idle)
  }

  function After(actions: seq<Action>): World {
    if actions == [] then World(Snapshot([], None, 0), Idle, {}, [], [])
    else Step(After(actions[..|actions| - 1]), actions[|actions| - 1])
  }

  // ----- what every reachable world satisfies -----

  /** At most twelve tabs, no identity twice, and the active one is a tab. */
  ghost predicate Good(s: Snapshot) {
    && |s.tabs| <= MAX_TABS
    && (forall i, j :: 0 <= i < j < |s.tabs| ==> s.tabs[i].id != s.tabs[j].id)
    && (s.active.Some? ==> Has(s.tabs, s.active.value))
  }

  /** One past the last navigation started in a tab, 0 when none was. */
  function LastIndex(starts: seq<Start>, id: string): (r: nat)
    ensures r <= |starts| && (r > 0 ==> starts[r - 1].id == id)
    ensures forall k :: r <= k < |starts| ==> starts[k].id != id
  {
    if starts == [] || starts[|starts| - 1].id == id then |starts| else LastIndex(starts[..|starts| - 1], id)
  }

  /** The identity of the last navigation started in a tab, 0 when none was. */
  function LastStart(starts: seq<Start>, id: string): nat {
    var r := LastIndex(starts, id);
    if r == 0 then 0 else starts[r - 1].navigationId
  }

  ghost predicate Known(w: World) {
    && (forall i :: 0 <= i < |w.snapshot.tabs| ==> w.snapshot.tabs[i].id in w.used)
    && (forall k :: 0 <= k < |w.starts| ==> w.starts[k].id in w.used)
  }

  ghost predicate Tracked(w: World) {
    forall i :: 0 <= i < |w.snapshot.tabs| ==>
      w.snapshot.tabs[i].navigationId == LastStart(w.starts, w.snapshot.tabs[i].id)
  }

  ghost predicate CommandOk(w: World) {
    match w.command
    case Idle => true
    case LimitChecked(id) =>
      && |w.snapshot.tabs| < MAX_TABS && id in w.used && !Has(w.snapshot.tabs, id)
      && (forall k :: 0 <= k < |w.starts| ==> w.starts[k].id != id)
    case Capturing(id, target, mark) =>
      && Has(w.snapshot.tabs, id) && target.id == id && mark <= |w.starts|
      && target.navigationId == LastStart(w.starts[..mark], id)
    case _ => Has(w.snapshot.tabs, w.command.id)
  }

  ghost predicate CaptureOk(starts: seq<Start>, c: Capture) {
    && c.since <= c.until <= |starts|
    && c.target.navigationId == LastStart(starts[..c.since], c.target.id)
    && c.target.navigationId == LastStart(starts[..c.until], c.target.id)
  }

  ghost predicate Inv(w: World) {
    && Good(w.snapshot) && Known(w) && Tracked(w) && CommandOk(w)
    && (forall k :: 0 <= k < |w.captures| ==> CaptureOk(w.starts, w.captures[k]))
  }

  // ----- how a change moves the tabs -----

  lemma PageChangeKeepsIds(s: Snapshot, change: Change)
    requires FromPage(change)
    ensures var next := Committed(s, change);
      && |next.tabs| == |s.tabs| && next.active == s.active
      && (forall i :: 0 <= i < |s.tabs| ==> next.tabs[i].id == s.tabs[i].id)
      && (forall i :: 0 <= i < |s.tabs| ==>
            next.tabs[i] == if i == Position(s.tabs, change.id) then Updated(s.tabs[i], change) else s.tabs[i])
  {
  }

  lemma SameIdsSamePosition(a: seq<Tab>, b: seq<Tab>, id: string)
    requires |a| == |b| && forall i :: 0 <= i < |a| ==> a[i].id == b[i].id
    ensures Position(a, id) == Position(b, id)
  {
  }

  lemma CutKeepsOthers(tabs: seq<Tab>, p: nat)
    requires p < |tabs| && forall i, j :: 0 <= i < j < |tabs| ==> tabs[i].id != tabs[j].id
    ensures var cut := tabs[..p] + tabs[p + 1..];
      && (forall i, j :: 0 <= i < j < |cut| ==> cut[i].id != cut[j].id)
      && !Has(cut, tabs[p].id)
      && (forall other :: other != tabs[p].id ==> (Has(cut, other) <==> Has(tabs, other)))
  {
    var cut := tabs[..p] + tabs[p + 1..];
    assert forall i :: 0 <= i < |cut| ==> cut[i] == tabs[if i < p then i else i + 1];
    forall other | other != tabs[p].id && Has(tabs, other) ensures Has(cut, other) {
      var q := Position(tabs, other);
      assert cut[if q < p then q else q - 1].id == other;
    }
  }

  /** Closing a tab takes out that tab only; the others keep their order. If it
      was active, the tab that took its place becomes active, or the last one. */
  lemma RemovalPicksNeighbour(s: Snapshot, id: string)
    requires Good(s)
    ensures var next, p := Without(s, id), Position(s.tabs, id);
      && Good(next) && !Has(next.tabs, id)
      && (p == |s.tabs| ==> next == s)
      && (p < |s.tabs| ==> next.tabs == s.tabs[..p] + s.tabs[p + 1..])
      && (s.active != Some(id) ==> next.active == s.active)
      && (s.active == Some(id) && p + 1 < |s.tabs| ==> next.active == Some(s.tabs[p + 1].id))
      && (s.active == Some(id) && p > 0 && p + 1 == |s.tabs| ==> next.active == Some(s.tabs[p - 1].id))
      && (s.active == Some(id) && |s.tabs| == 1 ==> next.active == None)
      && (forall other :: other != id ==> (Has(next.tabs, other) <==> Has(s.tabs, other)))
  {
    var next, p := Without(s, id), Position(s.tabs, id);
    if p < |s.tabs| {
      CutKeepsOthers(s.tabs, p);
      if next.tabs != [] && s.active == Some(id) {
        var heir := if p < |next.tabs| then p else |next.tabs| - 1;
        assert next.active == Some(next.tabs[heir].id) && Has(next.tabs, next.tabs[heir].id);
      }
    }
  }

  // ----- every step keeps the invariant -----

  lemma LastStartOfPrefix(starts: seq<Start>, more: seq<Start>, id: string)
    requires forall k :: 0 <= k < |more| ==> more[k].id != id
    ensures LastStart(starts + more, id) == LastStart(starts, id)
  {
    var all := starts + more;
    forall k | LastIndex(starts, id) <= k < |all| ensures all[k].id != id {
    }
    var r := LastIndex(starts, id);
    assert r > 0 ==> all[r - 1].id == id;
  }

  lemma NoStartNoIdentity(starts: seq<Start>, id: string)
    requires forall k :: 0 <= k < |starts| ==> starts[k].id != id
    ensures LastStart(starts, id) == 0
  {
  }

  lemma CapturesStay(starts: seq<Start>, more: seq<Start>, captures: seq<Capture>)
    requires forall k :: 0 <= k < |captures| ==> CaptureOk(starts, captures[k])
    ensures forall k :: 0 <= k < |captures| ==> CaptureOk(starts + more, captures[k])
  {
    forall k | 0 <= k < |captures| ensures CaptureOk(starts + more, captures[k]) {
      var c := captures[k];
      assert CaptureOk(starts, c);
      assert (starts + more)[..c.since] == starts[..c.since] && (starts + more)[..c.until] == starts[..c.until];
    }
  }

  lemma NativeKeepsTracked(w: World, change: Change)
    requires Inv(w) && FromPage(change)
    ensures Tracked(Commit(w, change))
  {
    hide Good, Known, CommandOk, CaptureOk;
    var next := Commit(w, change);
    PageChangeKeepsIds(w.snapshot, change);
    forall i | 0 <= i < |next.snapshot.tabs|
      ensures next.snapshot.tabs[i].navigationId == LastStart(next.starts, next.snapshot.tabs[i].id)
    {
      assert w.snapshot.tabs[i].navigationId == LastStart(w.starts, w.snapshot.tabs[i].id);
      if change.NavigationStarting? && Has(w.snapshot.tabs, change.id) {
        NativeStartTracked(w, change, i);
      }
    }
  }

  lemma NativeStartTracked(w: World, change: Change, i: nat)
    requires Inv(w) && change.NavigationStarting? && Has(w.snapshot.tabs, change.id) && i < |w.snapshot.tabs|
    ensures LastStart(w.starts + [Start(change.id, change.navigationId)], w.snapshot.tabs[i].id) ==
              if i == Position(w.snapshot.tabs, change.id) then change.navigationId
              else LastStart(w.starts, w.snapshot.tabs[i].id)
  {
    var p, more := Position(w.snapshot.tabs, change.id), [Start(change.id, change.navigationId)];
    if i != p {
      assert w.snapshot.tabs[i].id != w.snapshot.tabs[p].id;
      LastStartOfPrefix(w.starts, more, w.snapshot.tabs[i].id);
    }
  }

  lemma NativeKeepsGood(w: World, change: Change)
    requires Inv(w) && FromPage(change)
    ensures var next := Commit(w, change); Good(next.snapshot) && Known(next)
    ensures forall id :: Position(Commit(w, change).snapshot.tabs, id) == Position(w.snapshot.tabs, id)
  {
    hide LastStart, Committed, Tracked, CommandOk, CaptureOk;
    var next := Commit(w, change);
    PageChangeKeepsIds(w.snapshot, change);
    forall id ensures Position(next.snapshot.tabs, id) == Position(w.snapshot.tabs, id) {
      SameIdsSamePosition(w.snapshot.tabs, next.snapshot.tabs, id);
    }
  }

  lemma NativeKeepsInv(w: World, change: Change)
    requires Inv(w) && FromPage(change)
    ensures Inv(Commit(w, change))
  {
    hide LastStart, Committed, Tracked, CaptureOk, Good, Position;
    var next := Commit(w, change);
    NativeKeepsTracked(w, change);
    NativeKeepsGood(w, change);
    PageChangeKeepsIds(w.snapshot, change);
    var more := next.starts[|w.starts|..];
    assert next.starts == w.starts + more;
    CapturesStay(w.starts, more, w.captures);
    if w.command.Capturing? {
      assert next.starts[..w.command.mark] == w.starts[..w.command.mark];
    }
    if w.command.LimitChecked? && next.starts != w.starts {
      assert w.command.id != change.id;
    }
  }

  lemma PushKeepsInv(w: World)
    requires Inv(w) && w.command.LimitChecked?
    ensures Inv(Step(w, PushNew))
  {
    hide CaptureOk;
    var id := w.command.id;
    var next := Step(w, PushNew);
    assert next.snapshot.tabs == w.snapshot.tabs + [NewTab(id)];
    NoStartNoIdentity(w.starts, id);
    assert next.snapshot.tabs[|w.snapshot.tabs|].id == id && Has(next.snapshot.tabs, id);
    assert forall i :: 0 <= i < |w.snapshot.tabs| ==> w.snapshot.tabs[i].id != id;
    if w.snapshot.active.Some? {
      var p := Position(w.snapshot.tabs, w.snapshot.active.value);
      assert next.snapshot.tabs[p].id == w.snapshot.active.value;
    }
  }

  lemma ActivateKeepsGood(w: World, id: string)
    requires Inv(w) && Has(w.snapshot.tabs, id)
    ensures Inv(Commit(w, Activate(id)).(command := Idle))
    ensures var next := Commit(w, Activate(id)).snapshot; next.tabs == w.snapshot.tabs && next.active == Some(id)
  {
    hide CaptureOk, LastStart;
  }

  lemma RemovalKeepsTabs(s: Snapshot, id: string)
    ensures var next := Committed(s, Remove(id)); forall i :: 0 <= i < |next.tabs| ==> next.tabs[i] in s.tabs
  {
  }

  lemma CommittedRemovalIsGood(s: Snapshot, id: string)
    requires Good(s)
    ensures Good(Committed(s, Remove(id)))
  {
    RemovalPicksNeighbour(s, id);
  }

  lemma RemoveKeepsInv(w: World, id: string)
    requires Inv(w)
    ensures Inv(Commit(w, Remove(id)).(command := Idle))
  {
    hide CaptureOk, LastStart, Committed, Good;
    CommittedRemovalIsGood(w.snapshot, id);
    RemovalKeepsTabs(w.snapshot, id);
  }

  lemma CaptureKeepsInv(w: World, a: Action)
    requires Inv(w) && (a.BeginCapture? || a.FinishCapture?)
    ensures Inv(Step(w, a))
  {
    assert w.starts[..|w.starts|] == w.starts;
    var next := Step(w, a);
    if next.captures != w.captures {
      var c := next.captures[|w.captures|];
      var p := Position(w.snapshot.tabs, w.command.id);
      assert w.snapshot.tabs[p].navigationId == LastStart(w.starts, w.snapshot.tabs[p].id);
      assert CaptureOk(next.starts, c);
    }
  }

  lemma StepKeepsInv(w: World, a: Action)
    requires Inv(w)
    ensures Inv(Step(w, a))
  {
    hide CaptureOk, LastStart, Committed, CaptureTarget;
    match a
    case Native(change) => if FromPage(change) { NativeKeepsInv(w, change); }
    case PushNew => if w.command.LimitChecked? { PushKeepsInv(w); }
    case ShowNew => if w.command.Pushed? { ActivateKeepsGood(w, w.command.id); }
    case FinishCreate(ok) => if w.command.Pushed? || w.command.Shown? { RemoveKeepsInv(w, w.command.id); }
    case FinishCommand(ok) =>
      if w.command.Activating? {
        ActivateKeepsGood(w, w.command.id);
      } else if w.command.Closing? {
        RemoveKeepsInv(w, w.command.id);
      }
    case BeginCapture(_, _) => CaptureKeepsInv(w, a);
    case FinishCapture(_) => CaptureKeepsInv(w, a);
    case _ =>
  }

  lemma {:induction false} Reachable(actions: seq<Action>)
    ensures Inv(After(actions))
  {
    hide Step;
    if actions == [] {
      assert Inv(World(Snapshot([], None, 0), Idle, {}, [], []));
    } else {
      Reachable(actions[..|actions| - 1]);
      StepKeepsInv(After(actions[..|actions| - 1]), actions[|actions| - 1]);
    }
  }

  // ----- results -----

  /** However commands and native events interleave, there are at most twelve
      tabs, no two share an identity, and the active one is among them. */
  lemma TabsStayGood(actions: seq<Action>)
    ensures Good(After(actions).snapshot)
  {
    Reachable(actions);
  }

  lemma StepMovesRevision(w: World, a: Action)
    ensures var next := Step(w, a);
      next.snapshot == w.snapshot || next.snapshot.revision == w.snapshot.revision + 1
  {
  }

  /** Within one run the revision identifies the snapshot: it never goes back,
      and two moments have the same revision exactly when nothing changed. */
  lemma {:induction false} RevisionIdentifiesSnapshot(actions: seq<Action>, i: nat, j: nat)
    requires i <= j <= |actions|
    ensures After(actions[..i]).snapshot.revision <= After(actions[..j]).snapshot.revision
    ensures After(actions[..i]).snapshot.revision == After(actions[..j]).snapshot.revision <==>
            After(actions[..i]).snapshot == After(actions[..j]).snapshot
  {
    hide Step;
    if i < j {
      RevisionIdentifiesSnapshot(actions, i, j - 1);
      assert actions[..j][..j - 1] == actions[..j - 1];
      StepMovesRevision(After(actions[..j - 1]), actions[j - 1]);
    }
  }

  /** A navigation of the captured tab started between the two checks. */
  ghost predicate StartBetween(starts: seq<Start>, c: Capture) {
    exists k :: c.since <= k < c.until <= |starts| && starts[k].id == c.target.id
  }

  /** Such a navigation carried the very identity the first check had seen. */
  ghost predicate ReusedBetween(starts: seq<Start>, c: Capture) {
    exists k :: c.since <= k < c.until <= |starts| && starts[k] == Start(c.target.id, c.target.navigationId)
  }

  lemma UnseenStartsReuse(starts: seq<Start>, c: Capture)
    requires CaptureOk(starts, c)
    ensures var last := LastIndex(starts[..c.until], c.target.id);
      StartBetween(starts, c) <==> last > c.since && starts[last - 1] == Start(c.target.id, c.target.navigationId)
    ensures StartBetween(starts, c) <==> ReusedBetween(starts, c)
  {
    hide LastStart;
    var id, last := c.target.id, LastIndex(starts[..c.until], c.target.id);
    LastStartIsLast(starts[..c.until], id);
    assert last > 0 ==> starts[..c.until][last - 1] == starts[last - 1];
    if StartBetween(starts, c) {
      var k :| c.since <= k < c.until <= |starts| && starts[k].id == id;
      assert starts[..c.until][k] == starts[k];
    }
  }

  lemma LastStartIsLast(starts: seq<Start>, id: string)
    ensures LastIndex(starts, id) > 0 ==> LastStart(starts, id) == starts[LastIndex(starts, id) - 1].navigationId
  {
  }

  /** A capture succeeds although a navigation of its tab started between its two
      checks in exactly one case: the last navigation started there carries the
      identity the first check had seen, and is younger than that check. So a
      capture saw no such start if and only if none of them reused that identity;
      what identities the tab had before or has after does not matter. */
  lemma CaptureSawNoNavigation(actions: seq<Action>, c: Capture)
    requires c in After(actions).captures
    ensures c.since <= c.until <= |After(actions).starts|
    ensures var starts := After(actions).starts; var last := LastIndex(starts[..c.until], c.target.id);
      && c.target.navigationId == LastStart(starts[..c.since], c.target.id)
      && (StartBetween(starts, c) <==>
            last > c.since && starts[last - 1].navigationId == c.target.navigationId)
      && (!StartBetween(starts, c) <==> !ReusedBetween(starts, c))
  {
    hide LastStart, After, Good, Known, Tracked, CommandOk, StartBetween, ReusedBetween;
    Reachable(actions);
    assert CaptureOk(After(actions).starts, c);
    UnseenStartsReuse(After(actions).starts, c);
    assert c.until <= |After(actions).starts|;
  }

  lemma AfterSnoc(actions: seq<Action>, a: Action)
    ensures After(actions + [a]) == Step(After(actions), a)
  {
    assert (actions + [a])[..|actions|] == actions;
  }

  lemma RunsStartEmpty()
    ensures After([]) == World(Snapshot([], None, 0), Idle, {}, [], [])
  {
  }

  function Opening(t: string): (actions: seq<Action>) {
    [] + [BeginCreate(t)] + [PushNew] + [ShowNew] + [FinishCreate(true)]
  }

  lemma OpeningATab(t: string)
    ensures After(Opening(t)) == World(Snapshot([NewTab(t)], Some(t), 2), Idle, {t}, [], [])
  {
    hide After;
    var none: seq<Action> := [];
    RunsStartEmpty();
    AfterSnoc(none, BeginCreate(t));
    AfterSnoc(none + [BeginCreate(t)], PushNew);
    assert After(none + [BeginCreate(t)] + [PushNew]).snapshot == Snapshot([NewTab(t)], None, 1);
    AfterSnoc(none + [BeginCreate(t)] + [PushNew], ShowNew);
    AfterSnoc(none + [BeginCreate(t)] + [PushNew] + [ShowNew], FinishCreate(true));
  }

  function Loaded(w: World, t: string, nav: nat): World
  {
    Step(Step(w, Native(NavigationStarting(t, nav))), Native(NavigationCompleted(t, nav, false, None)))
  }

  lemma LoadingATab(w: World, t: string, before: Tab, nav: nat)
    requires w.snapshot.tabs == [before] && before.id == t && !before.loading
    ensures var after := Loaded(w, t, nav);
      && after.snapshot.tabs == [before.(navigationId := nav, error := None)]
      && after.snapshot.active == w.snapshot.active && after.starts == w.starts + [Start(t, nav)]
      && after.command == w.command && after.captures == w.captures
  {
    var middle := Step(w, Native(NavigationStarting(t, nav)));
    assert middle.snapshot.tabs == [before.(navigationId := nav, loading := true, error := None)];
  }

  /** Captures compare identities only: if the engine reuses one, a page that was
      navigated away and back between the two checks is captured all the same. */
  lemma RepeatedIdentityHidesNavigation()
    ensures exists actions, k ::
      && |After(actions).captures| == 1
      && After(actions).captures[0].since <= k < After(actions).captures[0].until <= |After(actions).starts|
      && After(actions).starts[k].id == After(actions).captures[0].target.id
  {
    hide After, Loaded;
    var t := "t";
    var start, done := Native(NavigationStarting(t, 7)), Native(NavigationCompleted(t, 7, false, None));
    var ready := NewTab(t).(navigationId := 7);
    OpeningATab(t);
    LoadingATab(After(Opening(t)), t, NewTab(t), 7);
    var loaded := Opening(t) + [start] + [done];
    LoadedRun(Opening(t), t, 7);
    AfterSnoc(loaded, BeginCapture(t, true));
    var capturing := loaded + [BeginCapture(t, true)];
    assert After(capturing).command == Capturing(t, ready, 1);
    LoadingATab(After(capturing), t, ready, 7);
    LoadedRun(capturing, t, 7);
    AfterSnoc(capturing + [start] + [done], FinishCapture(true));
    var actions := capturing + [start] + [done] + [FinishCapture(true)];
    assert After(actions).captures == [Capture(ready, 1, 2)] && After(actions).starts[1].id == t;
  }

  lemma LoadedRun(actions: seq<Action>, t: string, nav: nat)
    ensures After(actions + [Native(NavigationStarting(t, nav))] + [Native(NavigationCompleted(t, nav, false, None))])
            == Loaded(After(actions), t, nav)
  {
    hide After, Step;
    AfterSnoc(actions, Native(NavigationStarting(t, nav)));
    AfterSnoc(actions + [Native(NavigationStarting(t, nav))], Native(NavigationCompleted(t, nav, false, None)));
  }

  // ----- a creation that fails -----

  function TabIds(tabs: seq<Tab>): (ids: seq<string>)
    ensures |ids| == |tabs| && forall i :: 0 <= i < |tabs| ==> ids[i] == tabs[i].id
  {
    seq(|tabs|, i requires 0 <= i < |tabs| => tabs[i].id)
  }

  /** The active tab once a tab appended to `ids` and shown has been removed. */
  function LastOf(ids: seq<string>): Option<string> {
    if ids == [] then None else Some(ids[|ids| - 1])
  }

  /** Everything but the next step of a creation: native events, and commands,
      which find the operations lock taken. */
  predicate Bystander(a: Action) {
    !a.PushNew? && !a.ShowNew? && !a.FinishCreate?
  }

  predicate Creating(c: Command) {
    c.LimitChecked? || c.Pushed? || c.Shown?
  }

  /** The same tabs in the same order, the same active one and the same command. */
  ghost predicate SameTabs(w: World, v: World) {
    && TabIds(v.snapshot.tabs) == TabIds(w.snapshot.tabs)
    && v.snapshot.active == w.snapshot.active && v.command == w.command
  }

  lemma BystanderKeepsTabs(w: World, a: Action)
    requires Creating(w.command) && Bystander(a)
    ensures SameTabs(w, Step(w, a))
  {
    if a.Native? && FromPage(a.change) {
      PageChangeKeepsIds(w.snapshot, a.change);
    }
  }

  lemma {:induction false} BystandersKeepTabs(before: seq<Action>, more: seq<Action>)
    requires Creating(After(before).command) && forall a :: a in more ==> Bystander(a)
    ensures SameTabs(After(before), After(before + more))
  {
    hide After, Step;
    if more == [] {
      assert before + more == before;
    } else {
      var front, last := more[..|more| - 1], more[|more| - 1];
      BystandersKeepTabs(before, front);
      assert before + more == before + front + [last];
      AfterSnoc(before + front, last);
      BystanderKeepsTabs(After(before + front), last);
    }
  }

  lemma HasMeansListed(tabs: seq<Tab>, id: string)
    ensures Has(tabs, id) <==> id in TabIds(tabs)
  {
    if id in TabIds(tabs) {
      var i :| 0 <= i < |tabs| && TabIds(tabs)[i] == id;
      assert tabs[i].id == id;
    }
  }

  lemma PushAppends(w: World)
    requires Inv(w) && w.command.LimitChecked?
    ensures var next := Step(w, PushNew);
      && next.command == Pushed(w.command.id) && next.snapshot.active == w.snapshot.active
      && TabIds(next.snapshot.tabs) == TabIds(w.snapshot.tabs) + [w.command.id]
  {
    hide Position;
    var next := Step(w, PushNew);
    assert next.snapshot.tabs == w.snapshot.tabs + [NewTab(w.command.id)];
  }

  lemma ShowActivates(w: World)
    requires w.command.Pushed?
    ensures var next := Step(w, ShowNew);
      && next.command == Shown(w.command.id) && next.snapshot.active == Some(w.command.id)
      && TabIds(next.snapshot.tabs) == TabIds(w.snapshot.tabs)
  {
  }

  lemma FailureRemovesLast(w: World, ids: seq<string>, id: string)
    requires w.command == Pushed(id) || w.command == Shown(id)
    requires Inv(w) && TabIds(w.snapshot.tabs) == ids + [id]
    ensures var next := Step(w, FinishCreate(false));
      && next.command.Idle? && TabIds(next.snapshot.tabs) == ids
      && next.snapshot.active == if w.snapshot.active == Some(id) then LastOf(ids) else w.snapshot.active
  {
    hide CommandOk, Tracked, Known, CaptureOk;
    var tabs, n := w.snapshot.tabs, |ids|;
    assert tabs[n].id == id;
    forall i | 0 <= i < n ensures tabs[i].id != id {
      assert tabs[i].id != tabs[n].id;
    }
    assert Position(tabs, id) == n;
    assert tabs[..n] + tabs[n + 1..] == tabs[..n];
    assert Without(w.snapshot, id).tabs == tabs[..n];
    assert TabIds(tabs[..n]) == ids;
  }

  ghost predicate MayCreate(w: World, id: string) {
    w.command.Idle? && |w.snapshot.tabs| < MAX_TABS && id !in w.used
  }

  /** The run up to a tab just pushed, with anything else happening in between. */
  function Pushing(run: seq<Action>, id: string, a: seq<Action>, b: seq<Action>): seq<Action> {
    run + [BeginCreate(id)] + a + [PushNew] + b
  }

  lemma PushingAppends(run: seq<Action>, id: string, a: seq<Action>, b: seq<Action>)
    requires MayCreate(After(run), id)
    requires (forall x :: x in a ==> Bystander(x)) && forall x :: x in b ==> Bystander(x)
    ensures var w, v := After(run), After(Pushing(run, id, a, b));
      && v.command == Pushed(id) && v.snapshot.active == w.snapshot.active
      && TabIds(v.snapshot.tabs) == TabIds(w.snapshot.tabs) + [id]
  {
    hide After, Inv, TabIds;
    var begun := run + [BeginCreate(id)];
    AfterSnoc(run, BeginCreate(id));
    BystandersKeepTabs(begun, a);
    Reachable(begun + a);
    AfterSnoc(begun + a, PushNew);
    PushAppends(After(begun + a));
    BystandersKeepTabs(begun + a + [PushNew], b);
  }

  /** However native events and other commands interleave with it, a creation that
      fails leaves the tabs that were there, in their order. It leaves the active
      tab too if it fails before the new tab is shown; after that, exactly if the
      active tab was the last one (or there was none). */
  lemma FailedCreationMayMoveActive(run: seq<Action>, id: string, a: seq<Action>, b: seq<Action>, c: seq<Action>)
    requires MayCreate(After(run), id)
    requires (forall x :: x in a ==> Bystander(x)) && (forall x :: x in b ==> Bystander(x))
    requires forall x :: x in c ==> Bystander(x)
    ensures var w := After(run).snapshot;
      var early := After(Pushing(run, id, a, b) + [FinishCreate(false)]).snapshot;
      var late := After(Pushing(run, id, a, b) + [ShowNew] + c + [FinishCreate(false)]).snapshot;
      && TabIds(early.tabs) == TabIds(late.tabs) == TabIds(w.tabs)
      && early.active == w.active && late.active == LastOf(TabIds(w.tabs))
      && (late.active == w.active <==> w.active == LastOf(TabIds(w.tabs)))
  {
    hide After, TabIds, Step, LastOf, Pushing;
    var w, pushed := After(run), Pushing(run, id, a, b);
    PushingAppends(run, id, a, b);
    Reachable(run);
    Reachable(pushed);
    IdIsNew(w, id);
    AfterSnoc(pushed, FinishCreate(false));
    FailureRemovesLast(After(pushed), TabIds(w.snapshot.tabs), id);
    var shown := pushed + [ShowNew];
    AfterSnoc(pushed, ShowNew);
    ShowActivates(After(pushed));
    BystandersKeepTabs(shown, c);
    Reachable(shown + c);
    AfterSnoc(shown + c, FinishCreate(false));
    FailureRemovesLast(After(shown + c), TabIds(w.snapshot.tabs), id);
  }

  lemma IdIsNew(w: World, id: string)
    requires Inv(w) && id !in w.used
    ensures w.snapshot.active != Some(id)
  {
    if w.snapshot.active.Some? {
      assert w.snapshot.tabs[Position(w.snapshot.tabs, w.snapshot.active.value)].id in w.used;
    }
  }

  // ----- one failing input: two tabs, the first one active -----

  function Created(run: seq<Action>, id: string): seq<Action> {
    run + [BeginCreate(id)] + [PushNew] + [ShowNew] + [FinishCreate(true)]
  }

  function TwoTabs(): seq<Action> {
    Created(Opening("t"), "u") + [BeginActivate("t")] + [FinishCommand(true)]
  }

  lemma CreatedAppends(run: seq<Action>, id: string)
    requires MayCreate(After(run), id)
    ensures var w, v := After(run), After(Created(run, id));
      && TabIds(v.snapshot.tabs) == TabIds(w.snapshot.tabs) + [id] && v.snapshot.active == Some(id)
      && v.command.Idle? && v.used == w.used + {id}
  {
    hide After, Position, TabIds;
    AfterSnoc(run, BeginCreate(id));
    var begun := run + [BeginCreate(id)];
    AfterSnoc(begun, PushNew);
    Reachable(begun);
    PushAppends(After(begun));
    AfterSnoc(begun + [PushNew], ShowNew);
    ShowActivates(After(begun + [PushNew]));
    AfterSnoc(begun + [PushNew] + [ShowNew], FinishCreate(true));
  }

  lemma ActivatedIsActive(run: seq<Action>, id: string)
    requires After(run).command.Idle? && id in TabIds(After(run).snapshot.tabs)
    ensures var w, v := After(run), After(run + [BeginActivate(id)] + [FinishCommand(true)]);
      && TabIds(v.snapshot.tabs) == TabIds(w.snapshot.tabs) && v.snapshot.active == Some(id)
      && v.command.Idle? && v.used == w.used
  {
    hide After, Position;
    HasMeansListed(After(run).snapshot.tabs, id);
    AfterSnoc(run, BeginActivate(id));
    AfterSnoc(run + [BeginActivate(id)], FinishCommand(true));
  }

  lemma TwoTabsFirstActive()
    ensures var w := After(TwoTabs());
      && TabIds(w.snapshot.tabs) == ["t", "u"] && w.snapshot.active == Some("t")
      && w.command.Idle? && w.used == {"t", "u"}
  {
    hide After, Opening, Created;
    OpeningATab("t");
    assert TabIds([NewTab("t")]) == ["t"];
    CreatedAppends(Opening("t"), "u");
    ActivatedIsActive(Created(Opening("t"), "u"), "t");
  }

  function FailedThird(): seq<Action> {
    Pushing(TwoTabs(), "v", [], []) + [ShowNew] + [] + [FinishCreate(false)]
  }

  /** With tabs t and u open and t active, creating a third tab that fails after it
      was shown leaves u active. */
  lemma FailedCreationMovesActive()
    ensures TabIds(After(FailedThird()).snapshot.tabs) == ["t", "u"]
    ensures After(TwoTabs()).snapshot.active == Some("t") && After(FailedThird()).snapshot.active == Some("u")
  {
    hide After, TwoTabs, Pushing;
    TwoTabsFirstActive();
    FailedCreationMayMoveActive(TwoTabs(), "v", [], [], []);
    assert LastOf(["t", "u"]) == Some("u");
  }

  // ----- what a tab shows: the latest event that says something about it -----

  /** The events of a run that reached the tab called `id`. */
  function Reached(actions: seq<Action>, id: string): seq<Change> {
    if actions == [] then [] else
      var front, last := actions[..|actions| - 1], actions[|actions| - 1];
      Reached(front, id)
      + if last.Native? && FromPage(last.change) && last.change.id == id && Has(After(front).snapshot.tabs, id)
        then [last.change] else []
  }

  function Front(log: seq<Change>): seq<Change>
    requires log != []
  {
    log[..|log| - 1]
  }

  /** The navigation started last. */
  function LatestNavigation(log: seq<Change>): nat {
    if log == [] then 0 else
      var e := log[|log| - 1];
      if e.NavigationStarting? then e.navigationId else LatestNavigation(Front(log))
  }

  /** Loading since a navigation started, until it completes, the process fails, it
      is blocked or it is stopped; another navigation's completion does not count. */
  function IsLoading(log: seq<Change>): bool {
    if log == [] then false else
      var e := log[|log| - 1];
      if e.NavigationStarting? then true
      else if e.ProcessFailed? || e.NavigationBlocked? || e.Stopped? then false
      else if e.NavigationCompleted? && e.navigationId == LatestNavigation(Front(log)) then false
      else IsLoading(Front(log))
  }

  /** The latest report since the last navigation started: of the process, of a
      blocked address, or of that navigation's own completion unless cancelled. */
  function LatestError(log: seq<Change>): Option<string> {
    if log == [] then None else
      var e := log[|log| - 1];
      if e.NavigationStarting? then None
      else if e.ProcessFailed? || e.NavigationBlocked? then Some(e.message)
      else if e.NavigationCompleted? && !e.cancelled && e.navigationId == LatestNavigation(Front(log)) then e.failure
      else LatestError(Front(log))
  }

  function LatestUrl(log: seq<Change>): string {
    if log == [] then BLANK else
      var e := log[|log| - 1];
      if e.Refresh? && e.url.Some? then e.url.value else LatestUrl(Front(log))
  }

  /** The latest title read, cut to 512 characters; a blank page has its own. */
  function LatestTitle(log: seq<Change>): string {
    if log == [] then NEW_TAB else
      var e := log[|log| - 1];
      if e.Refresh? && e.title.Some? then
        if e.title.value == "" || e.title.value == BLANK then NEW_TAB
        else if |e.title.value| <= 512 then e.title.value
        else e.title.value[..512]
      else LatestTitle(Front(log))
  }

  /** Whether the latest refresh could go back, and forward. */
  function LatestHistory(log: seq<Change>): (bool, bool) {
    if log == [] then (false, false) else
      var e := log[|log| - 1];
      if e.Refresh? then (e.back, e.forward) else LatestHistory(Front(log))
  }

  function Shows(id: string, log: seq<Change>): Tab {
    Tab(id, LatestUrl(log), LatestTitle(log), IsLoading(log), LatestHistory(log).0, LatestHistory(log).1,
        LatestError(log), LatestNavigation(log))
  }

  lemma UpdateShows(id: string, log: seq<Change>, e: Change)
    requires FromPage(e)
    ensures Updated(Shows(id, log), e) == Shows(id, log + [e])
  {
    assert Front(log + [e]) == log;
  }

  ghost predicate ShowsAll(actions: seq<Action>) {
    var w := After(actions);
    && (forall i :: 0 <= i < |w.snapshot.tabs| ==>
          w.snapshot.tabs[i] == Shows(w.snapshot.tabs[i].id, Reached(actions, w.snapshot.tabs[i].id)))
    && (forall id :: Reached(actions, id) != [] ==> id in w.used)
    && (w.command.LimitChecked? ==> Reached(actions, w.command.id) == [])
  }

  lemma ReachedNext(actions: seq<Action>, a: Action, id: string)
    ensures Reached(actions + [a], id) ==
              Reached(actions, id)
              + if a.Native? && FromPage(a.change) && a.change.id == id && Has(After(actions).snapshot.tabs, id)
                then [a.change] else []
  {
    assert (actions + [a])[..|actions|] == actions;
  }

  lemma NativeShowsTab(actions: seq<Action>, a: Action, i: nat)
    requires Inv(After(actions)) && ShowsAll(actions) && a.Native? && FromPage(a.change)
    requires i < |Step(After(actions), a).snapshot.tabs| && i < |After(actions).snapshot.tabs|
    ensures var tab, tab' := After(actions).snapshot.tabs[i], Step(After(actions), a).snapshot.tabs[i];
      tab'.id == tab.id && tab' == Shows(tab.id, Reached(actions + [a], tab.id))
  {
    hide After, Reached, Shows, Updated, Committed;
    var w := After(actions);
    var tab := w.snapshot.tabs[i];
    PageChangeKeepsIds(w.snapshot, a.change);
    ReachedNext(actions, a, tab.id);
    IdDecidesPosition(w.snapshot, a.change.id, i);
    assert Reached(actions, tab.id) + [] == Reached(actions, tab.id);
    UpdateShows(tab.id, Reached(actions, tab.id), a.change);
  }

  lemma NativeShows(actions: seq<Action>, a: Action)
    requires Inv(After(actions)) && ShowsAll(actions) && a.Native? && FromPage(a.change)
    ensures ShowsAll(actions + [a])
  {
    hide After, Reached, Shows, Committed, Good, Tracked;
    AfterSnoc(actions, a);
    var w, w' := After(actions), After(actions + [a]);
    PageChangeKeepsIds(w.snapshot, a.change);
    forall i | 0 <= i < |w'.snapshot.tabs|
      ensures w'.snapshot.tabs[i] == Shows(w'.snapshot.tabs[i].id, Reached(actions + [a], w'.snapshot.tabs[i].id))
    {
      NativeShowsTab(actions, a, i);
    }
    forall id | Reached(actions + [a], id) != [] ensures id in w'.used {
      ReachedNext(actions, a, id);
      if Has(w.snapshot.tabs, id) {
        HasIsUsed(w, id);
      }
    }
    if w'.command.LimitChecked? {
      ReachedNext(actions, a, w'.command.id);
    }
  }

  lemma IdDecidesPosition(s: Snapshot, id: string, i: nat)
    requires Good(s) && i < |s.tabs|
    ensures s.tabs[i].id == id <==> i == Position(s.tabs, id)
  {
    var p := Position(s.tabs, id);
    assert p < i && p < |s.tabs| ==> s.tabs[p].id != s.tabs[i].id;
  }

  lemma IdDecidesTab(s: Snapshot, tab: Tab)
    requires Good(s) && tab in s.tabs
    ensures Has(s.tabs, tab.id) && tab == s.tabs[Position(s.tabs, tab.id)]
  {
    var i :| 0 <= i < |s.tabs| && s.tabs[i] == tab;
    IdDecidesPosition(s, tab.id, i);
  }

  lemma HasIsUsed(w: World, id: string)
    requires Known(w) && Has(w.snapshot.tabs, id)
    ensures id in w.used
  {
  }

  /** Steps of commands: tabs stay, go, or come in blank. */
  lemma CommandTabs(w: World, a: Action, i: nat)
    requires !(a.Native? && FromPage(a.change)) && i < |Step(w, a).snapshot.tabs|
    ensures Step(w, a).snapshot.tabs[i] in w.snapshot.tabs
            || (w.command.LimitChecked? && Step(w, a).snapshot.tabs[i] == NewTab(w.command.id))
  {
  }

  lemma CommandLimits(w: World, a: Action)
    requires !(a.Native? && FromPage(a.change))
    ensures w.used <= Step(w, a).used
    ensures Step(w, a).command.LimitChecked? ==>
              Step(w, a).command == w.command || Step(w, a).command.id !in w.used
  {
  }

  lemma CommandShows(actions: seq<Action>, a: Action)
    requires Inv(After(actions)) && ShowsAll(actions) && !(a.Native? && FromPage(a.change))
    ensures ShowsAll(actions + [a])
  {
    hide After, Reached, Shows, Step, Good, Tracked;
    AfterSnoc(actions, a);
    var w, w' := After(actions), After(actions + [a]);
    CommandLimits(w, a);
    forall id ensures Reached(actions + [a], id) == Reached(actions, id) {
      ReachedNext(actions, a, id);
      assert Reached(actions, id) + [] == Reached(actions, id);
    }
    forall i | 0 <= i < |w'.snapshot.tabs|
      ensures w'.snapshot.tabs[i] == Shows(w'.snapshot.tabs[i].id, Reached(actions + [a], w'.snapshot.tabs[i].id))
    {
      CommandTabs(w, a, i);
      if w'.snapshot.tabs[i] !in w.snapshot.tabs {
        BlankShows(w.command.id);
      }
    }
  }

  lemma BlankShows(id: string)
    ensures NewTab(id) == Shows(id, [])
  {
  }

  lemma {:induction false} ShowsReachable(actions: seq<Action>)
    ensures ShowsAll(actions)
  {
    hide Step, Inv, ShowsAll;
    if actions == [] {
      StartShows();
    } else {
      var front, last := actions[..|actions| - 1], actions[|actions| - 1];
      ShowsReachable(front);
      Reachable(front);
      assert actions == front + [last];
      if last.Native? && FromPage(last.change) {
        NativeShows(front, last);
      } else {
        CommandShows(front, last);
      }
    }
  }

  lemma StartShows()
    ensures ShowsAll([])
  {
  }

  /** Every tab shows what its events say: each field is decided by the latest event
      that says something about it. */
  lemma TabsShowTheirEvents(actions: seq<Action>, i: nat)
    requires i < |After(actions).snapshot.tabs|
    ensures var tab := After(actions).snapshot.tabs[i]; var log := Reached(actions, tab.id);
      && tab.navigationId == LatestNavigation(log) && tab.loading == IsLoading(log)
      && tab.error == LatestError(log) && tab.url == LatestUrl(log) && tab.title == LatestTitle(log)
      && (tab.canGoBack, tab.canGoForward) == LatestHistory(log)
  {
    hide After, Reached;
    ShowsReachable(actions);
  }

  // ----- what commands do -----

  /** A tab may be created exactly while fewer than twelve are open. */
  lemma CreationNeedsRoom(w: World, id: string)
    requires w.command.Idle? && id !in w.used
    ensures Step(w, BeginCreate(id)).command == (if |w.snapshot.tabs| < 12 then LimitChecked(id) else Idle)
  {
  }

  /** A tab that was closed is gone and the others stay; a view that would not close
      leaves everything as it was. */
  lemma ClosedTabsAreGone(run: seq<Action>, id: string, ok: bool)
    requires After(run).command.Idle? && Has(After(run).snapshot.tabs, id)
    ensures var s, v := After(run).snapshot, After(run + [BeginClose(id)] + [FinishCommand(ok)]);
      && v.command.Idle?
      && (ok ==> !Has(v.snapshot.tabs, id)
                 && forall other :: other != id ==> (Has(v.snapshot.tabs, other) <==> Has(s.tabs, other)))
      && (!ok ==> v.snapshot == s)
  {
    hide After, Position;
    Reachable(run);
    AfterSnoc(run, BeginClose(id));
    AfterSnoc(run + [BeginClose(id)], FinishCommand(ok));
    RemovalPicksNeighbour(After(run).snapshot, id);
  }

  /** The tab called `id` is active, loaded and without error. */
  predicate Capturable(s: Snapshot, id: string, tab: Tab) {
    tab in s.tabs && tab.id == id && s.active == Some(id) && !tab.loading && tab.error.None?
  }

  /** A capture begins exactly for the active tab, loaded and without error, at an
      allowed address, and remembers that tab. */
  lemma CapturesBegin(run: seq<Action>, id: string, allowed: bool)
    requires After(run).command.Idle?
    ensures var w := After(run); var v := Step(w, BeginCapture(id, allowed));
      && v.snapshot == w.snapshot && v.captures == w.captures
      && (forall tab :: tab in w.snapshot.tabs ==>
            (v.command == Capturing(id, tab, |w.starts|) <==> allowed && Capturable(w.snapshot, id, tab)))
      && (v.command.Idle? || v.command.Capturing?)
      && (v.command.Capturing? ==> v.command.target in w.snapshot.tabs)
  {
    hide After;
    Reachable(run);
    var w := After(run);
    forall tab | tab in w.snapshot.tabs
      ensures Has(w.snapshot.tabs, tab.id) && tab == w.snapshot.tabs[Position(w.snapshot.tabs, tab.id)]
    {
      IdDecidesTab(w.snapshot, tab);
    }
  }

  /** It succeeds exactly if that tab is still active, loaded and without error, at
      the same address and with the same navigation. */
  lemma CapturesEnd(run: seq<Action>, allowed: bool)
    requires After(run).command.Capturing?
    ensures var w := After(run); var v, c := Step(w, FinishCapture(allowed)), w.command;
      && v.command.Idle? && v.snapshot == w.snapshot
      && v.captures == w.captures
           + (if allowed && exists tab :: Capturable(w.snapshot, c.id, tab) && tab.url == c.target.url
                                          && tab.navigationId == c.target.navigationId
              then [Capture(c.target, c.mark, |w.starts|)] else [])
  {
    hide After;
    Reachable(run);
    var w, id := After(run), After(run).command.id;
    var p := Position(w.snapshot.tabs, id);
    forall tab | tab in w.snapshot.tabs && tab.id == id ensures p < |w.snapshot.tabs| && tab == w.snapshot.tabs[p] {
      IdDecidesTab(w.snapshot, tab);
    }
    assert w.captures + [] == w.captures;
    assert allowed && CaptureTarget(w.snapshot, id, allowed).Some? ==> Capturable(w.snapshot, id, w.snapshot.tabs[p]);
  }
}
