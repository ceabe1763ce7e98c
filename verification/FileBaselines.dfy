/** Edit baselines: exact file snapshots with a time limit, kept in a map under
    one lock and removed for good once a difference is seen. */
module FileBaselines {
  import opened Options

  const MAX_SNAPSHOTS: nat := 8
  /** Ten minutes, in milliseconds of the monotone clock. */
  const TTL: nat := 10 * 60 * 1000

  datatype Identity = Identity(volume: nat, index: nat)

  datatype ExactFile = ExactFile(root: Identity, file: Identity, modified: nat, content: seq<nat>)

  datatype Snapshot = Snapshot(rootId: string, root: string, path: string, file: ExactFile, created: nat)

  type Snapshots = map<string, Snapshot>

  datatype Outcome = Ok | Refused | Gone | WrongRoot | Conflict

  predicate Fresh(s: Snapshot, now: nat) {
    now < s.created + TTL
  }

  /** retain: only baselines younger than the limit stay. */
  function Retain(s: Snapshots, now: nat): Snapshots {
    map id | id in s && Fresh(s[id], now) :: s[id]
  }

  /** What a capture needs of a file: no NUL byte and UTF-8 text. */
  predicate Editable(read: Option<ExactFile>, utf8: seq<nat> -> bool) {
    read.Some? && 0 !in read.value.content && utf8(read.value.content)
  }

  function Captured(s: Snapshots, rootId: string, root: string, path: string, validPath: bool,
                    read: Option<ExactFile>, utf8: seq<nat> -> bool, id: string, now: nat, created: nat): Snapshots
  {
    if !validPath then s
    else
      var kept := Retain(s, now);
      if |kept| >= MAX_SNAPSHOTS || !Editable(read, utf8) then kept
      else kept[id := Snapshot(rootId, root, path, read.value, created)]
  }

  function ValidateOutcome(s: Snapshots, rootId: string, root: string, id: string,
                           read: Option<ExactFile>, now: nat): Outcome
  {
    if id !in s || !Fresh(s[id], now) then Gone
    else if s[id].rootId != rootId || s[id].root != root then WrongRoot
    else if read == Some(s[id].file) then Ok
    else Conflict
  }

  function Validated(s: Snapshots, rootId: string, root: string, id: string,
                     read: Option<ExactFile>, now: nat): Snapshots
  {
    if ValidateOutcome(s, rootId, root, id, read, now) == Conflict then Retain(s, now) - {id} else Retain(s, now)
  }

  function Released(s: Snapshots, rootId: string, id: string): Snapshots {
    if id in s && s[id].rootId == rootId then s - {id} else s
  }

  class FileSnapshotState {
    var snapshots: Snapshots

    constructor ()
      ensures snapshots == map[]
    {
      snapshots := map[];
    }

    /** `read` is what read_exact answers, `id` the identity generated, `now` the
        clock when old baselines are dropped and `created` when one is stored. */
    method Capture(rootId: string, root: string, path: string, validPath: bool, read: Option<ExactFile>,
                   utf8: seq<nat> -> bool, id: string, now: nat, created: nat)
      returns (captured: Option<Snapshot>)
      modifies this
      ensures snapshots == Captured(old(snapshots), rootId, root, path, validPath, read, utf8, id, now, created)
      ensures captured.Some? <==>
                validPath && |Retain(old(snapshots), now)| < MAX_SNAPSHOTS && Editable(read, utf8)
      ensures captured.Some? ==> id in snapshots && captured.value == snapshots[id]
    {
      if !validPath {
        return None;
      }
      snapshots := Retain(snapshots, now);
      if |snapshots| >= MAX_SNAPSHOTS {
        return None;
      }
      if read == None || 0 in read.value.content || !utf8(read.value.content) {
        return None;
      }
      var snapshot := Snapshot(rootId, root, path, read.value, created);
      snapshots := snapshots[id := snapshot];
      captured := Some(snapshot);
    }

    /** `read` is what read_exact answers for the path captured. */
    method Validate(rootId: string, root: string, id: string, read: Option<ExactFile>, now: nat)
      returns (outcome: Outcome)
      modifies this
      ensures outcome == ValidateOutcome(old(snapshots), rootId, root, id, read, now)
      ensures snapshots == Validated(old(snapshots), rootId, root, id, read, now)
    {
      snapshots := Retain(snapshots, now);
      if id !in snapshots {
        return Gone;
      }
      var snapshot := snapshots[id];
      if snapshot.rootId != rootId || snapshot.root != root {
        return WrongRoot;
      }
      var same := match read
        case None => false
        case Some(current) =>
          !(current.root != snapshot.file.root || current.file != snapshot.file.file
            || current.modified != snapshot.file.modified || current.content != snapshot.file.content);
      if !same {
        snapshots := snapshots - {id};
        return Conflict;
      }
      outcome := Ok;
    }

    method Release(rootId: string, id: string) returns (ok: bool)
      modifies this
      ensures ok <==> !(id in old(snapshots) && old(snapshots)[id].rootId != rootId)
      ensures snapshots == Released(old(snapshots), rootId, id)
    {
      if id in snapshots {
        if snapshots[id].rootId != rootId {
          return false;
        }
        snapshots := snapshots - {id};
      }
      ok := true;
    }
  }

  // ----- runs -----

  datatype Call =
    | Capture(rootId: string, root: string, path: string, validPath: bool, text: bool, read: Option<ExactFile>,
              id: string, now: nat, created: nat)
    | Validate(rootId: string, root: string, id: string, read: Option<ExactFile>, now: nat)
    | Release(rootId: string, id: string, now: nat)

  function Next(s: Snapshots, call: Call): Snapshots {
    match call
    case Capture(rootId, root, path, validPath, text, read, id, now, created) =>
      Captured(s, rootId, root, path, validPath, read, _ => text, id, now, created)
    case Validate(rootId, root, id, read, now) => Validated(s, rootId, root, id, read, now)
    case Release(rootId, id, now) => Released(s, rootId, id)
  }

  function After(calls: seq<Call>): Snapshots {
    if calls == [] then map[] else Next(After(calls[..|calls| - 1]), calls[|calls| - 1])
  }

  /** When the lock is given back. */
  function Finish(call: Call): nat {
    if call.Capture? then call.created else call.now
  }

  /** The clock never goes back and no identity is generated twice. */
  ghost predicate Run(calls: seq<Call>) {
    && (forall i :: 0 <= i < |calls| ==> calls[i].now <= Finish(calls[i]))
    && (forall i, j :: 0 <= i < j < |calls| ==> Finish(calls[i]) <= calls[j].now)
    && (forall i, j :: 0 <= i < j < |calls| && calls[i].Capture? && calls[j].Capture? ==> calls[i].id != calls[j].id)
  }

  function OutcomeAt(calls: seq<Call>, k: nat): Outcome
    requires k < |calls| && calls[k].Validate?
  {
    ValidateOutcome(After(calls[..k]), calls[k].rootId, calls[k].root, calls[k].id, calls[k].read, calls[k].now)
  }

  lemma AfterStep(calls: seq<Call>, k: nat)
    requires k < |calls|
    ensures After(calls[..k + 1]) == Next(After(calls[..k]), calls[k])
  {
    assert calls[..k + 1][..k] == calls[..k];
  }

  lemma RetainShrinks(s: Snapshots, now: nat)
    ensures Retain(s, now).Keys <= s.Keys && |Retain(s, now)| <= |s|
  {
    SubsetSize(Retain(s, now).Keys, s.Keys);
  }

  lemma SubsetSize(a: set<string>, b: set<string>)
    requires a <= b
    ensures |a| <= |b|
  {
    assert b == a + (b - a);
  }

  lemma NextIsSmall(s: Snapshots, call: Call)
    requires |s| <= MAX_SNAPSHOTS
    ensures |Next(s, call)| <= MAX_SNAPSHOTS
  {
    RetainShrinks(s, call.now);
    match call
    case Capture(_, _, _, _, _, _, id, now, _) =>
      assert (Next(s, call)).Keys <= Retain(s, now).Keys + {id} || Next(s, call) == s;
    case Validate(_, _, id, _, now) => SubsetSize((Retain(s, now) - {id}).Keys, s.Keys);
    case Release(_, id, _) => SubsetSize((s - {id}).Keys, s.Keys);
  }

  /** Never more than eight baselines, whatever the clock and the identities. */
  lemma {:induction false} AtMostEight(calls: seq<Call>)
    ensures |After(calls)| <= MAX_SNAPSHOTS
  {
    if calls != [] {
      AtMostEight(calls[..|calls| - 1]);
      NextIsSmall(After(calls[..|calls| - 1]), calls[|calls| - 1]);
    }
  }

  /** The capture that made a baseline: accepted, and of what it read. */
  ghost predicate Made(call: Call, id: string, s: Snapshot) {
    && call.Capture? && call.id == id && call.validPath && call.text
    && s == Snapshot(call.rootId, call.root, call.path, s.file, call.created) && Some(s.file) == call.read
  }

  /** A step leaves a baseline as it was, removes it, or is the capture of it. */
  lemma NextKeepsOrMakes(s: Snapshots, call: Call, id: string)
    requires id in Next(s, call)
    ensures (id in s && Next(s, call)[id] == s[id]) || Made(call, id, Next(s, call)[id])
  {
  }

  /** Every baseline held comes from one capture, and no later step touched it. */
  lemma {:induction false} HeldComesFromCapture(calls: seq<Call>, k: nat, id: string) returns (i: nat)
    requires k <= |calls| && id in After(calls[..k])
    ensures i < k && Made(calls[i], id, After(calls[..k])[id])
  {
    hide Next, Made;
    if k == 0 {
      assert false;
    }
    AfterStep(calls, k - 1);
    NextKeepsOrMakes(After(calls[..k - 1]), calls[k - 1], id);
    if Made(calls[k - 1], id, After(calls[..k])[id]) {
      i := k - 1;
    } else {
      i := HeldComesFromCapture(calls, k - 1, id);
    }
  }

  /** A validation succeeds exactly when a capture under the same root made this
      identity less than ten minutes ago, the baseline is still held, and the
      file read now equals the file read then in every compared part. */
  lemma ValidateMeansUnchanged(calls: seq<Call>, k: nat)
    requires Run(calls) && k < |calls| && calls[k].Validate?
    ensures OutcomeAt(calls, k) == Ok <==>
      exists i: nat :: i < k
        && calls[i].Capture? && calls[i].id == calls[k].id && calls[i].rootId == calls[k].rootId
        && calls[i].root == calls[k].root && calls[i].read == calls[k].read && calls[i].read.Some?
        && calls[k].now < calls[i].created + TTL && calls[k].id in After(calls[..k])
  {
    var id, s := calls[k].id, After(calls[..k]);
    if id in s {
      var i := HeldComesFromCapture(calls, k, id);
      assert Made(calls[i], id, s[id]);
      forall j: nat | j < k && calls[j].Capture? && calls[j].id == id ensures j == i {
      }
    }
  }

  /** The ways a baseline ends. */
  ghost predicate Ends(calls: seq<Call>, k: nat, id: string)
    requires k < |calls|
  {
    var s := After(calls[..k]);
    || (calls[k].Validate? && calls[k].id == id && OutcomeAt(calls, k) in {Conflict, Gone})
    || (calls[k].Release? && calls[k].id == id && (id !in s || s[id].rootId == calls[k].rootId))
    || (id in s && calls[k].now >= s[id].created + TTL)
  }

  lemma {:induction false} NotHeldStaysOut(calls: seq<Call>, k: nat, m: nat, id: string)
    requires Run(calls) && k <= m <= |calls|
    requires exists i :: 0 <= i < k && calls[i].Capture? && calls[i].id == id
    ensures id in After(calls[..m]) ==> id in After(calls[..k]) && After(calls[..m])[id] == After(calls[..k])[id]
  {
    if k < m {
      hide Next, After;
      NotHeldStaysOut(calls, k, m - 1, id);
      AfterStep(calls, m - 1);
      if id in After(calls[..m]) {
        NextKeepsOrMakes(After(calls[..m - 1]), calls[m - 1], id);
      }
    }
  }

  /** After a detected conflict, an expiry or a release, every later validation
      of that identity fails, even if the old bytes return. */
  lemma EndedStaysEnded(calls: seq<Call>, i: nat, k: nat, m: nat, id: string)
    requires Run(calls) && i < k < m < |calls|
    requires calls[i].Capture? && calls[i].id == id && Ends(calls, k, id)
    requires calls[m].Validate? && calls[m].id == id
    ensures OutcomeAt(calls, m) == Gone
  {
    var s := After(calls[..k]);
    if id in s && calls[k].now >= s[id].created + TTL {
      NotHeldStaysOut(calls, k, m, id);
    } else {
      AfterStep(calls, k);
      NotHeldStaysOut(calls, k + 1, m, id);
    }
  }

  lemma StepKeepsUnlessEnded(calls: seq<Call>, i: nat, k: nat, id: string)
    requires Run(calls) && i < k < |calls| && calls[i].Capture? && calls[i].id == id
    requires id in After(calls[..k]) && !Ends(calls, k, id)
    ensures id in After(calls[..k + 1]) && After(calls[..k + 1])[id] == After(calls[..k])[id]
  {
    hide After;
    AfterStep(calls, k);
  }

  /** Nothing else ends a baseline: not a wrong root, not other baselines. */
  lemma {:induction false} LivesUntilEnded(calls: seq<Call>, i: nat, m: nat, id: string)
    requires Run(calls) && i < m <= |calls| && calls[i].Capture? && calls[i].id == id
    requires id in After(calls[..i + 1])
    requires forall k :: i < k < m ==> !Ends(calls, k, id)
    ensures id in After(calls[..m]) && After(calls[..m])[id] == After(calls[..i + 1])[id]
  {
    hide Next, After, Run, Ends;
    if i + 1 < m {
      LivesUntilEnded(calls, i, m - 1, id);
      StepKeepsUnlessEnded(calls, i, m - 1, id);
    }
  }

  /** A baseline is refused to another root exactly while it is held and fresh but
      was captured elsewhere; it conflicts exactly if the file or the read of it
      differs; and it is gone exactly if it is not held or ten minutes old. */
  lemma OutcomesAreExact(calls: seq<Call>, k: nat)
    requires Run(calls) && k < |calls| && calls[k].Validate?
    ensures var s, c := After(calls[..k]), calls[k];
      && (OutcomeAt(calls, k) == Gone <==> c.id !in s || c.now >= s[c.id].created + 600_000)
      && (OutcomeAt(calls, k) == WrongRoot <==>
            c.id in s && c.now < s[c.id].created + 600_000 && (s[c.id].rootId != c.rootId || s[c.id].root != c.root))
      && (OutcomeAt(calls, k) == Conflict <==>
            && c.id in s && c.now < s[c.id].created + 600_000 && s[c.id].rootId == c.rootId && s[c.id].root == c.root
            && (c.read.None? || c.read.value.root != s[c.id].file.root || c.read.value.file != s[c.id].file.file
                || c.read.value.modified != s[c.id].file.modified || c.read.value.content != s[c.id].file.content))
      && OutcomeAt(calls, k) != Refused
  {
    hide After, Run;
  }

  /** A refused validation changes nothing but what was too old anyway; only a
      conflict takes the baseline away. */
  lemma OnlyConflictsRemove(calls: seq<Call>, k: nat, id: string)
    requires Run(calls) && k < |calls| && calls[k].Validate?
    ensures var s, s' := After(calls[..k]), After(calls[..k + 1]);
      id in s' <==> id in s && calls[k].now < s[id].created + 600_000
                    && !(id == calls[k].id && OutcomeAt(calls, k) == Conflict)
    ensures id in After(calls[..k + 1]) ==> After(calls[..k + 1])[id] == After(calls[..k])[id]
  {
    hide After, Run;
    AfterStep(calls, k);
  }

  /** How many baselines are still fresh. */
  function FreshCount(s: Snapshots, now: nat): nat {
    |set id | id in s && now < s[id].created + 600_000|
  }

  lemma RetainKeepsFresh(s: Snapshots, now: nat)
    ensures |Retain(s, now)| == FreshCount(s, now)
  {
    assert Retain(s, now).Keys == set id | id in s && now < s[id].created + 600_000;
  }

  lemma NewIdentityIsFree(calls: seq<Call>, k: nat)
    requires Run(calls) && k < |calls| && calls[k].Capture?
    ensures calls[k].id !in After(calls[..k])
  {
    if calls[k].id in After(calls[..k]) {
      var i := HeldComesFromCapture(calls, k, calls[k].id);
      assert false;
    }
  }

  /** A capture stores the file as read exactly if the path is valid, fewer than
      eight baselines are fresh, and the file could be read and is text. */
  lemma CapturesAreStored(calls: seq<Call>, k: nat)
    requires Run(calls) && k < |calls| && calls[k].Capture?
    ensures var s, c := After(calls[..k]), calls[k];
      calls[k].id in After(calls[..k + 1]) <==>
        c.validPath && FreshCount(s, c.now) < 8 && c.read.Some? && 0 !in c.read.value.content && c.text
    ensures calls[k].id in After(calls[..k + 1]) ==>
      var c := calls[k];
      After(calls[..k + 1])[c.id] == Snapshot(c.rootId, c.root, c.path, c.read.value, c.created)
  {
    hide After, Run;
    NewIdentityIsFree(calls, k);
    AfterStep(calls, k);
    RetainKeepsFresh(After(calls[..k]), calls[k].now);
  }
}
