/** The desktop log: one current file and numbered archives that a rotation
    shifts up by one. Index 0 is the current file, index i > 0 the archive with
    suffix i. A file is kept as the lines it holds. */
module DesktopLog {
  import opened Options

  datatype Entry = Regular(lines: seq<string>) | Special

  type Files = map<nat, Entry>

  function Bytes(lines: seq<string>): nat {
    if lines == [] then 0 else Bytes(lines[..|lines| - 1]) + |lines[|lines| - 1]|
  }

  function LinesOf(files: Files, i: nat): seq<string> {
    if i in files && files[i].Regular? then files[i].lines else []
  }

  /** Archives from `n` down to 1, then the current file: oldest line first. */
  function Retained(files: Files, n: nat): seq<string> {
    if n == 0 then LinesOf(files, 0) else LinesOf(files, n) + Retained(files, n - 1)
  }

  predicate Blocked(files: Files, archives: nat) {
    exists i :: 1 <= i <= archives && i in files && files[i] == Special
  }

  function Slot(files: Files, i: nat): Option<Entry> {
    if i in files then Some(files[i]) else None
  }

  /** Every archive slot took what was one below it; anything above the last
      archive was left alone. */
  ghost predicate Shifted(before: Files, after: Files, archives: nat) {
    && (forall i: nat {:trigger Slot(after, i)} :: 1 <= i <= archives ==> Slot(after, i) == Slot(before, i - 1))
    && (forall i: nat {:trigger Slot(after, i)} :: i > archives && i > 0 ==> Slot(after, i) == Slot(before, i))
  }

  ghost predicate IsRotated(before: Files, after: Files, archives: nat) {
    Slot(after, 0) == Some(Regular([])) && Shifted(before, after, archives)
  }

  predicate ShouldRotate(files: Files, incoming: nat, maxBytes: nat) {
    Bytes(LinesOf(files, 0)) > 0 && Bytes(LinesOf(files, 0)) + incoming > maxBytes
  }

  /** `written` and `mine` record the lines written in this run and which files
      received one of them. */
  datatype Log = Log(files: Files, open: bool, written: seq<string>, mine: set<nat>)

  /** Whether `next` may be the log after one more line: what an event does. */
  ghost predicate Next(s: Log, line: string, next: Log, maxBytes: nat, archives: nat) {
    if !s.open || (ShouldRotate(s.files, |line|, maxBytes) && Blocked(s.files, archives)) then
      next == s.(open := false)
    else if !ShouldRotate(s.files, |line|, maxBytes) then
      && 0 in s.files && s.files[0].Regular?
      && next == Log(s.files[0 := Regular(s.files[0].lines + [line])], true, s.written + [line], s.mine + {0})
    else
      exists rotated :: IsRotated(s.files, rotated, archives) &&
        next == Log(rotated[0 := Regular([line])], true, s.written + [line],
                    (set i | i in s.mine && i < archives :: i + 1) + {0})
  }

  class DesktopLogger {
    const maxBytes: nat
    const archives: nat
    /** Whether the logger holds an open file; without one it uses stderr only. */
    var open: bool
    var files: Files
    /** The lines written through this logger, and the files holding any. */
    ghost var written: seq<string>
    ghost var mine: set<nat>

    ghost function State(): Log
      reads this
    {
      Log(files, open, written, mine)
    }

    predicate Valid()
      reads this
    {
      open ==> 0 in files && files[0].Regular?
    }

    /** prepare_log_file: the current path must be regular or missing. */
    constructor (existing: Files, maxBytes: nat, archives: nat)
      ensures Valid() && this.maxBytes == maxBytes && this.archives == archives
      ensures open <==> !(0 in existing && existing[0] == Special)
      ensures files == if open && 0 !in existing then existing[0 := Regular([])] else existing
      ensures written == [] && mine == {}
    {
      this.maxBytes := maxBytes;
      this.archives := archives;
      open := !(0 in existing && existing[0] == Special);
      files := if 0 !in existing then existing[0 := Regular([])] else existing;
      written, mine := [], {};
    }

    method Remove(i: nat)
      requires i in files
      modifies this`files
      ensures files == old(files) - {i}
    {
      files := files - {i};
    }

    /** A rename that never lands on an existing file. */
    method Rename(i: nat, j: nat)
      requires i in files && j !in files
      modifies this`files
      ensures files == (old(files) - {i})[j := old(files)[i]]
    {
      files := (files - {i})[j := files[i]];
    }

    /** The shift of a rotation. Every rename in it lands on a free slot. */
    method Shift()
      requires 0 in files
      modifies this`files
      ensures 0 !in files && Shifted(old(files), files, archives)
    {
      ghost var before := files;
      if archives > 0 {
        if archives in files {
          Remove(archives);
        }
        var index := archives - 1;
        while index > 0
          invariant 0 <= index < archives
          invariant index + 1 !in files
          invariant forall i: nat {:trigger Slot(files, i)} ::
                      index + 1 < i <= archives ==> Slot(files, i) == Slot(before, i - 1)
          invariant forall i: nat {:trigger Slot(files, i)} ::
                      i <= index || i > archives ==> Slot(files, i) == Slot(before, i)
        {
          label L:
          assert Slot(files, index) == Slot(before, index);
          if index in files {
            Rename(index, index + 1);
          }
          forall i: nat ensures i != index && i != index + 1 ==> Slot(files, i) == Slot(old@L(files), i) {
          }
          assert Slot(files, index + 1) == Slot(before, index);
          index := index - 1;
        }
        label M:
        assert Slot(files, 0) == Slot(before, 0);
        if 0 in files {
          Rename(0, 1);
        }
        forall i: nat ensures i > 1 ==> Slot(files, i) == Slot(old@M(files), i) {
        }
      } else if 0 in files {
        Remove(0);
      }
    }

    method RotateLog() returns (ok: bool)
      requires Valid() && open
      modifies this`open, this`files
      ensures Valid()
      ensures ok <==> !Blocked(old(files), archives)
      ensures ok ==> open && IsRotated(old(files), files, archives)
      ensures !ok ==> !open && files == old(files)
    {
      open := false;
      for index := 1 to archives + 1
        invariant forall i :: 1 <= i < index && i in files ==> files[i] != Special
      {
        if index in files && files[index] == Special {
          return false;
        }
      }
      Shift();
      ghost var shifted := files;
      files := files[0 := Regular([])];
      assert forall i: nat :: i > 0 ==> Slot(files, i) == Slot(shifted, i);
      open := true;
      ok := true;
    }

    method Event(line: string)
      requires Valid()
      modifies this
      ensures Valid()
      ensures Next(old(State()), line, State(), maxBytes, archives)
    {
      if !open {
        return;
      }
      if ShouldRotate(files, |line|, maxBytes) {
        var ok := RotateLog();
        if !ok {
          return;
        }
        mine := set i | i in mine && i < archives :: i + 1;
        assert [] + [line] == [line];
      }
      files := files[0 := Regular(files[0].lines + [line])];
      written, mine := written + [line], mine + {0};
    }
  }

  // ----- runs -----

  ghost predicate Run(states: seq<Log>, lines: seq<string>, maxBytes: nat, archives: nat) {
    && |states| == |lines| + 1
    && states[0].written == [] && states[0].mine == {}
    && (states[0].open ==> 0 in states[0].files && states[0].files[0].Regular?)
    && (forall k :: 0 <= k < |lines| ==> Next(states[k], lines[k], states[k + 1], maxBytes, archives))
  }

  lemma {:induction false} RotationDropsOldest(before: Files, after: Files, archives: nat, n: nat)
    requires IsRotated(before, after, archives) && n <= archives
    ensures Retained(after, n) == if n == 0 then [] else Retained(before, n - 1)
  {
    assert Slot(after, n) == if n == 0 then Some(Regular([])) else Slot(before, n - 1);
    if n > 0 {
      RotationDropsOldest(before, after, archives, n - 1);
    }
  }

  lemma {:induction false} AppendRetains(files: Files, line: string, n: nat)
    ensures Retained(files[0 := Regular(LinesOf(files, 0) + [line])], n) == Retained(files, n) + [line]
  {
    if n > 0 {
      AppendRetains(files, line, n - 1);
    }
  }

  ghost predicate Suffix(s: seq<string>, t: seq<string>) {
    exists d :: t == d + s
  }

  lemma AppendBoth(before: seq<string>, written: seq<string>, line: string, d: seq<string>, kept: seq<string>)
    requires before + written == d + kept
    ensures Suffix(kept + [line], before + (written + [line]))
  {
    assert before + (written + [line]) == (before + written) + [line] == (d + kept) + [line];
    assert before + (written + [line]) == d + (kept + [line]);
  }

  lemma NextRetainsSuffix(s: Log, line: string, next: Log, maxBytes: nat, archives: nat, before: seq<string>)
    requires Next(s, line, next, maxBytes, archives)
    requires Suffix(Retained(s.files, archives), before + s.written)
    ensures Suffix(Retained(next.files, archives), before + next.written)
  {
    var d :| before + s.written == d + Retained(s.files, archives);
    if next.written == s.written {
    } else if !ShouldRotate(s.files, |line|, maxBytes) {
      AppendRetains(s.files, line, archives);
      assert s.files[0].lines == LinesOf(s.files, 0);
      AppendBoth(before, s.written, line, d, Retained(s.files, archives));
    } else {
      var rotated :| IsRotated(s.files, rotated, archives) && next.files == rotated[0 := Regular([line])];
      RotationDropsOldest(s.files, rotated, archives, archives);
      AppendRetains(rotated, line, archives);
      assert LinesOf(rotated, 0) + [line] == [line];
      assert Retained(s.files, archives) == LinesOf(s.files, archives) + Retained(rotated, archives);
      assert d + Retained(s.files, archives) == (d + LinesOf(s.files, archives)) + Retained(rotated, archives);
      AppendBoth(before, s.written, line, d + LinesOf(s.files, archives), Retained(rotated, archives));
    }
  }

  /** Archives from oldest to newest, then the current file, are always a suffix
      of what the files held at the start followed by everything written since. */
  lemma {:induction false} RunRetainsSuffix(states: seq<Log>, lines: seq<string>, maxBytes: nat, archives: nat, k: nat)
    requires Run(states, lines, maxBytes, archives) && k <= |lines|
    ensures Suffix(Retained(states[k].files, archives), Retained(states[0].files, archives) + states[k].written)
  {
    var before := Retained(states[0].files, archives);
    if k == 0 {
      assert before + states[0].written == [] + before;
    } else {
      RunRetainsSuffix(states, lines, maxBytes, archives, k - 1);
      assert Next(states[k - 1], lines[k - 1], states[k - 1 + 1], maxBytes, archives);
      NextRetainsSuffix(states[k - 1], lines[k - 1], states[k], maxBytes, archives, before);
    }
  }

  /** With only regular files in the archive slots, every event is written. */
  lemma {:induction false} RunWritesAll(states: seq<Log>, lines: seq<string>, maxBytes: nat, archives: nat, k: nat)
    requires Run(states, lines, maxBytes, archives) && k <= |lines|
    requires states[0].open && !Blocked(states[0].files, archives)
    ensures states[k].open && states[k].written == lines[..k] && !Blocked(states[k].files, archives)
    ensures 0 in states[k].files && states[k].files[0].Regular?
  {
    if k > 0 {
      RunWritesAll(states, lines, maxBytes, archives, k - 1);
      var s, next, line := states[k - 1], states[k], lines[k - 1];
      assert Next(s, line, states[k - 1 + 1], maxBytes, archives);
      assert lines[..k] == lines[..k - 1] + [line];
      if ShouldRotate(s.files, |line|, maxBytes) {
        var rotated :| IsRotated(s.files, rotated, archives) && next.files == rotated[0 := Regular([line])];
        forall i | 1 <= i <= archives && i in next.files ensures next.files[i] != Special {
          assert Slot(rotated, i) == Slot(s.files, i - 1);
        }
      }
    }
  }

  function Longest(lines: seq<string>): nat {
    if lines == [] then 0 else
      var front, last := Longest(lines[..|lines| - 1]), |lines[|lines| - 1]|;
      if front > last then front else last
  }

  function SizeBound(lines: seq<string>, maxBytes: nat): nat {
    if Longest(lines) > maxBytes then Longest(lines) else maxBytes
  }

  ghost predicate SmallFile(files: Files, i: nat, bound: nat, archives: nat) {
    i <= archives && i in files && files[i].Regular? && Bytes(files[i].lines) <= bound
  }

  /** A file that received a line in this run is regular, in use, and no larger
      than the limit or the longest line written. */
  ghost predicate Small(s: Log, maxBytes: nat, archives: nat) {
    forall i :: i in s.mine ==> SmallFile(s.files, i, SizeBound(s.written, maxBytes), archives)
  }

  lemma BytesAppend(lines: seq<string>, line: string)
    ensures Bytes(lines + [line]) == Bytes(lines) + |line|
    ensures Longest(lines + [line]) == if Longest(lines) > |line| then Longest(lines) else |line|
  {
    assert (lines + [line])[..|lines|] == lines;
  }

  lemma BytesOfOne(line: string)
    ensures Bytes([line]) == |line|
  {
  }

  lemma AppendKeepsSmall(s: Log, line: string, maxBytes: nat, archives: nat)
    requires Small(s, maxBytes, archives) && !ShouldRotate(s.files, |line|, maxBytes)
    requires 0 in s.files && s.files[0].Regular?
    ensures Small(Log(s.files[0 := Regular(s.files[0].lines + [line])], true, s.written + [line], s.mine + {0}),
                  maxBytes, archives)
  {
    hide Bytes, Longest;
    BytesAppend(s.written, line);
    BytesAppend(s.files[0].lines, line);
  }

  lemma RotationKeepsSmall(s: Log, line: string, rotated: Files, maxBytes: nat, archives: nat)
    requires Small(s, maxBytes, archives) && IsRotated(s.files, rotated, archives)
    ensures Small(Log(rotated[0 := Regular([line])], true, s.written + [line],
                      (set i | i in s.mine && i < archives :: i + 1) + {0}), maxBytes, archives)
  {
    hide Longest, Bytes;
    BytesAppend(s.written, line);
    BytesOfOne(line);
    forall i | i in s.mine && i < archives
      ensures SmallFile(rotated, i + 1, SizeBound(s.written + [line], maxBytes), archives)
    {
      assert SmallFile(s.files, i, SizeBound(s.written, maxBytes), archives);
      assert Slot(rotated, i + 1) == Slot(s.files, i);
    }
  }

  lemma NextKeepsSmall(s: Log, line: string, next: Log, maxBytes: nat, archives: nat)
    requires Small(s, maxBytes, archives) && Next(s, line, next, maxBytes, archives)
    ensures Small(next, maxBytes, archives)
  {
    hide Bytes, Longest, IsRotated, SmallFile, Blocked, SizeBound;
    if !s.open || (ShouldRotate(s.files, |line|, maxBytes) && Blocked(s.files, archives)) {
    } else if !ShouldRotate(s.files, |line|, maxBytes) {
      AppendKeepsSmall(s, line, maxBytes, archives);
    } else {
      var rotated :| IsRotated(s.files, rotated, archives) &&
        next == Log(rotated[0 := Regular([line])], true, s.written + [line],
                    (set i | i in s.mine && i < archives :: i + 1) + {0});
      RotationKeepsSmall(s, line, rotated, maxBytes, archives);
    }
  }

  lemma {:induction false} RunKeepsFilesSmall(states: seq<Log>, lines: seq<string>, maxBytes: nat, archives: nat,
                                              k: nat)
    requires Run(states, lines, maxBytes, archives) && k <= |lines|
    ensures Small(states[k], maxBytes, archives)
  {
    if k > 0 {
      RunKeepsFilesSmall(states, lines, maxBytes, archives, k - 1);
      assert Next(states[k - 1], lines[k - 1], states[k - 1 + 1], maxBytes, archives);
      NextKeepsSmall(states[k - 1], lines[k - 1], states[k], maxBytes, archives);
    }
  }

  // ----- rotation happens when it must, and loses only the oldest file -----

  /** A line goes into the current file exactly while that file is empty or still
      has room for it; otherwise it starts a new one, and every file moves up by
      one. Either way nothing is lost but what the last archive held. */
  lemma LinesGoWhereTheyFit(s: Log, line: string, next: Log, maxBytes: nat, archives: nat)
    requires Next(s, line, next, maxBytes, archives) && s.open && next.open
    ensures var held := LinesOf(s.files, 0); var fits := Bytes(held) == 0 || Bytes(held + [line]) <= maxBytes;
      && LinesOf(next.files, 0) == (if fits then held + [line] else [line])
      && (forall i :: 0 < i <= archives ==> LinesOf(next.files, i) == LinesOf(s.files, if fits then i else i - 1))
      && (if fits then [] else LinesOf(s.files, archives)) + Retained(next.files, archives)
         == Retained(s.files, archives) + [line]
  {
    hide Retained, Blocked, Shifted, Bytes, Longest;
    var held := LinesOf(s.files, 0);
    BytesAppend(held, line);
    if !ShouldRotate(s.files, |line|, maxBytes) {
      assert held == s.files[0].lines;
      AppendRetains(s.files, line, archives);
      assert [] + Retained(next.files, archives) == Retained(next.files, archives);
    } else {
      var rotated :| IsRotated(s.files, rotated, archives) && next.files == rotated[0 := Regular([line])];
      RotatedSlots(s.files, rotated, archives);
      RotationDropsOldest(s.files, rotated, archives, archives);
      AppendRetains(rotated, line, archives);
      assert LinesOf(rotated, 0) + [line] == [line];
      RetainedUnfolds(s.files, archives);
      forall i | 0 < i <= archives ensures LinesOf(next.files, i) == LinesOf(s.files, i - 1) {
        assert LinesOf(next.files, i) == LinesOf(rotated, i);
      }
      if archives == 0 {
        assert Retained(s.files, 0) == LinesOf(s.files, 0);
        assert Retained(next.files, 0) == [line];
      } else {
        assert LinesOf(s.files, archives) + (Retained(s.files, archives - 1) + [line])
               == Retained(s.files, archives) + [line];
      }
    }
  }

  lemma RetainedUnfolds(files: Files, n: nat)
    ensures Retained(files, n) == if n == 0 then LinesOf(files, 0) else LinesOf(files, n) + Retained(files, n - 1)
  {
  }

  lemma RotatedSlots(before: Files, after: Files, archives: nat)
    requires IsRotated(before, after, archives)
    ensures LinesOf(after, 0) == []
    ensures forall i :: 0 < i <= archives ==> LinesOf(after, i) == LinesOf(before, i - 1)
  {
    assert Slot(after, 0) == Some(Regular([]));
    forall i | 0 < i <= archives ensures LinesOf(after, i) == LinesOf(before, i - 1) {
      assert Slot(after, i) == Slot(before, i - 1);
    }
  }

  /** Two neighbouring files that this run wrote: the older was not empty, and the
      first line of the newer did not fit into it any more. */
  ghost predicate FullBefore(s: Log, i: nat, maxBytes: nat) {
    i in s.mine && i + 1 in s.mine ==>
      && Bytes(LinesOf(s.files, i + 1)) > 0 && LinesOf(s.files, i) != []
      && Bytes(LinesOf(s.files, i + 1)) + |LinesOf(s.files, i)[0]| > maxBytes
  }

  ghost predicate ArchivesFull(s: Log, maxBytes: nat) {
    && (s.mine != {} ==> 0 in s.mine)
    && (forall i :: i in s.mine ==> LinesOf(s.files, i) != [])
    && (forall i: nat :: FullBefore(s, i, maxBytes))
  }

  lemma NextKeepsFull(s: Log, line: string, next: Log, maxBytes: nat, archives: nat)
    requires Next(s, line, next, maxBytes, archives) && ArchivesFull(s, maxBytes)
    requires forall i :: i in s.mine ==> i <= archives
    ensures ArchivesFull(next, maxBytes)
  {
    if next.written == s.written {
      forall i: nat ensures FullBefore(next, i, maxBytes) {
        assert FullBefore(s, i, maxBytes);
      }
    } else {
      hide Next, Retained, Bytes, Blocked, Shifted;
      WrittenFiles(s, line, next, maxBytes, archives);
      forall i | i in next.mine ensures LinesOf(next.files, i) != [] {
      }
      forall i: nat ensures FullBefore(next, i, maxBytes) {
        NeighboursStayFull(s, line, next, maxBytes, archives, i);
      }
    }
  }

  /** Which files hold lines of this run after a line was written. */
  lemma WrittenFiles(s: Log, line: string, next: Log, maxBytes: nat, archives: nat)
    requires Next(s, line, next, maxBytes, archives) && next.written != s.written
    ensures s.open && next.open
    ensures var held := LinesOf(s.files, 0); var fits := Bytes(held) == 0 || Bytes(held + [line]) <= maxBytes;
      && LinesOf(next.files, 0) == (if fits then held + [line] else [line])
      && (forall i :: 0 < i <= archives ==> LinesOf(next.files, i) == LinesOf(s.files, if fits then i else i - 1))
      && next.mine == (if fits then s.mine + {0} else (set i | i in s.mine && i < archives :: i + 1) + {0})
      && (!fits ==> Bytes(held) > 0 && Bytes(held) + |line| > maxBytes)
  {
    hide Retained, IsRotated;
    assert s.open && next.open;
    LinesGoWhereTheyFit(s, line, next, maxBytes, archives);
    BytesAppend(LinesOf(s.files, 0), line);
  }

  lemma NeighboursStayFull(s: Log, line: string, next: Log, maxBytes: nat, archives: nat, i: nat)
    requires Next(s, line, next, maxBytes, archives) && next.written != s.written && ArchivesFull(s, maxBytes)
    requires forall k :: k in s.mine ==> k <= archives
    ensures FullBefore(next, i, maxBytes)
  {
    hide Next, Retained, Bytes, Blocked, Shifted;
    WrittenFiles(s, line, next, maxBytes, archives);
    assert FullBefore(s, i, maxBytes);
    if i > 0 {
      assert FullBefore(s, i - 1, maxBytes);
    }
    if i in next.mine && i + 1 in next.mine {
      assert 0 in s.mine && LinesOf(s.files, 0) != [];
    }
  }

  /** Rotation never starts a new file early: in every run, the first line of a file
      would not have fitted into the file before it, if the run wrote both. */
  lemma {:induction false} RunFillsFiles(states: seq<Log>, lines: seq<string>, maxBytes: nat, archives: nat, k: nat)
    requires Run(states, lines, maxBytes, archives) && k <= |lines|
    ensures ArchivesFull(states[k], maxBytes)
  {
    hide Next, LinesOf, Bytes;
    if k > 0 {
      RunFillsFiles(states, lines, maxBytes, archives, k - 1);
      RunKeepsFilesSmall(states, lines, maxBytes, archives, k - 1);
      assert Next(states[k - 1], lines[k - 1], states[k - 1 + 1], maxBytes, archives);
      MineInUse(states[k - 1], maxBytes, archives);
      NextKeepsFull(states[k - 1], lines[k - 1], states[k], maxBytes, archives);
    }
  }

  lemma MineInUse(s: Log, maxBytes: nat, archives: nat)
    requires Small(s, maxBytes, archives)
    ensures forall i :: i in s.mine ==> i <= archives
  {
    forall i | i in s.mine ensures i <= archives {
      assert SmallFile(s.files, i, SizeBound(s.written, maxBytes), archives);
    }
  }

  /** The log falls back to stderr exactly when a line does not fit and one of the
      archive slots holds something that is not a regular file. */
  lemma ClosesOnlyWhenBlocked(s: Log, line: string, next: Log, maxBytes: nat, archives: nat)
    requires Next(s, line, next, maxBytes, archives) && s.open
    ensures !next.open <==>
      && Bytes(LinesOf(s.files, 0)) > 0 && Bytes(LinesOf(s.files, 0) + [line]) > maxBytes
      && exists i :: 1 <= i <= archives && i in s.files && !s.files[i].Regular?
    ensures !next.open ==> next.files == s.files && next.written == s.written
  {
    hide Bytes, Longest, IsRotated;
    BytesAppend(LinesOf(s.files, 0), line);
    if exists i :: 1 <= i <= archives && i in s.files && !s.files[i].Regular? {
      var i :| 1 <= i <= archives && i in s.files && !s.files[i].Regular?;
      assert s.files[i] == Special;
    }
  }
}
