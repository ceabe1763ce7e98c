/** Terminal output: a ring that keeps the newest bytes a shell wrote, and reads
    that resume at the offset the previous read returned. */
module WorkspaceTerminal {
  newtype Byte = x: int | 0 <= x < 256

  const OUTPUT_LIMIT: nat := 1024 * 1024
  const READ_LIMIT: nat := 64 * 1024

  function Min(a: nat, b: nat): nat { if a < b then a else b }

  function Max(a: nat, b: nat): nat { if a < b then b else a }

  /** What workspace_terminal_read returns; the text encoding of `data` is left out. */
  datatype TerminalOutput = TerminalOutput(data: seq<Byte>, nextOffset: nat, dropped: bool, ended: bool)

  /** How many of the bytes written so far the ring no longer holds. */
  function Lost(history: seq<Byte>): nat {
    if |history| > OUTPUT_LIMIT then |history| - OUTPUT_LIMIT else 0
  }

  /** A read stated over everything ever written rather than over the ring. */
  function ReadAt(history: seq<Byte>, ended: bool, offset: nat): TerminalOutput {
    var from := Min(Max(offset, Lost(history)), |history|);
    var next := Min(from + READ_LIMIT, |history|);
    TerminalOutput(history[from..next], next, offset < Lost(history), ended)
  }

  lemma SliceOfSlice(history: seq<Byte>, start: nat, from: nat, n: nat)
    requires start <= from && from + n <= |history|
    ensures history[start..][from - start..][..n] == history[from..from + n]
  {
  }

  class Output {
    var bytes: seq<Byte>
    var start: nat
    var ended: bool
    /** Every byte appended since the session began. */
    ghost var history: seq<Byte>

    ghost predicate Valid()
      reads this
    {
      start == Lost(history) && bytes == history[start..]
    }

    constructor ()
      ensures Valid() && history == [] && !ended
    {
      bytes, start, ended, history := [], 0, false, [];
    }

    method Append(data: seq<Byte>)
      requires Valid()
      modifies this`bytes, this`start, this`history
      ensures Valid() && history == old(history) + data
    {
      bytes := bytes + data;
      history := history + data;
      assert bytes == history[start..];
      var excess := if |bytes| > OUTPUT_LIMIT then |bytes| - OUTPUT_LIMIT else 0;
      bytes := bytes[excess..];
      start := start + excess;
    }

    method Read(offset: nat) returns (output: TerminalOutput)
      requires Valid()
      ensures output == ReadAt(history, ended, offset)
    {
      var from := Min(Max(offset, start), start + |bytes|);
      var rest := bytes[from - start..];
      var data := rest[..Min(READ_LIMIT, |rest|)];
      output := TerminalOutput(data, from + |data|, offset < start, ended);
      SliceOfSlice(history, start, from, |data|);
    }
  }

  // ----- a shell writing while one reader follows the returned offsets -----

  datatype Event = Append(data: seq<Byte>) | End | Read

  /** `outputs` records what each read returned, in order. */
  datatype Session = Session(history: seq<Byte>, ended: bool, offset: nat, outputs: seq<TerminalOutput>)

  /** The reading thread sets `ended` last, so nothing is appended after it. */
  function Step(s: Session, e: Event): Session {
    match e
    case Append(data) => if s.ended then s else s.(history := s.history + data)
    case End => s.(ended := true)
    case Read =>
      var output := ReadAt(s.history, s.ended, s.offset);
      s.(offset := output.nextOffset, outputs := s.outputs + [output])
  }

  function After(events: seq<Event>): Session {
    if events == [] then Session([], false, 0, []) else Step(After(events[..|events| - 1]), events[|events| - 1])
  }

  function Resume(outputs: seq<TerminalOutput>, k: nat): nat
    requires k <= |outputs|
  {
    if k == 0 then 0 else outputs[k - 1].nextOffset
  }

  /** Read k covers `history[from..nextOffset]`, where `from` is where the read
      before it stopped unless bytes were dropped, and then lies beyond it. */
  ghost predicate Placed(history: seq<Byte>, outputs: seq<TerminalOutput>, k: nat)
    requires k < |outputs|
  {
    var r := outputs[k];
    && |r.data| <= r.nextOffset <= |history|
    && r.data == history[r.nextOffset - |r.data|..r.nextOffset]
    && Resume(outputs, k) <= r.nextOffset - |r.data|
    && (r.dropped <==> Resume(outputs, k) < r.nextOffset - |r.data|)
  }

  lemma MoreHistoryKeepsPlace(history: seq<Byte>, data: seq<Byte>, outputs: seq<TerminalOutput>,
                              more: seq<TerminalOutput>, k: nat)
    requires k < |outputs| && Placed(history, outputs, k)
    ensures Placed(history + data, outputs + more, k)
  {
    var r := outputs[k];
    assert Resume(outputs + more, k) == Resume(outputs, k);
    assert (history + data)[r.nextOffset - |r.data|..r.nextOffset] == history[r.nextOffset - |r.data|..r.nextOffset];
  }

  lemma StepPlaces(s: Session, e: Event)
    requires s.offset == Resume(s.outputs, |s.outputs|) <= |s.history|
    requires forall k :: 0 <= k < |s.outputs| ==> Placed(s.history, s.outputs, k)
    ensures var next := Step(s, e);
      && next.offset == Resume(next.outputs, |next.outputs|) <= |next.history|
      && (forall k :: 0 <= k < |next.outputs| ==> Placed(next.history, next.outputs, k))
  {
    var next := Step(s, e);
    var data: seq<Byte> := if e.Append? && !s.ended then e.data else [];
    var more := if e.Read? then [ReadAt(s.history, s.ended, s.offset)] else [];
    assert next.history == s.history + data && next.outputs == s.outputs + more;
    forall k | 0 <= k < |next.outputs| ensures Placed(next.history, next.outputs, k) {
      if k < |s.outputs| {
        MoreHistoryKeepsPlace(s.history, data, s.outputs, more, k);
      } else {
        assert Resume(next.outputs, k) == s.offset;
      }
    }
  }

  /** However writes and reads interleave, the reads tile the history in order,
      with a gap in front of a read exactly when it reported `dropped`. */
  lemma {:induction false} ReadsTileHistory(events: seq<Event>)
    ensures var s := After(events);
      && s.offset == Resume(s.outputs, |s.outputs|) <= |s.history|
      && forall k :: 0 <= k < |s.outputs| ==> Placed(s.history, s.outputs, k)
  {
    if events != [] {
      ReadsTileHistory(events[..|events| - 1]);
      StepPlaces(After(events[..|events| - 1]), events[|events| - 1]);
    }
  }

  function Joined(outputs: seq<TerminalOutput>): seq<Byte> {
    if outputs == [] then [] else Joined(outputs[..|outputs| - 1]) + outputs[|outputs| - 1].data
  }

  lemma {:induction false} TilesJoin(history: seq<Byte>, outputs: seq<TerminalOutput>)
    requires forall k :: 0 <= k < |outputs| ==> Placed(history, outputs, k) && !outputs[k].dropped
    ensures Resume(outputs, |outputs|) <= |history| && Joined(outputs) == history[..Resume(outputs, |outputs|)]
  {
    hide Placed;
    if outputs == [] {
      assert history[..0] == [];
    } else {
      var n := |outputs| - 1;
      forall k | 0 <= k < n ensures Placed(history, outputs[..n], k) && !outputs[..n][k].dropped {
        PlacedInFront(history, outputs, n, k);
      }
      TilesJoin(history, outputs[..n]);
      LastTile(history, outputs);
    }
  }

  lemma LastTile(history: seq<Byte>, outputs: seq<TerminalOutput>)
    requires outputs != [] && Placed(history, outputs, |outputs| - 1) && !outputs[|outputs| - 1].dropped
    ensures var from, next := Resume(outputs[..|outputs| - 1], |outputs| - 1), Resume(outputs, |outputs|);
      from <= next <= |history| && history[..next] == history[..from] + outputs[|outputs| - 1].data
  {
    var n := |outputs| - 1;
    assert Resume(outputs[..n], n) == Resume(outputs, n);
  }

  lemma PlacedInFront(history: seq<Byte>, outputs: seq<TerminalOutput>, n: nat, k: nat)
    requires k < n <= |outputs| && Placed(history, outputs, k)
    ensures Placed(history, outputs[..n], k)
  {
    assert Resume(outputs[..n], k) == Resume(outputs, k);
  }

  /** With nothing dropped, the data read is exactly the history read so far,
      and all of it once a read reports the end and returns nothing. */
  lemma NothingDroppedNothingMissing(events: seq<Event>)
    requires forall r :: r in After(events).outputs ==> !r.dropped
    ensures var s := After(events);
      && s.offset <= |s.history| && Joined(s.outputs) == s.history[..s.offset]
      && (ReadAt(s.history, s.ended, s.offset).data == [] ==> Joined(s.outputs) == s.history)
  {
    ReadsTileHistory(events);
    var s := After(events);
    TilesJoin(s.history, s.outputs);
    if ReadAt(s.history, s.ended, s.offset).data == [] {
      ReadAdvances(s.history, s.ended, s.offset);
      assert s.history[..s.offset] == s.history;
    }
  }

  /** A read short of the end moves on; bytes are dropped only from a reader
      that is more than the ring's size behind; one past the end is put back. */
  lemma ReadAdvances(history: seq<Byte>, ended: bool, offset: nat)
    ensures var r := ReadAt(history, ended, offset);
      && (r.data != [] <==> offset < |history|)
      && (offset < |history| ==> offset < r.nextOffset)
      && (offset >= |history| ==> r.nextOffset == |history|)
      && (r.dropped <==> |history| - offset > 1_048_576)
      && |r.data| <= 65_536
  {
  }

  function ReadRepeatedly(history: seq<Byte>, ended: bool, offset: nat, n: nat): nat {
    if n == 0 then offset else ReadAt(history, ended, ReadRepeatedly(history, ended, offset, n - 1)).nextOffset
  }

  lemma {:induction false} ReadsCover(history: seq<Byte>, ended: bool, offset: nat, n: nat)
    requires n > 0
    ensures ReadRepeatedly(history, ended, offset, n) ==
              Min(Max(Min(offset, |history|), Lost(history)) + n * READ_LIMIT, |history|)
  {
    var step := ReadRepeatedly(history, ended, offset, n - 1);
    if n > 1 {
      ReadsCover(history, ended, offset, n - 1);
      assert n * READ_LIMIT == (n - 1) * READ_LIMIT + READ_LIMIT;
    }
  }

  /** While the shell is silent, sixteen reads catch up from any offset. */
  lemma SixteenReadsCatchUp(history: seq<Byte>, ended: bool, offset: nat)
    ensures ReadRepeatedly(history, ended, offset, 16) == |history|
  {
    ReadsCover(history, ended, offset, 16);
  }

  /** Fifteen may not: a full ring read from the start needs all sixteen. */
  lemma FifteenReadsMayNot(history: seq<Byte>, ended: bool)
    requires |history| == OUTPUT_LIMIT
    ensures ReadRepeatedly(history, ended, 0, 15) < |history|
  {
    ReadsCover(history, ended, 0, 15);
  }

  // ----- the end of the output -----

  lemma AfterSnoc(events: seq<Event>, e: Event)
    ensures After(events + [e]) == Step(After(events), e)
  {
    assert (events + [e])[..|events|] == events;
  }

  lemma {:induction false} EndedWhenEndCame(events: seq<Event>)
    ensures After(events).ended <==> End in events
  {
    if events != [] {
      var front, last := events[..|events| - 1], events[|events| - 1];
      EndedWhenEndCame(front);
      assert events == front + [last];
    }
  }

  /** A read says that the output ended exactly when the shell's stream had ended;
      nothing is added after that, so a read that says so and returns nothing
      leaves nothing to read, now or later. */
  lemma EndedIsFinal(events: seq<Event>, more: seq<Event>)
    ensures var s, r := After(events), After(events + [Read]);
      && |r.outputs| == |s.outputs| + 1 && (r.outputs[|s.outputs|].ended <==> End in events)
      && (r.outputs[|s.outputs|].ended ==> After(events + more).history == s.history)
      && (r.outputs[|s.outputs|].ended && r.outputs[|s.outputs|].data == [] ==>
            r.offset == |After(events + more).history|)
  {
    AfterSnoc(events, Read);
    EndedWhenEndCame(events);
    ReadsTileHistory(events);
    ReadAdvances(After(events).history, After(events).ended, After(events).offset);
    if After(events).ended {
      NothingAfterEnd(events, more);
    }
  }

  lemma {:induction false} NothingAfterEnd(events: seq<Event>, more: seq<Event>)
    requires After(events).ended
    ensures After(events + more).ended && After(events + more).history == After(events).history
  {
    if more == [] {
      assert events + more == events;
    } else {
      NothingAfterEnd(events, more[..|more| - 1]);
      assert events + more == events + more[..|more| - 1] + [more[|more| - 1]];
      AfterSnoc(events + more[..|more| - 1], more[|more| - 1]);
    }
  }

  lemma {:induction false} HistoryIsWritten(events: seq<Event>)
    requires End !in events
    ensures After(events).history == Written(events)
  {
    if events != [] {
      var front, last := events[..|events| - 1], events[|events| - 1];
      assert events == front + [last];
      HistoryIsWritten(front);
      EndedWhenEndCame(front);
      assert Written(front) + [] == Written(front);
    }
  }

  /** Everything the shell wrote, in order. */
  function Written(events: seq<Event>): seq<Byte> {
    if events == [] then [] else
      var last := events[|events| - 1];
      Written(events[..|events| - 1]) + if last.Append? then last.data else []
  }
}
