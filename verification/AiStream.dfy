/** Framing of the chat event stream: the read loop works on chunks, and is
    proved to deliver what one leftmost split of the whole text delivers. */
module AiStream {
  import opened Options

  // ----- the separator \r?\n\r?\n -----

  /** Length of the match of the separator at position `p`, or 0. */
  function MatchAt(s: string, p: nat): (n: nat)
    requires p <= |s|
    ensures p + n <= |s|
  {
    var a := if p < |s| && s[p] == '\r' then p + 1 else p;
    if a < |s| && s[a] == '\n' then
      var b := if a + 1 < |s| && s[a + 1] == '\r' then a + 2 else a + 1;
      if b < |s| && s[b] == '\n' then b + 1 - p else 0
    else 0
  }

  datatype Boundary = Boundary(index: nat, length: nat)

  /** The leftmost match at or after `p`. */
  function BoundaryFrom(s: string, p: nat): (r: Option<Boundary>)
    requires p <= |s|
    ensures r.Some? ==> p <= r.value.index <= |s| && 0 < r.value.length == MatchAt(s, r.value.index)
    ensures r.Some? ==> forall q :: p <= q < r.value.index ==> MatchAt(s, q) == 0
    ensures r.None? ==> forall q :: p <= q <= |s| ==> MatchAt(s, q) == 0
    decreases |s| - p
  {
    if MatchAt(s, p) > 0 then Some(Boundary(p, MatchAt(s, p)))
    else if p == |s| then None
    else BoundaryFrom(s, p + 1)
  }

  function FirstBoundary(s: string): Option<Boundary> {
    BoundaryFrom(s, 0)
  }

  /** The four strings that the separator matches. */
  const SEPARATORS: set<string> := {"\n\n", "\r\n\n", "\n\r\n", "\r\n\r\n"}

  /** MatchAt finds exactly the separators. */
  lemma MatchIsSeparator(s: string, p: nat, n: nat)
    requires p + n <= |s|
    ensures s[p..p + n] in SEPARATORS <==> n > 0 && n == MatchAt(s, p)
  {
    var m := s[p..p + n];
    assert forall j :: 0 <= j < n ==> m[j] == s[p + j];
    assert m == "\n\n" <==> n == 2 && m[0] == '\n' && m[1] == '\n';
    assert m == "\r\n\n" <==> n == 3 && m[0] == '\r' && m[1] == '\n' && m[2] == '\n';
    assert m == "\n\r\n" <==> n == 3 && m[0] == '\n' && m[1] == '\r' && m[2] == '\n';
    assert m == "\r\n\r\n" <==> n == 4 && m[0] == '\r' && m[1] == '\n' && m[2] == '\r' && m[3] == '\n';
  }

  // ----- the one-shot split -----

  datatype Part = Part(block: string, separator: string)

  function Parts(text: string): seq<Part>
    decreases |text|
  {
    var b := FirstBoundary(text);
    if b.None? then [] else
      var n := b.value.index + b.value.length;
      [Part(text[..b.value.index], text[b.value.index..n])] + Parts(text[n..])
  }

  function Tail(text: string): string
    decreases |text|
  {
    var b := FirstBoundary(text);
    if b.None? then text else Tail(text[b.value.index + b.value.length..])
  }

  function Join(parts: seq<Part>): string {
    if parts == [] then "" else parts[0].block + parts[0].separator + Join(parts[1..])
  }

  /** The text is cut at leftmost separators: no block lets a separator start
      earlier, and none is left in the tail. */
  ghost predicate LeftmostSplit(text: string, parts: seq<Part>, tail: string) {
    && text == Join(parts) + tail
    && FirstBoundary(tail).None?
    && (forall k :: 0 <= k < |parts| ==>
          FirstBoundary(parts[k].block + parts[k].separator)
          == Some(Boundary(|parts[k].block|, |parts[k].separator|)))
  }

  /** A match does not depend on what follows it. */
  lemma MatchIsStable(s: string, t: string, p: nat)
    requires p <= |s|
    ensures MatchAt(s, p) > 0 ==> MatchAt(s + t, p) == MatchAt(s, p)
    ensures MatchAt(s + t, p) > 0 && p + MatchAt(s + t, p) <= |s| ==> MatchAt(s, p) == MatchAt(s + t, p)
  {
  }

  /** The leftmost boundary of a text stays the leftmost when text is added: a
      separator that starts earlier cannot end later. */
  lemma BoundaryIsStable(s: string, t: string)
    requires FirstBoundary(s).Some?
    ensures FirstBoundary(s + t) == FirstBoundary(s)
  {
    var b := FirstBoundary(s).value;
    MatchIsStable(s, t, b.index);
    forall q | 0 <= q < b.index ensures MatchAt(s + t, q) == 0 {
      MatchIsStable(s, t, q);
    }
    var c := FirstBoundary(s + t);
    assert c.Some?;
  }

  lemma CutAcross(s: string, t: string, i: nat, n: nat)
    requires i <= n <= |s|
    ensures (s + t)[n..] == s[n..] + t && (s + t)[..i] == s[..i] && (s + t)[i..n] == s[i..n]
  {
  }

  /** Splitting can go on from the tail: the split is incremental. */
  lemma {:induction false} SplitIsIncremental(s: string, t: string)
    ensures Parts(s + t) == Parts(s) + Parts(Tail(s) + t)
    ensures Tail(s + t) == Tail(Tail(s) + t)
    decreases |s|
  {
    hide MatchAt;
    var b := FirstBoundary(s);
    if b.Some? {
      var n := b.value.index + b.value.length;
      BoundaryIsStable(s, t);
      CutAcross(s, t, b.value.index, n);
      SplitIsIncremental(s[n..], t);
      assert Parts(s + t) == [Part(s[..b.value.index], s[b.value.index..n])] + Parts(s[n..] + t);
      assert Parts(s) == [Part(s[..b.value.index], s[b.value.index..n])] + Parts(s[n..]);
    }
  }

  lemma {:induction false} SplitIsLeftmost(text: string)
    ensures LeftmostSplit(text, Parts(text), Tail(text))
    decreases |text|
  {
    hide FirstBoundary, MatchAt;
    var b := FirstBoundary(text);
    if b.None? {
      assert Join([]) + text == text;
    } else {
      hide LeftmostSplit;
      BoundaryInText(text);
      var i, n := b.value.index, b.value.index + b.value.length;
      SplitIsLeftmost(text[n..]);
      BoundaryOfPrefix(text, n);
      CutInThree(text, i, n);
      LeftmostCons(Part(text[..i], text[i..n]), text[n..], Parts(text[n..]), Tail(text));
    }
  }

  lemma CutInThree(text: string, i: nat, n: nat)
    requires i <= n <= |text|
    ensures text[..n] == text[..i] + text[i..n] && text == text[..i] + text[i..n] + text[n..]
  {
  }

  lemma LeftmostCons(p: Part, text: string, rest: seq<Part>, tail: string)
    requires FirstBoundary(p.block + p.separator) == Some(Boundary(|p.block|, |p.separator|))
    requires LeftmostSplit(text, rest, tail)
    ensures LeftmostSplit(p.block + p.separator + text, [p] + rest, tail)
  {
    hide FirstBoundary;
    assert ([p] + rest)[1..] == rest;
    assert Join([p] + rest) + tail == (p.block + p.separator) + (Join(rest) + tail);
  }

  lemma BoundaryOfPrefix(text: string, n: nat)
    requires FirstBoundary(text).Some? && n == FirstBoundary(text).value.index + FirstBoundary(text).value.length
    ensures FirstBoundary(text[..n]) == FirstBoundary(text)
  {
    var s, t := text[..n], text[n..];
    assert text == s + t;
    var b := FirstBoundary(text).value;
    MatchIsStable(s, t, b.index);
    BoundaryIsStable(s, t);
  }

  /** `Parts` and `Tail` are the only leftmost split. */
  lemma {:induction false} SplitIsUnique(text: string, parts: seq<Part>, tail: string)
    requires LeftmostSplit(text, parts, tail)
    ensures parts == Parts(text) && tail == Tail(text)
    decreases |parts|
  {
    hide MatchAt;
    if parts != [] {
      var p := parts[0];
      var rest := Join(parts[1..]) + tail;
      assert text == (p.block + p.separator) + rest;
      BoundaryIsStable(p.block + p.separator, rest);
      var n := |p.block| + |p.separator|;
      assert text[..|p.block|] == p.block && text[|p.block|..n] == p.separator && text[n..] == rest;
      SplitIsUnique(rest, parts[1..], tail);
    } else {
      assert text == tail;
    }
  }

  // ----- what the caller receives -----

  /** One block parsed: an event, which may end the stream, nothing, or an error. */
  datatype Outcome<E> = Event(event: E, terminal: bool) | Nothing | Throws
  datatype Verdict = Finished | Incomplete | Rejected
  datatype Delivery<E> = Delivery(events: seq<E>, verdict: Verdict)

  function Blocks(parts: seq<Part>): (r: seq<string>)
    ensures |r| == |parts|
  {
    if parts == [] then [] else [parts[0].block] + Blocks(parts[1..])
  }

  /** Events up to the first terminal one or the first error. */
  function Deliver<E>(parse: string -> Outcome<E>, blocks: seq<string>): Delivery<E> {
    if blocks == [] then Delivery([], Incomplete) else
    match parse(blocks[0])
    case Throws => Delivery([], Rejected)
    case Nothing => Deliver(parse, blocks[1..])
    case Event(event, terminal) =>
      if terminal then Delivery([event], Finished) else
        var rest := Deliver(parse, blocks[1..]);
        Delivery([event] + rest.events, rest.verdict)
  }

  lemma {:induction false} BlocksAppend(a: seq<Part>, b: seq<Part>)
    ensures Blocks(a + b) == Blocks(a) + Blocks(b)
  {
    if a == [] {
      assert a + b == b;
    } else {
      assert (a + b)[1..] == a[1..] + b;
      BlocksAppend(a[1..], b);
    }
  }

  /** Blocks after a terminal event or an error do not matter. */
  lemma {:induction false} DeliverAppend<E>(parse: string -> Outcome<E>, a: seq<string>, b: seq<string>)
    ensures var d, r := Deliver(parse, a), Deliver(parse, b);
            Deliver(parse, a + b) ==
            if d.verdict == Incomplete then Delivery(d.events + r.events, r.verdict) else d
  {
    if a == [] {
      assert a + b == b;
    } else {
      assert (a + b)[1..] == a[1..] + b;
      DeliverAppend(parse, a[1..], b);
    }
  }

  // ----- the same, said of any leftmost split -----

  /** The outcome ends the stream. */
  predicate Stops<E>(o: Outcome<E>) {
    o.Throws? || (o.Event? && o.terminal)
  }

  /** The events of these blocks in order; other blocks contribute nothing. */
  function EventsOf<E>(parse: string -> Outcome<E>, parts: seq<Part>): seq<E> {
    if parts == [] then [] else
      var o := parse(parts[|parts| - 1].block);
      EventsOf(parse, parts[..|parts| - 1]) + if o.Event? then [o.event] else []
  }

  /** The first `n` blocks do not end the stream, and block `n`, if there is one,
      does: by its terminal event, which is forwarded too, or by its error. */
  ghost predicate EndsAt<E>(parse: string -> Outcome<E>, parts: seq<Part>, events: seq<E>, verdict: Verdict, n: nat)
    requires n <= |parts|
  {
    && (forall k :: 0 <= k < n ==> !Stops(parse(parts[k].block)))
    && if n == |parts| then verdict == Incomplete && events == EventsOf(parse, parts)
       else
         var o := parse(parts[n].block);
         && Stops(o)
         && verdict == (if o.Throws? then Rejected else Finished)
         && events == EventsOf(parse, parts[..n]) + if o.Event? then [o.event] else []
  }

  ghost predicate Received<E>(parse: string -> Outcome<E>, parts: seq<Part>, events: seq<E>, verdict: Verdict) {
    exists n: nat :: n <= |parts| && EndsAt(parse, parts, events, verdict, n)
  }

  ghost predicate NoneStops<E>(parse: string -> Outcome<E>, parts: seq<Part>) {
    forall k :: 0 <= k < |parts| ==> !Stops(parse(parts[k].block))
  }

  lemma IncompleteMeansNoEnd<E>(parse: string -> Outcome<E>, parts: seq<Part>, events: seq<E>, verdict: Verdict)
    requires Received(parse, parts, events, verdict)
    ensures verdict == Incomplete <==> NoneStops(parse, parts)
  {
    var n: nat :| n <= |parts| && EndsAt(parse, parts, events, verdict, n);
  }

  lemma {:induction false} DeliveryIsReceived<E>(parse: string -> Outcome<E>, parts: seq<Part>)
    ensures var d := Deliver(parse, Blocks(parts)); Received(parse, parts, d.events, d.verdict)
  {
    if parts == [] {
      assert EndsAt(parse, parts, [], Incomplete, 0);
    } else {
      var front, last := parts[..|parts| - 1], parts[|parts| - 1];
      assert parts == front + [last];
      DeliveryIsReceived(parse, front);
      BlocksAppend(front, [last]);
      assert Blocks([last]) == [last.block];
      var d := Deliver(parse, Blocks(front));
      var n: nat :| n <= |front| && EndsAt(parse, front, d.events, d.verdict, n);
      DeliverAppend(parse, Blocks(front), [last.block]);
      if n == |front| {
        DeliverNext(parse, Blocks(front), d.events, last.block);
        var all := Deliver(parse, Blocks(parts));
        assert EndsAt(parse, parts, all.events, all.verdict, if Stops(parse(last.block)) then n else n + 1);
      } else {
        assert parts[..n] == front[..n];
        assert EndsAt(parse, parts, d.events, d.verdict, n);
      }
    }
  }

  lemma SplitsReceive<E>(parse: string -> Outcome<E>, text: string, parts: seq<Part>, tail: string)
    requires LeftmostSplit(text, parts, tail)
    ensures Received(parse, parts, Expected(parse, text).events, Expected(parse, text).verdict)
  {
    hide LeftmostSplit, Received;
    SplitIsUnique(text, parts, tail);
    DeliveryIsReceived(parse, parts);
  }

  function Concat(chunks: seq<string>): string {
    if chunks == [] then "" else Concat(chunks[..|chunks| - 1]) + chunks[|chunks| - 1]
  }

  lemma {:induction false} ConcatSplit(chunks: seq<string>, n: nat)
    requires n <= |chunks|
    ensures exists rest :: Concat(chunks) == Concat(chunks[..n]) + rest
    decreases |chunks| - n
  {
    if n == |chunks| {
      assert chunks[..n] == chunks;
      assert Concat(chunks) == Concat(chunks[..n]) + "";
    } else {
      ConcatSplit(chunks, n + 1);
      var rest :| Concat(chunks) == Concat(chunks[..n + 1]) + rest;
      assert chunks[..n + 1][..n] == chunks[..n];
      assert Concat(chunks) == Concat(chunks[..n]) + (chunks[n] + rest);
    }
  }

  /** What the whole text delivers. */
  function Expected<E>(parse: string -> Outcome<E>, text: string): Delivery<E> {
    Deliver(parse, Blocks(Parts(text)))
  }

  /** A delivery that has ended stays the same whatever text follows. */
  lemma EndedDeliveryIsStable<E>(parse: string -> Outcome<E>, s: string, t: string, seen: seq<string>)
    requires seen <= Blocks(Parts(s)) && Deliver(parse, seen).verdict != Incomplete
    ensures Expected(parse, s + t) == Deliver(parse, seen)
  {
    hide Parts, Tail, Blocks, Deliver;
    SplitIsIncremental(s, t);
    BlocksAppend(Parts(s), Parts(Tail(s) + t));
    var all := Blocks(Parts(s + t));
    assert all == seen + all[|seen|..];
    DeliverAppend(parse, seen, all[|seen|..]);
  }

  lemma NextBlock(buffer: string)
    requires FirstBoundary(buffer).Some?
    ensures var b := FirstBoundary(buffer).value; var rest := buffer[b.index + b.length..];
            Blocks(Parts(buffer)) == [buffer[..b.index]] + Blocks(Parts(rest)) && Tail(buffer) == Tail(rest)
  {
    var b := FirstBoundary(buffer).value;
    var rest := buffer[b.index + b.length..];
    assert Parts(buffer)[1..] == Parts(rest);
  }

  lemma DeliverNext<E>(parse: string -> Outcome<E>, seen: seq<string>, events: seq<E>, block: string)
    requires Deliver(parse, seen) == Delivery(events, Incomplete)
    ensures Deliver(parse, seen + [block]) ==
            match parse(block)
            case Throws => Delivery(events, Rejected)
            case Nothing => Delivery(events, Incomplete)
            case Event(event, terminal) => Delivery(events + [event], if terminal then Finished else Incomplete)
  {
    DeliverAppend(parse, seen, [block]);
    assert Deliver(parse, [block][1..]) == Delivery([], Incomplete);
  }

  lemma NextChunk(chunks: seq<string>, n: nat)
    requires n < |chunks|
    ensures var before := Concat(chunks[..n]); var buffer := Tail(before) + chunks[n];
            && Blocks(Parts(Concat(chunks[..n + 1]))) == Blocks(Parts(before)) + Blocks(Parts(buffer))
            && Tail(Concat(chunks[..n + 1])) == Tail(buffer)
  {
    var before := Concat(chunks[..n]);
    assert chunks[..n + 1][..n] == chunks[..n];
    SplitIsIncremental(before, chunks[n]);
    BlocksAppend(Parts(before), Parts(Tail(before) + chunks[n]));
  }

  lemma EarlyEnd<E>(parse: string -> Outcome<E>, chunks: seq<string>, n: nat, seen: seq<string>)
    requires n <= |chunks| && seen <= Blocks(Parts(Concat(chunks[..n])))
    requires Deliver(parse, seen).verdict != Incomplete
    ensures Expected(parse, Concat(chunks)) == Deliver(parse, seen)
  {
    ConcatSplit(chunks, n);
    var later :| Concat(chunks) == Concat(chunks[..n]) + later;
    EndedDeliveryIsStable(parse, Concat(chunks[..n]), later, seen);
  }

  lemma NoBoundaryNoBlock(buffer: string)
    requires FirstBoundary(buffer).None?
    ensures Blocks(Parts(buffer)) == [] && Tail(buffer) == buffer
  {
  }

  /** What the read loop answers, for every cut of the text into chunks and every
      leftmost split of the whole text: the events of its blocks in order, up to
      the first block that ends the stream. The answer is Incomplete exactly when
      no block does, whatever is left in the tail. */
  method StreamAiChat<E>(parse: string -> Outcome<E>, chunks: seq<string>)
    returns (events: seq<E>, verdict: Verdict)
    ensures forall parts, tail :: LeftmostSplit(Concat(chunks), parts, tail) ==>
              && Received(parse, parts, events, verdict)
              && (verdict == Incomplete <==> NoneStops(parse, parts))
  {
    hide LeftmostSplit, Received, NoneStops;
    events, verdict := ReadLoop(parse, chunks);
    forall parts, tail | LeftmostSplit(Concat(chunks), parts, tail)
      ensures Received(parse, parts, events, verdict) && (verdict == Incomplete <==> NoneStops(parse, parts))
    {
      SplitsReceive(parse, Concat(chunks), parts, tail);
      IncompleteMeansNoEnd(parse, parts, events, verdict);
    }
  }

  /** The loop delivers what the one-shot split of the whole text delivers. */
  method ReadLoop<E>(parse: string -> Outcome<E>, chunks: seq<string>)
    returns (events: seq<E>, verdict: Verdict)
    ensures Delivery(events, verdict) == Expected(parse, Concat(chunks))
  {
    hide Parts, Tail, Blocks, Deliver, FirstBoundary, Concat;
    var buffer := "";
    events := [];
    ghost var seen: seq<string> := [];
    NothingYet(parse);
    for n := 0 to |chunks|
      invariant Blocks(Parts(Concat(chunks[..n]))) == seen && Tail(Concat(chunks[..n])) == buffer
      invariant Deliver(parse, seen) == Delivery(events, Incomplete)
    {
      ghost var blocks := Blocks(Parts(Concat(chunks[..n + 1])));
      NextChunk(chunks, n);
      buffer := buffer + chunks[n];
      var boundary := FirstBoundary(buffer);
      while boundary.Some?
        invariant boundary == FirstBoundary(buffer)
        invariant blocks == seen + Blocks(Parts(buffer)) && Tail(Concat(chunks[..n + 1])) == Tail(buffer)
        invariant Deliver(parse, seen) == Delivery(events, Incomplete)
        decreases |buffer|
      {
        BoundaryInText(buffer);
        NextBlock(buffer);
        var block := buffer[..boundary.value.index];
        buffer := buffer[boundary.value.index + boundary.value.length..];
        DeliverNext(parse, seen, events, block);
        seen := seen + [block];
        var outcome := parse(block);
        if outcome.Throws? {
          EarlyEnd(parse, chunks, n + 1, seen);
          return events, Rejected;
        }
        if outcome.Event? {
          events := events + [outcome.event];
          if outcome.terminal {
            EarlyEnd(parse, chunks, n + 1, seen);
            return events, Finished;
          }
        }
        boundary := FirstBoundary(buffer);
      }
      NoBoundaryNoBlock(buffer);
    }
    assert chunks[..|chunks|] == chunks;
    verdict := Incomplete;
  }

  lemma BoundaryInText(s: string)
    ensures FirstBoundary(s).Some? ==>
              FirstBoundary(s).value.index + FirstBoundary(s).value.length <= |s|
              && FirstBoundary(s).value.length > 0
  {
  }

  lemma NothingYet<E>(parse: string -> Outcome<E>)
    ensures Blocks(Parts(Concat([]))) == [] && Tail(Concat([])) == ""
    ensures Deliver(parse, []) == Delivery([], Incomplete)
  {
  }
}
