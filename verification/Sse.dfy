/**
 Framing of a server-sent event stream: cutting buffered bytes into events at blank lines, and
 reading the data of an event (sections 9.2.5 and 9.2.6 of the WHATWG HTML standard).
 */
module Sse {
  import opened Wrappers
  import opened Bytes

  const MAX_SSE_BUFFER: nat := 4_194_304

  const CRLF_CRLF: seq<Byte> := [13, 10, 13, 10]
  const LF_LF: seq<Byte> := [10, 10]
  const DATA: seq<Byte> := [100, 97, 116, 97, 58]
  const SPACE: seq<Byte> := [32]

  // ---------------------------------------------------------------------------------------
  // Cutting events
  // ---------------------------------------------------------------------------------------

  /** Where the first buffered event ends: at the first CRLF CRLF anywhere, otherwise at the first
      LF LF. */
  function FindEventEnd(buffer: seq<Byte>): (end: Option<nat>)
    ensures end.Some? ==> end.value + 2 <= |buffer|
  {
    match Find(buffer, CRLF_CRLF)
    case Some(p) => Some(p)
    case None => Find(buffer, LF_LF)
  }

  function SeparatorLength(rest: seq<Byte>): nat {
    if StartsWith(rest, CRLF_CRLF) then 4 else 2
  }

  datatype Cut = Cut(events: seq<seq<Byte>>, rest: seq<Byte>)

  function Before(event: seq<Byte>, later: Cut): Cut {
    later.(events := [event] + later.events)
  }

  /** Every complete event in the buffer, and what stays buffered. */
  function CutAll(buffer: seq<Byte>): Cut
    decreases |buffer|
  {
    match FindEventEnd(buffer)
    case None => Cut([], buffer)
    case Some(end) => Before(buffer[..end], CutAll(buffer[end + SeparatorLength(buffer[end..])..]))
  }

  /** The same for a stream that arrives in chunks, starting from a buffered rest. */
  function CutChunks(rest: seq<Byte>, chunks: seq<seq<Byte>>): Cut
    decreases |chunks|
  {
    if chunks == [] then Cut([], rest)
    else
      var first := CutAll(rest + chunks[0]);
      var later := CutChunks(first.rest, chunks[1..]);
      Cut(first.events + later.events, later.rest)
  }

  /** The buffer outgrows the limit at some chunk. */
  predicate Overflows(rest: seq<Byte>, chunks: seq<seq<Byte>>, limit: nat)
    decreases |chunks|
  {
    chunks != []
    && (limit < |rest + chunks[0]| || Overflows(CutAll(rest + chunks[0]).rest, chunks[1..], limit))
  }

  /** The two separators, byte by byte. */
  lemma WhatSeparates(s: seq<Byte>, p: nat)
    ensures OccursAt(s, CRLF_CRLF, p) <==>
              p + 4 <= |s| && s[p] == 13 && s[p + 1] == 10 && s[p + 2] == 13 && s[p + 3] == 10
    ensures OccursAt(s, LF_LF, p) <==> p + 2 <= |s| && s[p] == 10 && s[p + 1] == 10
  {
    if p + 4 <= |s| {
      assert s[p..p + 4] == [s[p], s[p + 1], s[p + 2], s[p + 3]];
    }
    if p + 2 <= |s| {
      assert s[p..p + 2] == [s[p], s[p + 1]];
    }
  }

  /** The buffer is looked at after each chunk, before anything is cut from it. */
  lemma WhatOverflows(rest: seq<Byte>, chunk: seq<Byte>, later: seq<seq<Byte>>, limit: nat)
    ensures !Overflows(rest, [], limit)
    ensures Overflows(rest, [chunk] + later, limit) <==>
              |rest| + |chunk| > limit || Overflows(CutAll(rest + chunk).rest, later, limit)
  {
    assert ([chunk] + later)[1..] == later;
  }

  lemma SeparatorHere(s: seq<Byte>, p: nat)
    requires p <= |s|
    ensures SeparatorLength(s[p..]) == if OccursAt(s, CRLF_CRLF, p) then 4 else 2
  {
    if p + 4 <= |s| {
      assert s[p..][..4] == s[p..p + 4];
    }
  }

  lemma CutAtCrlf(s: seq<Byte>, j: nat)
    requires Find(s, CRLF_CRLF) == Some(j)
    ensures j + 4 <= |s| && CutAll(s) == Before(s[..j], CutAll(s[j + 4..]))
  {
    SeparatorHere(s, j);
  }

  lemma CutAtLf(s: seq<Byte>, i: nat)
    requires Find(s, CRLF_CRLF) == None && Find(s, LF_LF) == Some(i)
    ensures i + 2 <= |s| && CutAll(s) == Before(s[..i], CutAll(s[i + 2..]))
  {
    SeparatorHere(s, i);
    assert !OccursAt(s, CRLF_CRLF, i);
  }

  /** No event that ends in LF LF is followed by a CRLF CRLF: at each cut the first CRLF CRLF still
      in the stream, if any, comes before the first LF LF. */
  predicate Unmixed(s: seq<Byte>)
    decreases |s|
  {
    match Find(s, CRLF_CRLF)
    case None => true
    case Some(j) =>
      && (match Find(s, LF_LF) case None => true case Some(i) => j < i)
      && Unmixed(s[j + 4..])
  }

  /** A CRLF CRLF that starts before an LF LF ends before it ends. */
  lemma SeparatorsApart(s: seq<Byte>, i: nat, j: nat)
    requires OccursAt(s, LF_LF, i) && OccursAt(s, CRLF_CRLF, j) && j < i
    ensures j + 3 <= i
  {
    assert s[j..j + 4][0] == s[j] && s[j..j + 4][1] == s[j + 1] && s[j..j + 4][2] == s[j + 2];
    assert s[i..i + 2][0] == s[i] && s[i..i + 2][1] == s[i + 1];
  }

  lemma OccursInPrefix(a: seq<Byte>, b: seq<Byte>, pattern: seq<Byte>, p: nat)
    requires p + |pattern| <= |a|
    ensures OccursAt(a + b, pattern, p) == OccursAt(a, pattern, p)
  {
    assert (a + b)[p..p + |pattern|] == a[p..p + |pattern|];
  }

  lemma OccursInSuffix(s: seq<Byte>, n: nat, pattern: seq<Byte>, p: nat)
    requires n <= |s|
    ensures OccursAt(s[n..], pattern, p) == OccursAt(s, pattern, n + p)
  {
    if n + p + |pattern| <= |s| {
      assert s[n..][p..p + |pattern|] == s[n + p..n + p + |pattern|];
    }
  }

  lemma FindInPrefix(a: seq<Byte>, b: seq<Byte>, pattern: seq<Byte>)
    requires Find(a, pattern).Some?
    ensures Find(a + b, pattern) == Find(a, pattern)
  {
    var p := Find(a, pattern).value;
    forall q: nat | q <= p
      ensures OccursAt(a + b, pattern, q) == OccursAt(a, pattern, q)
    {
      OccursInPrefix(a, b, pattern, q);
    }
    FindIs(a + b, pattern, p);
  }

  lemma NoneInSuffix(s: seq<Byte>, n: nat, pattern: seq<Byte>)
    requires n <= |s| && Find(s, pattern).None?
    ensures Find(s[n..], pattern).None?
  {
    if Find(s[n..], pattern).Some? {
      OccursInSuffix(s, n, pattern, Find(s[n..], pattern).value);
    }
  }

  /** In an unmixed stream, what can be cut early is what would be cut late. */
  lemma {:induction false} CutEarly(a: seq<Byte>, b: seq<Byte>)
    requires Unmixed(a + b)
    ensures var early := CutAll(a);
            var late := CutAll(early.rest + b);
            CutAll(a + b) == Cut(early.events + late.events, late.rest)
    ensures Unmixed(CutAll(a).rest + b)
    decreases |a|
  {
    hide CutAll, Find;
    match Find(a, CRLF_CRLF)
    case Some(j) =>
      FindInPrefix(a, b, CRLF_CRLF);
      CutAtCrlf(a, j);
      CutAtCrlf(a + b, j);
      assert (a + b)[..j] == a[..j] && (a + b)[j + 4..] == a[j + 4..] + b;
      CutEarly(a[j + 4..], b);
      PrependEvent(a[..j], CutAll(a[j + 4..]), CutAll(CutAll(a[j + 4..]).rest + b));
    case None =>
      match Find(a, LF_LF)
      case None =>
        NothingToCut(a);
        assert [] + CutAll(a + b).events == CutAll(a + b).events;
      case Some(i) =>
        FindInPrefix(a, b, LF_LF);
        NoLateCrlf(a, b, i);
        CutAtLf(a, i);
        CutAtLf(a + b, i);
        assert (a + b)[..i] == a[..i] && (a + b)[i + 2..] == a[i + 2..] + b;
        NoneInSuffix(a + b, i + 2, CRLF_CRLF);
        CutEarly(a[i + 2..], b);
        PrependEvent(a[..i], CutAll(a[i + 2..]), CutAll(CutAll(a[i + 2..]).rest + b));
  }

  lemma NothingToCut(a: seq<Byte>)
    requires Find(a, CRLF_CRLF).None? && Find(a, LF_LF).None?
    ensures CutAll(a) == Cut([], a)
  {
  }

  lemma PrependEvent(event: seq<Byte>, early: Cut, late: Cut)
    ensures Before(event, Cut(early.events + late.events, late.rest))
         == Cut(Before(event, early).events + late.events, late.rest)
  {
    assert [event] + (early.events + late.events) == ([event] + early.events) + late.events;
  }

  lemma NoLateCrlf(a: seq<Byte>, b: seq<Byte>, i: nat)
    requires Unmixed(a + b) && Find(a, CRLF_CRLF).None? && Find(a, LF_LF) == Some(i) && Find(a + b, LF_LF) == Some(i)
    ensures Find(a + b, CRLF_CRLF).None?
  {
    if Find(a + b, CRLF_CRLF).Some? {
      var j := Find(a + b, CRLF_CRLF).value;
      SeparatorsApart(a + b, i, j);
      OccursInPrefix(a, b, CRLF_CRLF, j);
    }
  }

  /** Chunk independence, one way: however an unmixed stream is cut into chunks, the events are
      those of the whole stream. */
  lemma {:induction false} ChunksDoNotMatter(rest: seq<Byte>, chunks: seq<seq<Byte>>)
    requires Unmixed(rest + Concat(chunks))
    ensures CutAll(rest).events == [] ==> CutChunks(rest, chunks) == CutAll(rest + Concat(chunks))
    decreases |chunks|
  {
    if chunks == [] {
      assert rest + Concat(chunks) == rest;
      if CutAll(rest).events == [] {
        NoEventsKeepsAll(rest);
      }
    } else {
      var a, b := rest + chunks[0], Concat(chunks[1..]);
      assert rest + Concat(chunks) == a + b;
      CutEarly(a, b);
      ChunksDoNotMatter(CutAll(a).rest, chunks[1..]);
      RestHasNoEvents(a);
    }
  }

  lemma NoEventsKeepsAll(s: seq<Byte>)
    requires CutAll(s).events == []
    ensures CutAll(s) == Cut([], s)
  {
  }

  lemma {:induction false} RestHasNoEvents(s: seq<Byte>)
    ensures CutAll(CutAll(s).rest).events == []
    decreases |s|
  {
    match FindEventEnd(s)
    case None =>
    case Some(end) => RestHasNoEvents(s[end + SeparatorLength(s[end..])..]);
  }

  /** Chunk independence, the other way: a mixed stream can be split in two so that other events
      come out. */
  lemma {:induction false} MixedStreamsDiffer(s: seq<Byte>) returns (a: seq<Byte>, b: seq<Byte>)
    requires !Unmixed(s)
    ensures a + b == s && CutChunks([], [a, b]).events != CutAll(s).events
    decreases |s|
  {
    var j := Find(s, CRLF_CRLF).value;
    var lf := Find(s, LF_LF);
    hide CutAll, CutChunks, Find, OccursAt;
    if lf.Some? && lf.value <= j {
      a, b := s[..lf.value + 2], s[lf.value + 2..];
      SplitAfterLf(s, lf.value, j);
    } else {
      assert !Unmixed(s[j + 4..]);
      hide Unmixed;
      var a', b' := MixedStreamsDiffer(s[j + 4..]);
      a, b := s[..j + 4] + a', b';
      SplitLater(s, j, a', b');
    }
  }

  lemma Reassemble(s: seq<Byte>, n: nat, a: seq<Byte>, b: seq<Byte>)
    requires n <= |s| && a + b == s[n..]
    ensures (s[..n] + a) + b == s
    ensures (s[..n] + a)[n..] == a
  {
  }

  lemma SplitAfterLf(s: seq<Byte>, i: nat, j: nat)
    requires Find(s, LF_LF) == Some(i) && Find(s, CRLF_CRLF) == Some(j) && i <= j
    ensures i + 2 <= |s| && s[..i + 2] + s[i + 2..] == s
    ensures CutChunks([], [s[..i + 2], s[i + 2..]]).events != CutAll(s).events
  {
    LonelyLf(s, i, j);
    CutAtCrlf(s, j);
    SeparatorsDiffer(s, i, j);
    TakeDrop(s, i + 2);
    hide CutAll, CutChunks, Find, OccursAt;
    var a, b := s[..i + 2], s[i + 2..];
    TwoChunks(a, b);
    assert CutChunks([], [a, b]).events[0] == s[..i];
    assert CutAll(s).events[0] == s[..j];
    assert |s[..i]| == i && |s[..j]| == j;
  }

  lemma TakeDrop(s: seq<Byte>, n: nat)
    requires n <= |s|
    ensures s[..n] + s[n..] == s
  {
  }

  lemma SeparatorsDiffer(s: seq<Byte>, i: nat, j: nat)
    requires OccursAt(s, LF_LF, i) && OccursAt(s, CRLF_CRLF, j)
    ensures i != j
  {
    assert s[i..i + 2][0] == s[i] && s[j..j + 4][0] == s[j];
  }

  lemma SplitLater(s: seq<Byte>, j: nat, a': seq<Byte>, b': seq<Byte>)
    requires Find(s, CRLF_CRLF) == Some(j) && a' + b' == s[j + 4..]
    requires CutChunks([], [a', b']).events != CutAll(s[j + 4..]).events
    ensures (s[..j + 4] + a') + b' == s
    ensures CutChunks([], [s[..j + 4] + a', b']).events != CutAll(s).events
  {
    var a := s[..j + 4] + a';
    Reassemble(s, j + 4, a', b');
    forall q: nat | q <= j
      ensures OccursAt(a, CRLF_CRLF, q) == OccursAt(s, CRLF_CRLF, q)
    {
      OccursInPrefix(a, b', CRLF_CRLF, q);
    }
    FindIs(a, CRLF_CRLF, j);
    hide CutAll, CutChunks, Find, OccursAt;
    CutAtCrlf(a, j);
    CutAtCrlf(s, j);
    TwoChunks(a, b');
    TwoChunks(a', b');
    assert a[..j] == s[..j];
    DifferentTails(s[..j], CutAll(s[j + 4..]).events, CutAll(a').events, CutAll(CutAll(a').rest + b').events);
  }

  lemma DifferentTails(head: seq<Byte>, x: seq<seq<Byte>>, y: seq<seq<Byte>>, z: seq<seq<Byte>>)
    requires x != y + z
    ensures [head] + x != ([head] + y) + z
  {
    assert ([head] + x)[1..] == x;
    assert (([head] + y) + z)[1..] == y + z;
  }

  lemma TwoChunks(a: seq<Byte>, b: seq<Byte>)
    ensures CutChunks([], [a, b]).events == CutAll(a).events + CutAll(CutAll(a).rest + b).events
  {
    assert [] + a == a;
    assert [a, b][1..] == [b];
    assert |[b][1..]| == 0;
    var rest := CutAll(a).rest;
    assert CutChunks(rest, [b]) == Cut(CutAll(rest + b).events + [], CutAll(rest + b).rest);
    assert CutAll(rest + b).events + [] == CutAll(rest + b).events;
  }

  lemma LonelyLf(s: seq<Byte>, i: nat, j: nat)
    requires Find(s, LF_LF) == Some(i) && Find(s, CRLF_CRLF) == Some(j) && i <= j
    ensures CutAll(s[..i + 2]) == Cut([s[..i]], [])
  {
    var a, b := s[..i + 2], s[i + 2..];
    assert a + b == s;
    forall q: nat
      ensures !OccursAt(a, CRLF_CRLF, q)
    {
      if q + 4 <= |a| {
        OccursInPrefix(a, b, CRLF_CRLF, q);
      }
    }
    forall q: nat | q < i
      ensures !OccursAt(a, LF_LF, q)
    {
      OccursInPrefix(a, b, LF_LF, q);
    }
    OccursInPrefix(a, b, LF_LF, i);
    FindIs(a, LF_LF, i);
    CutAtLf(a, i);
    assert a[i + 2..] == [] && a[..i] == s[..i];
  }

  /** The events of a stream do not depend on how it is cut into chunks if and only if no event
      ending in LF LF is followed by a CRLF CRLF. */
  lemma ChunkIndependence(s: seq<Byte>)
    ensures (forall chunks: seq<seq<Byte>> :: Concat(chunks) == s ==> CutChunks([], chunks).events == CutAll(s).events)
       <==> Unmixed(s)
  {
    if Unmixed(s) {
      forall chunks: seq<seq<Byte>> | Concat(chunks) == s
        ensures CutChunks([], chunks).events == CutAll(s).events
      {
        assert [] + Concat(chunks) == s;
        ChunksDoNotMatter([], chunks);
      }
    } else {
      var a, b := MixedStreamsDiffer(s);
      assert [a, b][1..] == [b] && Concat([b]) == b + Concat([b][1..]);
      assert Concat([a, b]) == a + (b + []);
      assert b + [] == b;
    }
  }

  /** A stream that uses one of the two separators only is unmixed. */
  lemma OneStyleIsUnmixed(s: seq<Byte>)
    requires Find(s, CRLF_CRLF).None? || Find(s, LF_LF).None?
    ensures Unmixed(s)
    decreases |s|
  {
    if Find(s, CRLF_CRLF).Some? {
      var j := Find(s, CRLF_CRLF).value;
      NoneInSuffix(s, j + 4, LF_LF);
      OneStyleIsUnmixed(s[j + 4..]);
    }
  }

  lemma {:induction false} ShortStreamsFit(rest: seq<Byte>, chunks: seq<seq<Byte>>, limit: nat)
    requires |rest| + |Concat(chunks)| <= limit
    ensures !Overflows(rest, chunks, limit)
    decreases |chunks|
  {
    if chunks != [] {
      RestIsShorter(rest + chunks[0]);
      ShortStreamsFit(CutAll(rest + chunks[0]).rest, chunks[1..], limit);
    }
  }

  lemma {:induction false} RestIsShorter(s: seq<Byte>)
    ensures |CutAll(s).rest| <= |s|
    decreases |s|
  {
    match FindEventEnd(s)
    case None =>
    case Some(end) => RestIsShorter(s[end + SeparatorLength(s[end..])..]);
  }

  // ---------------------------------------------------------------------------------------
  // The data of an event
  // ---------------------------------------------------------------------------------------

  function StripCr(line: seq<Byte>): seq<Byte> {
    if line != [] && line[|line| - 1] == CR then line[..|line| - 1] else line
  }

  function StripPrefix(s: seq<Byte>, prefix: seq<Byte>): seq<Byte> {
    if StartsWith(s, prefix) then s[|prefix|..] else s
  }

  /** The value of a data field, if the line is one. */
  function FieldValue(line: seq<Byte>): Option<seq<Byte>> {
    var stripped := StripCr(line);
    if StartsWith(stripped, DATA) then Some(StripPrefix(stripped[|DATA|..], SPACE)) else None
  }

  /** A data field is a line that starts with `data:`; one space after it, and one carriage return at the
      end, are not of its value. */
  lemma WhatDataFieldsAre(line: seq<Byte>, value: seq<Byte>)
    requires value != [] ==> value[|value| - 1] != 13
    ensures FieldValue([100, 97, 116, 97, 58, 32] + value) == Some(value)
    ensures FieldValue([100, 97, 116, 97, 58, 32] + value + [13]) == Some(value)
    ensures value == [] || value[0] != 32 ==>
              && FieldValue([100, 97, 116, 97, 58] + value) == Some(value)
              && FieldValue([100, 97, 116, 97, 58] + value + [13]) == Some(value)
    ensures |line| < 5 || line[..5] != [100, 97, 116, 97, 58] ==> FieldValue(line) == None
  {
    var field, spaced := DATA + value, DATA + (SPACE + value);
    assert [100, 97, 116, 97, 58] + value == field && [100, 97, 116, 97, 58, 32] + value == spaced;
    assert spaced[5..] == SPACE + value && field[5..] == value;
    assert (SPACE + value)[..1] == SPACE && (SPACE + value)[1..] == value;
    assert value != [] ==> value[..1] == [value[0]];
    assert StripCr(field) == field && StripCr(spaced) == spaced;
    assert StripCr(field + [13]) == field && StripCr(spaced + [13]) == spaced;
    if line != [] && StartsWith(StripCr(line), DATA) {
      assert line[..5] == StripCr(line)[..5];
    }
  }

  /** What one more line makes of the data read so far. */
  function AddLine(data: seq<Byte>, line: seq<Byte>): seq<Byte> {
    match FieldValue(line)
    case None => data
    case Some(value) => (if data == [] then [] else data + [LF]) + value
  }

  function Gather(data: seq<Byte>, lines: seq<seq<Byte>>): seq<Byte>
    decreases |lines|
  {
    if lines == [] then data else Gather(AddLine(data, lines[0]), lines[1..])
  }

  function NonEmpty(data: seq<Byte>): Option<seq<Byte>> {
    if data == [] then None else Some(data)
  }

  /** The data of an event; an event without data has none. */
  function EventData(event: seq<Byte>): Option<seq<Byte>> {
    NonEmpty(Gather([], SplitLines(event)))
  }

  method SseData(event: seq<Byte>) returns (r: Option<seq<Byte>>)
    ensures r == EventData(event)
  {
    var data: seq<Byte> := [];
    var lines := SplitLines(event);
    for i := 0 to |lines|
      invariant Gather(data, lines[i..]) == Gather([], lines)
    {
      assert lines[i..][1..] == lines[i + 1..];
      var line := StripCr(lines[i]);
      if StartsWith(line, DATA) {
        if data != [] {
          data := data + [LF];
        }
        data := data + StripPrefix(line[|DATA|..], SPACE);
      }
    }
    return NonEmpty(data);
  }

  function Payloads(events: seq<seq<Byte>>): seq<seq<Byte>> {
    if events == [] then [] else PayloadOf(events[0]) + Payloads(events[1..])
  }

  function PayloadOf(event: seq<Byte>): seq<seq<Byte>> {
    match EventData(event) case None => [] case Some(data) => [data]
  }

  lemma PayloadsCons(event: seq<Byte>, events: seq<seq<Byte>>)
    ensures Payloads([event] + events) == PayloadOf(event) + Payloads(events)
  {
    assert ([event] + events)[1..] == events;
  }

  lemma {:induction false} PayloadsConcat(a: seq<seq<Byte>>, b: seq<seq<Byte>>)
    ensures Payloads(a + b) == Payloads(a) + Payloads(b)
  {
    if a == [] {
      assert a + b == b;
    } else {
      hide Payloads, PayloadOf;
      calc {
        Payloads(a + b);
        { assert a + b == [a[0]] + (a[1..] + b); PayloadsCons(a[0], a[1..] + b); }
        PayloadOf(a[0]) + Payloads(a[1..] + b);
        { PayloadsConcat(a[1..], b); }
        PayloadOf(a[0]) + (Payloads(a[1..]) + Payloads(b));
        (PayloadOf(a[0]) + Payloads(a[1..])) + Payloads(b);
        { PayloadsCons(a[0], a[1..]); assert [a[0]] + a[1..] == a; }
        Payloads(a) + Payloads(b);
      }
    }
  }

  /** Reads every complete event in the buffer. */
  method DrainEvents(bytes: seq<Byte>) returns (payloads: seq<seq<Byte>>, buffer: seq<Byte>)
    ensures payloads == Payloads(CutAll(bytes).events)
    ensures buffer == CutAll(bytes).rest
  {
    payloads := [];
    buffer := bytes;
    NoPayloads();
    hide EventData, Payloads, CutAll;
    while FindEventEnd(buffer).Some?
      invariant CutAll(buffer).rest == CutAll(bytes).rest
      invariant payloads + Payloads(CutAll(buffer).events) == Payloads(CutAll(bytes).events)
      decreases |buffer|
    {
      var end := FindEventEnd(buffer).value;
      ghost var before := buffer;
      var event := buffer[..end];
      buffer := buffer[end..];
      var separator := if StartsWith(buffer, CRLF_CRLF) then 4 else 2;
      buffer := buffer[separator..];
      CutOne(before, end);
      PayloadsCons(event, CutAll(buffer).events);
      var data := SseData(event);
      if data.Some? {
        payloads := payloads + [data.value];
      }
    }
    CutNothing(buffer);
  }

  lemma CutOne(buffer: seq<Byte>, end: nat)
    requires FindEventEnd(buffer) == Some(end)
    ensures CutAll(buffer) == Before(buffer[..end], CutAll(buffer[end..][SeparatorLength(buffer[end..])..]))
  {
    var n := SeparatorLength(buffer[end..]);
    assert buffer[end..][n..] == buffer[end + n..];
  }

  lemma CutNothing(buffer: seq<Byte>)
    requires FindEventEnd(buffer).None?
    ensures CutAll(buffer) == Cut([], buffer)
  {
  }

  /** The streaming loop: it buffers each chunk, gives up when the buffer outgrows its limit, which no
      stream within the limit does, and reads every complete event in turn. */
  method ConsumeSse(chunks: seq<seq<Byte>>) returns (payloads: seq<seq<Byte>>, overflow: bool)
    ensures overflow == Overflows([], chunks, MAX_SSE_BUFFER)
    ensures |Concat(chunks)| <= MAX_SSE_BUFFER ==> !overflow
    ensures !overflow ==> payloads == Payloads(CutChunks([], chunks).events)
  {
    hide CutAll, Payloads;
    payloads := [];
    var buffer: seq<Byte> := [];
    ghost var events: seq<seq<Byte>> := [];
    NoPayloads();
    if |Concat(chunks)| <= MAX_SSE_BUFFER {
      ShortStreamsFit([], chunks, MAX_SSE_BUFFER);
    }
    for i := 0 to |chunks|
      invariant Overflows([], chunks, MAX_SSE_BUFFER) == Overflows(buffer, chunks[i..], MAX_SSE_BUFFER)
      invariant CutChunks([], chunks).events == events + CutChunks(buffer, chunks[i..]).events
      invariant payloads == Payloads(events)
    {
      assert chunks[i..][1..] == chunks[i + 1..];
      buffer := buffer + chunks[i];
      if |buffer| > MAX_SSE_BUFFER {
        return payloads, true;
      }
      ghost var cut := CutAll(buffer);
      PayloadsConcat(events, cut.events);
      events := events + cut.events;
      var more, rest := DrainEvents(buffer);
      payloads, buffer := payloads + more, rest;
    }
    assert events + [] == events;
    return payloads, false;
  }

  lemma NothingBuffered()
    ensures CutAll([]).events == []
  {
  }

  lemma NoPayloads()
    ensures Payloads([]) == []
  {
  }
}
