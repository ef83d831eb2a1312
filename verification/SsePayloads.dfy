/**
 When the payloads of an event stream do not depend on how it is cut into chunks.
 */
module SsePayloads {
  import opened Wrappers
  import opened Bytes
  import opened Sse

  /** Some line is a data field, if only an empty one. */
  predicate HasField(event: seq<Byte>) {
    exists line | line in SplitLines(event) :: FieldValue(line).Some?
  }

  /** At most one of the pieces between LF LF matters: before it they have no data, after it no data
      field. Cutting such an event there changes no payload. */
  predicate Tolerant(event: seq<Byte>)
    decreases |event|
  {
    match Find(event, LF_LF)
    case None => true
    case Some(i) =>
      if EventData(event[..i]).Some? then !HasField(event[i + 2..]) else Tolerant(event[i + 2..])
  }

  /** Every event that ends in CRLF CRLF is tolerant. */
  predicate Forgiving(s: seq<Byte>)
    decreases |s|
  {
    match Find(s, CRLF_CRLF)
    case None => true
    case Some(j) => Tolerant(s[..j]) && Forgiving(s[j + 4..])
  }

  // ---------------------------------------------------------------------------------------
  // One event, cut at an LF LF
  // ---------------------------------------------------------------------------------------

  lemma SplitCons(x: Byte, s: seq<Byte>)
    ensures SplitLines([x] + s)
         == if x == LF then [[]] + SplitLines(s) else [[x] + SplitLines(s)[0]] + SplitLines(s)[1..]
  {
    assert ([x] + s)[1..] == s;
  }

  lemma {:induction false} SplitAtLf(p: seq<Byte>, rest: seq<Byte>)
    ensures SplitLines(p + [LF] + rest) == SplitLines(p) + SplitLines(rest)
    decreases |p|
  {
    if p == [] {
      assert p + [LF] + rest == [LF] + rest;
      SplitCons(LF, rest);
    } else {
      var q := p[1..];
      assert p == [p[0]] + q && p + [LF] + rest == [p[0]] + (q + [LF] + rest);
      SplitAtLf(q, rest);
      SplitCons(p[0], q);
      SplitCons(p[0], q + [LF] + rest);
      hide SplitLines;
      FirstJoined(SplitLines(q), SplitLines(rest), p[0]);
    }
  }

  lemma FirstJoined(a: seq<seq<Byte>>, b: seq<seq<Byte>>, x: Byte)
    requires a != []
    ensures [[]] + (a + b) == ([[]] + a) + b
    ensures [[x] + (a + b)[0]] + (a + b)[1..] == ([[x] + a[0]] + a[1..]) + b
  {
    assert (a + b)[0] == a[0] && (a + b)[1..] == a[1..] + b;
  }

  lemma {:induction false} GatherConcat(data: seq<Byte>, a: seq<seq<Byte>>, b: seq<seq<Byte>>)
    ensures Gather(data, a + b) == Gather(Gather(data, a), b)
    decreases |a|
  {
    if a == [] {
      assert a + b == b;
    } else {
      assert (a + b)[1..] == a[1..] + b;
      GatherConcat(AddLine(data, a[0]), a[1..], b);
    }
  }

  /** Data grows with every field that follows it. */
  lemma {:induction false} GatherGrows(data: seq<Byte>, lines: seq<seq<Byte>>)
    ensures |data| <= |Gather(data, lines)|
    ensures (forall line | line in lines :: FieldValue(line).None?) ==> Gather(data, lines) == data
    ensures data != [] && (exists line | line in lines :: FieldValue(line).Some?) ==> |data| < |Gather(data, lines)|
    decreases |lines|
  {
    if lines != [] {
      GatherGrows(AddLine(data, lines[0]), lines[1..]);
      assert lines == [lines[0]] + lines[1..];
    }
  }

  /** What becomes of an event's payload when it is cut at an LF LF. */
  lemma PiecesOf(event: seq<Byte>, i: nat)
    requires OccursAt(event, LF_LF, i)
    ensures var p, rest := event[..i], event[i + 2..];
            && (EventData(p).None? ==> PayloadOf(event) == PayloadOf(rest))
            && (EventData(p).Some? && !HasField(rest) ==> PayloadOf(event) == PayloadOf(p) && PayloadOf(rest) == [])
            && (EventData(p).Some? && HasField(rest) ==>
                  PayloadOf(event) != [] && |PayloadOf(p)[0]| < |PayloadOf(event)[0]|)
  {
    var p, rest := event[..i], event[i + 2..];
    assert event[i..i + 2] == LF_LF;
    assert event[i] == event[i..i + 2][0] && event[i + 1] == event[i..i + 2][1];
    assert event == p + [LF] + ([] + [LF] + rest);
    SplitAtLf(p, [] + [LF] + rest);
    SplitAtLf([], rest);
    var a, b := SplitLines(p), SplitLines(rest);
    assert SplitLines(event) == a + ([[]] + b);
    GatherConcat([], a, [[]] + b);
    var d := Gather([], a);
    assert ([[]] + b)[1..] == b && FieldValue([]).None?;
    assert Gather([], SplitLines(event)) == Gather(d, b);
    GatherGrows(d, b);
    GatherGrows([], b);
  }

  lemma {:induction false} NoFieldIsTolerant(event: seq<Byte>)
    requires !HasField(event)
    ensures Tolerant(event)
    decreases |event|
  {
    if Find(event, LF_LF).Some? {
      var i := Find(event, LF_LF).value;
      FieldsOf(event, i);
      NoFieldIsTolerant(event[i + 2..]);
    }
  }

  lemma FieldsOf(event: seq<Byte>, i: nat)
    requires OccursAt(event, LF_LF, i) && !HasField(event)
    ensures EventData(event[..i]).None? && !HasField(event[i + 2..])
  {
    var p, rest := event[..i], event[i + 2..];
    assert event[i..i + 2] == LF_LF;
    assert event[i] == event[i..i + 2][0] && event[i + 1] == event[i..i + 2][1];
    assert event == p + [LF] + ([] + [LF] + rest);
    SplitAtLf(p, [] + [LF] + rest);
    SplitAtLf([], rest);
    GatherGrows([], SplitLines(p));
  }

  // ---------------------------------------------------------------------------------------
  // Cutting early
  // ---------------------------------------------------------------------------------------

  /** The first CRLF CRLF behind the first LF LF, seen from there. */
  lemma Shifted(s: seq<Byte>, i: nat, j: nat)
    requires Find(s, LF_LF) == Some(i) && Find(s, CRLF_CRLF) == Some(j) && i <= j
    ensures i + 2 <= j && j + 4 <= |s| && Find(s[i + 2..], CRLF_CRLF) == Some(j - i - 2)
    ensures Find(s[..j], LF_LF) == Some(i)
  {
    assert s[i..i + 2] == LF_LF && s[j..j + 4] == CRLF_CRLF;
    assert s[i..i + 2][0] == s[i] && s[i..i + 2][1] == s[i + 1] && s[j..j + 4][0] == s[j];
    var t := s[i + 2..];
    forall q: nat | q <= j - i - 2
      ensures OccursAt(t, CRLF_CRLF, q) <==> q == j - i - 2
    {
      OccursInSuffix(s, i + 2, CRLF_CRLF, q);
    }
    FindIs(t, CRLF_CRLF, j - i - 2);
    var event := s[..j];
    assert event + s[j..] == s;
    forall q: nat | q <= i
      ensures OccursAt(event, LF_LF, q) == OccursAt(s, LF_LF, q)
    {
      OccursInPrefix(event, s[j..], LF_LF, q);
    }
    FindIs(event, LF_LF, i);
  }

  /** What is cut up to the first CRLF CRLF, late and behind the first LF LF. */
  lemma CutBehind(s: seq<Byte>, i: nat, j: nat)
    requires Find(s, LF_LF) == Some(i) && Find(s, CRLF_CRLF) == Some(j) && i <= j
    ensures i + 2 <= j && j + 4 <= |s|
    ensures var tail := Payloads(CutAll(s[j + 4..]).events);
            && Payloads(CutAll(s).events) == PayloadOf(s[..j]) + tail
            && Payloads(CutAll(s[i + 2..]).events) == PayloadOf(s[i + 2..j]) + tail
  {
    hide *;
    Shifted(s, i, j);
    Slices(s, i + 2, j);
    PayloadsAtCrlf(s, j);
    PayloadsAtCrlf(s[i + 2..], j - i - 2);
  }

  /** What the pieces of an event are worth. */
  lemma PiecesOfTolerant(s: seq<Byte>, i: nat, j: nat)
    requires j <= |s| && Find(s[..j], LF_LF) == Some(i)
    ensures i + 2 <= j
    ensures Tolerant(s[..j]) ==>
              PayloadOf(s[..j]) == PayloadOf(s[..i]) + PayloadOf(s[i + 2..j]) && Tolerant(s[i + 2..j])
    ensures !Tolerant(s[..j]) && EventData(s[..i]).None? ==>
              PayloadOf(s[..j]) == PayloadOf(s[i + 2..j]) && PayloadOf(s[..i]) == [] && !Tolerant(s[i + 2..j])
    ensures !Tolerant(s[..j]) && EventData(s[..i]).Some? ==>
              PayloadOf(s[..j]) != [] && |PayloadOf(s[..i])[0]| < |PayloadOf(s[..j])[0]|
  {
    var event := s[..j];
    assert event[..i] == s[..i] && event[i + 2..] == s[i + 2..j];
    PiecesOf(event, i);
    hide HasField, EventData, Find;
    if !HasField(s[i + 2..j]) {
      NoFieldIsTolerant(s[i + 2..j]);
    }
  }

  /** A stream that is forgiving gives the same payloads when its first LF LF is cut early. */
  lemma FirstCut(s: seq<Byte>, i: nat)
    requires Forgiving(s) && Find(s, LF_LF) == Some(i)
    requires Find(s, CRLF_CRLF).Some? ==> i <= Find(s, CRLF_CRLF).value
    ensures i + 2 <= |s|
    ensures Payloads(CutAll(s).events) == PayloadOf(s[..i]) + Payloads(CutAll(s[i + 2..]).events)
    ensures Forgiving(s[i + 2..])
  {
    hide *;
    match Find(s, CRLF_CRLF)
    case None =>
      PayloadsAtLf(s, i);
      LastCut(s, i);
    case Some(j) =>
      CutBehind(s, i, j);
      ForgivingBehind(s, i, j);
      Regroup(PayloadOf(s[..i]), PayloadOf(s[i + 2..j]), Payloads(CutAll(s[j + 4..]).events));
  }

  lemma Regroup(x: seq<seq<Byte>>, y: seq<seq<Byte>>, z: seq<seq<Byte>>)
    ensures (x + y) + z == x + (y + z)
  {
  }

  lemma LastCut(s: seq<Byte>, i: nat)
    requires Find(s, LF_LF) == Some(i) && Find(s, CRLF_CRLF).None?
    ensures i + 2 <= |s| && Forgiving(s[i + 2..])
  {
    NoneInSuffix(s, i + 2, CRLF_CRLF);
  }

  lemma ForgivingBehind(s: seq<Byte>, i: nat, j: nat)
    requires Forgiving(s) && Find(s, LF_LF) == Some(i) && Find(s, CRLF_CRLF) == Some(j) && i <= j
    ensures i + 2 <= j && j + 4 <= |s| && Forgiving(s[i + 2..])
    ensures PayloadOf(s[..j]) == PayloadOf(s[..i]) + PayloadOf(s[i + 2..j])
  {
    hide *;
    Shifted(s, i, j);
    Slices(s, i + 2, j);
    ForgivingAt(s, j);
    ForgivingAt(s[i + 2..], j - i - 2);
    PiecesOfTolerant(s, i, j);
  }

  lemma Slices(s: seq<Byte>, m: nat, j: nat)
    requires m <= j && j + 4 <= |s|
    ensures s[m..][..j - m] == s[m..j] && s[m..][j - m + 4..] == s[j + 4..]
  {
  }

  lemma ForgivingAt(s: seq<Byte>, j: nat)
    requires Find(s, CRLF_CRLF) == Some(j)
    ensures j + 4 <= |s| && (Forgiving(s) <==> Tolerant(s[..j]) && Forgiving(s[j + 4..]))
  {
    hide Find, Tolerant;
  }

  lemma PayloadsAtCrlf(s: seq<Byte>, j: nat)
    requires Find(s, CRLF_CRLF) == Some(j)
    ensures j + 4 <= |s|
    ensures Payloads(CutAll(s).events) == PayloadOf(s[..j]) + Payloads(CutAll(s[j + 4..]).events)
    ensures CutAll(s).rest == CutAll(s[j + 4..]).rest
  {
    hide CutAll, Find, Payloads, PayloadOf;
    CutAtCrlf(s, j);
    PayloadsCons(s[..j], CutAll(s[j + 4..]).events);
  }

  lemma PayloadsAtLf(s: seq<Byte>, i: nat)
    requires Find(s, CRLF_CRLF) == None && Find(s, LF_LF) == Some(i)
    ensures i + 2 <= |s|
    ensures Payloads(CutAll(s).events) == PayloadOf(s[..i]) + Payloads(CutAll(s[i + 2..]).events)
    ensures CutAll(s).rest == CutAll(s[i + 2..]).rest
  {
    hide CutAll, Find, Payloads, PayloadOf;
    CutAtLf(s, i);
    PayloadsCons(s[..i], CutAll(s[i + 2..]).events);
  }

  lemma {:induction false} CutEarlyPayloads(a: seq<Byte>, b: seq<Byte>)
    requires Forgiving(a + b)
    ensures Payloads(CutAll(a + b).events)
         == Payloads(CutAll(a).events) + Payloads(CutAll(CutAll(a).rest + b).events)
    ensures Forgiving(CutAll(a).rest + b)
    decreases |a|
  {
    hide CutAll, Find, Payloads, PayloadOf, Tolerant, Forgiving;
    match Find(a, CRLF_CRLF)
    case Some(j) =>
      FindInPrefix(a, b, CRLF_CRLF);
      PayloadsAtCrlf(a, j);
      PayloadsAtCrlf(a + b, j);
      ForgivingAt(a + b, j);
      assert (a + b)[..j] == a[..j] && (a + b)[j + 4..] == a[j + 4..] + b;
      CutEarlyPayloads(a[j + 4..], b);
    case None =>
      match Find(a, LF_LF)
      case None =>
        NothingToCut(a);
        NoPayloads();
      case Some(i) =>
        FindInPrefix(a, b, LF_LF);
        NoEarlyCrlf(a, b, i);
        FirstCut(a + b, i);
        PayloadsAtLf(a, i);
        assert (a + b)[..i] == a[..i] && (a + b)[i + 2..] == a[i + 2..] + b;
        CutEarlyPayloads(a[i + 2..], b);
  }

  lemma NoEarlyCrlf(a: seq<Byte>, b: seq<Byte>, i: nat)
    requires Find(a, CRLF_CRLF).None? && Find(a, LF_LF) == Some(i) && Find(a + b, LF_LF) == Some(i)
    ensures Find(a + b, CRLF_CRLF).Some? ==> i <= Find(a + b, CRLF_CRLF).value
  {
    if Find(a + b, CRLF_CRLF).Some? && Find(a + b, CRLF_CRLF).value < i {
      var j := Find(a + b, CRLF_CRLF).value;
      SeparatorsApart(a + b, i, j);
      OccursInPrefix(a, b, CRLF_CRLF, j);
    }
  }

  lemma {:induction false} AnyChunks(rest: seq<Byte>, chunks: seq<seq<Byte>>)
    requires Forgiving(rest + Concat(chunks)) && CutAll(rest).events == []
    ensures Payloads(CutChunks(rest, chunks).events) == Payloads(CutAll(rest + Concat(chunks)).events)
    decreases |chunks|
  {
    if chunks == [] {
      assert rest + Concat(chunks) == rest;
    } else {
      var a, b := rest + chunks[0], Concat(chunks[1..]);
      assert rest + Concat(chunks) == a + b;
      CutEarlyPayloads(a, b);
      RestHasNoEvents(a);
      AnyChunks(CutAll(a).rest, chunks[1..]);
      PayloadsConcat(CutAll(a).events, CutChunks(CutAll(a).rest, chunks[1..]).events);
    }
  }

  // ---------------------------------------------------------------------------------------
  // Streams that are not forgiving
  // ---------------------------------------------------------------------------------------

  /** What a stream gives when it arrives in two chunks. */
  function InTwo(a: seq<Byte>, b: seq<Byte>): seq<seq<Byte>> {
    Payloads(CutAll(a).events) + Payloads(CutAll(CutAll(a).rest + b).events)
  }

  lemma InTwoIs(a: seq<Byte>, b: seq<Byte>)
    ensures InTwo(a, b) == Payloads(CutChunks([], [a, b]).events)
  {
    TwoChunks(a, b);
    PayloadsConcat(CutAll(a).events, CutAll(CutAll(a).rest + b).events);
  }

  /** The first event that ends in CRLF CRLF is not tolerant: it can be cut so that its payload is
      another. */
  lemma {:induction false} DifferHere(s: seq<Byte>, j: nat) returns (c: nat)
    requires Find(s, CRLF_CRLF) == Some(j) && !Tolerant(s[..j])
    ensures c <= j && InTwo(s[..c], s[c..]) != Payloads(CutAll(s).events)
    decreases j
  {
    hide *;
    ForgivingAt(s, j);
    var i := FirstLf(s, j);
    CutBehind(s, i, j);
    Shifted(s, i, j);
    PiecesOfTolerant(s, i, j);
    if EventData(s[..i]).Some? {
      c := i + 2;
      CutHere(s, i, j, CutAll(s[j + 4..]).events);
    } else {
      Slices(s, i + 2, j);
      var c' := DifferHere(s[i + 2..], j - i - 2);
      c := i + 2 + c';
      CutThere(s, i, j, c');
    }
  }

  lemma FirstLf(s: seq<Byte>, j: nat) returns (i: nat)
    requires j <= |s| && !Tolerant(s[..j])
    ensures Find(s, LF_LF) == Some(i) && i <= j
  {
    var event := s[..j];
    i := Find(event, LF_LF).value;
    hide *;
    assert event + s[j..] == s;
    FindInPrefix(event, s[j..], LF_LF);
  }

  lemma CutHere(s: seq<Byte>, i: nat, j: nat, tail: seq<seq<Byte>>)
    requires Find(s, LF_LF) == Some(i) && Find(s, CRLF_CRLF) == Some(j) && i <= j
    requires EventData(s[..i]).Some? && PayloadOf(s[..j]) != []
    requires |PayloadOf(s[..i])[0]| < |PayloadOf(s[..j])[0]|
    requires Payloads(CutAll(s).events) == PayloadOf(s[..j]) + Payloads(tail)
    ensures i + 2 <= |s| && InTwo(s[..i + 2], s[i + 2..]) != Payloads(CutAll(s).events)
  {
    LonelyLf(s, i, j);
    var p := s[..i];
    PayloadsCons(p, []);
    NoPayloads();
    assert [p] + [] == [p];
    assert Payloads(CutAll(s[..i + 2]).events) == PayloadOf(p);
    assert InTwo(s[..i + 2], s[i + 2..])[0] == PayloadOf(p)[0];
    assert Payloads(CutAll(s).events)[0] == PayloadOf(s[..j])[0];
  }

  lemma CutThere(s: seq<Byte>, i: nat, j: nat, c: nat)
    requires Find(s, LF_LF) == Some(i) && Find(s, CRLF_CRLF) == Some(j) && i + 2 + c <= j
    requires PayloadOf(s[..i]) == []
    ensures InTwo(s[..i + 2 + c], s[i + 2 + c..]) == InTwo(s[i + 2..][..c], s[i + 2..][c..])
  {
    hide CutAll, Find, Payloads, PayloadOf;
    CutPrefix(s, i, j, i + 2 + c);
    PrefixSlices(s, i, c);
    PayloadsAtLf(s[..i + 2 + c], i);
    assert [] + Payloads(CutAll(s[i + 2..][..c]).events) == Payloads(CutAll(s[i + 2..][..c]).events);
  }

  lemma PrefixSlices(s: seq<Byte>, i: nat, c: nat)
    requires i + 2 + c <= |s|
    ensures s[..i + 2 + c][..i] == s[..i] && s[..i + 2 + c][i + 2..] == s[i + 2..][..c]
    ensures s[i + 2 + c..] == s[i + 2..][c..]
  {
  }

  /** Before the first CRLF CRLF a stream is cut at its first LF LF. */
  lemma CutPrefix(s: seq<Byte>, i: nat, j: nat, n: nat)
    requires Find(s, LF_LF) == Some(i) && Find(s, CRLF_CRLF) == Some(j) && i + 2 <= n <= j
    ensures n <= |s| && Find(s[..n], CRLF_CRLF) == None && Find(s[..n], LF_LF) == Some(i)
  {
    var a, b := s[..n], s[n..];
    assert a + b == s;
    forall q: nat
      ensures !OccursAt(a, CRLF_CRLF, q)
    {
      if q + 4 <= |a| {
        OccursInPrefix(a, b, CRLF_CRLF, q);
      }
    }
    forall q: nat | q <= i
      ensures OccursAt(a, LF_LF, q) == OccursAt(s, LF_LF, q)
    {
      OccursInPrefix(a, b, LF_LF, q);
    }
    FindIs(a, LF_LF, i);
  }

  /** A stream that is not forgiving can be cut in two so that other payloads come out. */
  lemma {:induction false} UnforgivingDiffers(s: seq<Byte>) returns (a: seq<Byte>, b: seq<Byte>)
    requires !Forgiving(s)
    ensures a + b == s && InTwo(a, b) != Payloads(CutAll(s).events)
    decreases |s|
  {
    var j := Find(s, CRLF_CRLF).value;
    hide CutAll, Find, Payloads, PayloadOf, InTwo, Tolerant;
    if !Tolerant(s[..j]) {
      var c := DifferHere(s, j);
      a, b := s[..c], s[c..];
      TakeDrop(s, c);
    } else {
      var a', b' := UnforgivingDiffers(s[j + 4..]);
      a, b := s[..j + 4] + a', b';
      DifferLater(s, j, a', b');
    }
  }

  lemma DifferLater(s: seq<Byte>, j: nat, a': seq<Byte>, b': seq<Byte>)
    requires Find(s, CRLF_CRLF) == Some(j) && a' + b' == s[j + 4..]
    requires InTwo(a', b') != Payloads(CutAll(s[j + 4..]).events)
    ensures (s[..j + 4] + a') + b' == s
    ensures InTwo(s[..j + 4] + a', b') != Payloads(CutAll(s).events)
  {
    var a := s[..j + 4] + a';
    Reassemble(s, j + 4, a', b');
    SameFirst(s, j, a', b');
    hide CutAll, Find, OccursAt, Payloads, PayloadOf;
    PayloadsAtCrlf(a, j);
    PayloadsAtCrlf(s, j);
    SameHead(PayloadOf(s[..j]), Payloads(CutAll(s[j + 4..]).events), Payloads(CutAll(a').events),
             Payloads(CutAll(CutAll(a').rest + b').events));
  }

  lemma SameFirst(s: seq<Byte>, j: nat, a': seq<Byte>, b': seq<Byte>)
    requires Find(s, CRLF_CRLF) == Some(j) && j + 4 <= |s| && (s[..j + 4] + a') + b' == s
    ensures Find(s[..j + 4] + a', CRLF_CRLF) == Some(j) && (s[..j + 4] + a')[..j] == s[..j]
  {
    var a := s[..j + 4] + a';
    forall q: nat | q <= j
      ensures OccursAt(a, CRLF_CRLF, q) == OccursAt(s, CRLF_CRLF, q)
    {
      OccursInPrefix(a, b', CRLF_CRLF, q);
    }
    FindIs(a, CRLF_CRLF, j);
  }

  lemma SameHead(head: seq<seq<Byte>>, x: seq<seq<Byte>>, y: seq<seq<Byte>>, z: seq<seq<Byte>>)
    requires x != y + z
    ensures head + x != (head + y) + z
  {
    assert (head + x)[|head|..] == x;
    assert ((head + y) + z)[|head|..] == y + z;
  }

  /** The payloads of a stream do not depend on how it is cut into chunks if and only if every event that
      ends in CRLF CRLF is tolerant. */
  lemma PayloadIndependence(s: seq<Byte>)
    ensures (forall chunks: seq<seq<Byte>> :: Concat(chunks) == s ==>
               Payloads(CutChunks([], chunks).events) == Payloads(CutAll(s).events))
       <==> Forgiving(s)
  {
    hide CutAll, CutChunks, Payloads, Forgiving, InTwo;
    if Forgiving(s) {
      forall chunks: seq<seq<Byte>> | Concat(chunks) == s
        ensures Payloads(CutChunks([], chunks).events) == Payloads(CutAll(s).events)
      {
        assert [] + Concat(chunks) == s;
        NothingBuffered();
        AnyChunks([], chunks);
      }
    } else {
      var a, b := UnforgivingDiffers(s);
      InTwoIs(a, b);
      assert [a, b][1..] == [b] && Concat([b]) == b + Concat([b][1..]);
      assert Concat([a, b]) == a + (b + []);
      assert b + [] == b;
    }
  }

  /** Unmixed streams are forgiving: their events that end in CRLF CRLF hold no LF LF. */
  lemma {:induction false} UnmixedForgives(s: seq<Byte>)
    requires Unmixed(s)
    ensures Forgiving(s)
    decreases |s|
  {
    if Find(s, CRLF_CRLF).Some? {
      var j := Find(s, CRLF_CRLF).value;
      assert s[..j] + s[j..] == s;
      if Find(s[..j], LF_LF).Some? {
        FindInPrefix(s[..j], s[j..], LF_LF);
      }
      UnmixedForgives(s[j + 4..]);
    }
  }
}
