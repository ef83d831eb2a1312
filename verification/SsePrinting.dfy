/**
 The standard printed form of an event stream, and the payloads that survive being printed and
 read back in any chunks.
 */
module SsePrinting {
  import opened Wrappers
  import opened Bytes
  import opened Sse

  function DataLine(line: seq<Byte>): seq<Byte> {
    DATA + SPACE + line
  }

  function DataLines(lines: seq<seq<Byte>>): (r: seq<seq<Byte>>)
    ensures |r| == |lines|
  {
    if lines == [] then [] else [DataLine(lines[0])] + DataLines(lines[1..])
  }

  /** One `data: ` line for each line of the payload. */
  function PrintEvent(payload: seq<Byte>): seq<Byte> {
    JoinLines(DataLines(SplitLines(payload)))
  }

  function PrintEvents(payloads: seq<seq<Byte>>): seq<seq<Byte>> {
    if payloads == [] then [] else [PrintEvent(payloads[0])] + PrintEvents(payloads[1..])
  }

  function PrintStream(payloads: seq<seq<Byte>>): seq<Byte> {
    if payloads == [] then [] else PrintEvent(payloads[0]) + LF_LF + PrintStream(payloads[1..])
  }

  // ---------------------------------------------------------------------------------------
  // One event
  // ---------------------------------------------------------------------------------------

  predicate EndsInCr(line: seq<Byte>) {
    line != [] && line[|line| - 1] == CR
  }

  /** The payloads that can be read back: not empty, not starting with an empty line, and without a
      carriage return at the end of a line. */
  predicate Readable(payload: seq<Byte>) {
    && payload != [] && payload[0] != LF
    && forall line | line in SplitLines(payload) :: !EndsInCr(line)
  }

  lemma DataLineValue(line: seq<Byte>)
    ensures FieldValue(DataLine(line)) == Some(StripCr(line))
  {
    var whole := DataLine(line);
    assert StripCr(whole) == DataLine(StripCr(line));
    assert whole[..5] == DATA && DataLine(StripCr(line))[..5] == DATA;
    var value := DataLine(StripCr(line))[5..];
    assert value == SPACE + StripCr(line);
    assert value[..1] == SPACE && value[1..] == StripCr(line);
  }

  lemma AddDataLine(data: seq<Byte>, line: seq<Byte>)
    ensures AddLine(data, DataLine(line)) == (if data == [] then [] else data + [LF]) + StripCr(line)
  {
    DataLineValue(line);
  }

  lemma GatherStep(data: seq<Byte>, lines: seq<seq<Byte>>)
    requires lines != []
    ensures Gather(data, DataLines(lines))
         == Gather((if data == [] then [] else data + [LF]) + StripCr(lines[0]), DataLines(lines[1..]))
  {
    AddDataLine(data, lines[0]);
    assert DataLines(lines)[1..] == DataLines(lines[1..]);
  }

  lemma {:induction false} GatherJoins(data: seq<Byte>, lines: seq<seq<Byte>>)
    requires data != [] && lines != [] && forall line | line in lines :: !EndsInCr(line)
    ensures Gather(data, DataLines(lines)) == data + [LF] + JoinLines(lines)
    decreases |lines|
  {
    GatherStep(data, lines);
    assert lines[0] in lines;
    assert StripCr(lines[0]) == lines[0];
    var next := data + [LF] + lines[0];
    if |lines| == 1 {
      assert DataLines(lines[1..]) == [];
    } else {
      GatherJoins(next, lines[1..]);
      hide Gather, StripCr;
      NextToRest(data, lines[0], JoinLines(lines[1..]));
    }
  }

  lemma NextToRest(data: seq<Byte>, line: seq<Byte>, rest: seq<Byte>)
    ensures (data + [LF] + line) + [LF] + rest == data + [LF] + (line + [LF] + rest)
  {
  }

  /** Nothing is ever gained, and a carriage return at the end of a line is lost. */
  lemma {:induction false} GatherLoses(data: seq<Byte>, lines: seq<seq<Byte>>)
    requires lines != []
    ensures var full := |JoinLines(lines)| + if data == [] then 0 else |data| + 1;
            var got := |Gather(data, DataLines(lines))|;
            && got <= full
            && ((exists line | line in lines :: EndsInCr(line)) ==> got < full)
            && (data == [] && lines[0] == [] && |lines| > 1 ==> got < full)
    decreases |lines|
  {
    GatherStep(data, lines);
    var next := (if data == [] then [] else data + [LF]) + StripCr(lines[0]);
    if |lines| == 1 {
      assert DataLines(lines[1..]) == [];
    } else {
      GatherLoses(next, lines[1..]);
      assert lines == [lines[0]] + lines[1..];
    }
  }

  lemma {:induction false} DataLinesHaveNoLf(lines: seq<seq<Byte>>)
    requires forall i | 0 <= i < |lines| :: LF !in lines[i]
    ensures forall i | 0 <= i < |lines| :: LF !in DataLines(lines)[i] && DataLines(lines)[i] == DataLine(lines[i])
  {
    if lines != [] {
      DataLinesHaveNoLf(lines[1..]);
    }
  }

  lemma {:induction false} FirstLine(payload: seq<Byte>)
    requires payload != []
    ensures payload[0] == LF <==> SplitLines(payload)[0] == []
    ensures payload[0] == LF ==> |SplitLines(payload)| > 1
  {
  }

  lemma ReadableGathers(lines: seq<seq<Byte>>)
    requires lines != [] && forall line | line in lines :: !EndsInCr(line)
    requires lines[0] != [] || |lines| == 1
    ensures Gather([], DataLines(lines)) == JoinLines(lines)
  {
    GatherFirst(lines);
    assert lines[0] in lines;
    assert StripCr(lines[0]) == lines[0];
    hide Gather, StripCr, DataLines, EndsInCr;
    if |lines| > 1 {
      hide JoinLines;
      GatherJoins(lines[0], lines[1..]);
      JoinFirst(lines);
    }
  }

  lemma GatherFirst(lines: seq<seq<Byte>>)
    requires lines != []
    ensures Gather([], DataLines(lines)) == if |lines| == 1 then StripCr(lines[0])
                                            else Gather(StripCr(lines[0]), DataLines(lines[1..]))
  {
    GatherStep([], lines);
    hide StripCr;
    assert [] + StripCr(lines[0]) == StripCr(lines[0]);
  }

  lemma JoinFirst(lines: seq<seq<Byte>>)
    requires |lines| > 1
    ensures JoinLines(lines) == lines[0] + [LF] + JoinLines(lines[1..])
  {
  }

  lemma PrintedData(payload: seq<Byte>)
    ensures EventData(PrintEvent(payload)) == NonEmpty(Gather([], DataLines(SplitLines(payload))))
  {
    DataLinesHaveNoLf(SplitLines(payload));
    SplitJoin(DataLines(SplitLines(payload)));
  }

  /** A printed event reads back as its payload exactly for the readable payloads. */
  lemma EventRoundTrip(payload: seq<Byte>)
    ensures EventData(PrintEvent(payload)) == Some(payload) <==> Readable(payload)
  {
    var lines := SplitLines(payload);
    PrintedData(payload);
    JoinSplit(payload);
    if payload != [] {
      FirstLine(payload);
      hide EventData, PrintEvent, Gather, SplitLines, JoinLines, DataLines;
      if Readable(payload) {
        ReadableGathers(lines);
      } else {
        GatherLoses([], lines);
      }
    }
  }

  // ---------------------------------------------------------------------------------------
  // Whole streams
  // ---------------------------------------------------------------------------------------

  /** Every line feed inside a printed event starts another data line. */
  ghost predicate IsPrinted(s: seq<Byte>) {
    && s != [] && s[0] == DATA[0] && s[|s| - 1] != LF
    && forall i | 0 <= i < |s| - 1 && s[i] == LF :: s[i + 1] == DATA[0]
  }

  lemma {:induction false} JoinIsPrinted(lines: seq<seq<Byte>>)
    requires lines != [] && forall i | 0 <= i < |lines| :: LF !in lines[i]
    ensures IsPrinted(JoinLines(DataLines(lines)))
  {
    var head := DataLine(lines[0]);
    assert forall i | 0 <= i < |head| :: head[i] != LF;
    if |lines| > 1 {
      JoinIsPrinted(lines[1..]);
      assert DataLines(lines)[1..] == DataLines(lines[1..]);
      var tail := JoinLines(DataLines(lines[1..]));
      var s := JoinLines(DataLines(lines));
      assert s == head + [LF] + tail;
      forall i | 0 <= i < |s| - 1 && s[i] == LF
        ensures s[i + 1] == DATA[0]
      {
        if i > |head| {
          assert s[i] == tail[i - |head| - 1] && s[i + 1] == tail[i - |head|];
        }
      }
    }
  }

  /** A line feed is never followed by a carriage return. */
  ghost predicate Calm(s: seq<Byte>) {
    forall i | 0 <= i < |s| - 1 && s[i] == LF :: s[i + 1] != CR
  }

  lemma NotFour(s: seq<Byte>, q: nat)
    requires q + 4 <= |s|
    ensures OccursAt(s, CRLF_CRLF, q) ==> s[q + 1] == LF && s[q + 2] == CR
  {
    assert s[q + 1] == s[q..q + 4][1] && s[q + 2] == s[q..q + 4][2];
  }

  lemma CalmHasNoCrlf(s: seq<Byte>)
    requires Calm(s)
    ensures Find(s, CRLF_CRLF).None?
  {
    if Find(s, CRLF_CRLF).Some? {
      NotFour(s, Find(s, CRLF_CRLF).value);
    }
  }

  lemma {:induction false} StreamIsCalm(payloads: seq<seq<Byte>>)
    ensures Calm(PrintStream(payloads))
    ensures PrintStream(payloads) != [] ==> PrintStream(payloads)[0] == DATA[0]
  {
    if payloads != [] {
      StreamIsCalm(payloads[1..]);
      JoinIsPrinted(SplitLines(payloads[0]));
      CalmConcat(PrintEvent(payloads[0]), PrintStream(payloads[1..]));
    }
  }

  lemma CalmConcat(event: seq<Byte>, rest: seq<Byte>)
    requires IsPrinted(event) && Calm(rest) && (rest != [] ==> rest[0] == DATA[0])
    ensures Calm(event + LF_LF + rest) && (event + LF_LF + rest)[0] == DATA[0]
  {
    var s := event + LF_LF + rest;
    forall i | 0 <= i < |s| - 1 && s[i] == LF
      ensures s[i + 1] != CR
    {
      if i >= |event| + 2 {
        assert s[i] == rest[i - |event| - 2] && s[i + 1] == rest[i - |event| - 1];
      }
    }
  }

  lemma NotTwo(s: seq<Byte>, q: nat)
    requires q + 2 <= |s|
    ensures OccursAt(s, LF_LF, q) ==> s[q] == LF && s[q + 1] == LF
  {
    assert s[q] == s[q..q + 2][0] && s[q + 1] == s[q..q + 2][1];
  }

  /** The first blank line of a printed stream ends its first event. */
  lemma FirstBlankLine(event: seq<Byte>, rest: seq<Byte>)
    requires IsPrinted(event)
    ensures Find(event + LF_LF + rest, LF_LF) == Some(|event|)
  {
    var s := event + LF_LF + rest;
    forall q: nat | q < |event|
      ensures !OccursAt(s, LF_LF, q)
    {
      NotTwo(s, q);
      assert s[q] == event[q];
      assert s[q + 1] == if q + 1 < |event| then event[q + 1] else LF;
    }
    assert s[|event|..|event| + 2] == LF_LF;
    FindIs(s, LF_LF, |event|);
  }

  /** A printed stream is cut into its printed events, with nothing left over. */
  lemma {:induction false} StreamCuts(payloads: seq<seq<Byte>>)
    ensures CutAll(PrintStream(payloads)) == Cut(PrintEvents(payloads), [])
  {
    if payloads == [] {
      NothingToCut([]);
    } else {
      var event, rest := PrintEvent(payloads[0]), PrintStream(payloads[1..]);
      var s := event + LF_LF + rest;
      StreamIsCalm(payloads);
      CalmHasNoCrlf(s);
      JoinIsPrinted(SplitLines(payloads[0]));
      FirstBlankLine(event, rest);
      hide CutAll, Find, PrintEvent;
      CutAtLf(s, |event|);
      assert s[..|event|] == event && s[|event| + 2..] == rest;
      StreamCuts(payloads[1..]);
    }
  }

  lemma {:induction false} PayloadsOfPrinted(payloads: seq<seq<Byte>>)
    ensures |Payloads(PrintEvents(payloads))| <= |payloads|
    ensures Payloads(PrintEvents(payloads)) == payloads <==> forall i | 0 <= i < |payloads| :: Readable(payloads[i])
  {
    if payloads == [] {
      NoPayloads();
    } else {
      hide Payloads, Readable, EventData, PrintEvent;
      var first, rest := PrintEvent(payloads[0]), payloads[1..];
      PayloadsCons(first, PrintEvents(rest));
      PayloadsOfPrinted(rest);
      EventRoundTrip(payloads[0]);
      assert payloads == [payloads[0]] + rest;
      assert forall i | 1 <= i < |payloads| :: payloads[i] == rest[i - 1];
      var all := Payloads(PrintEvents(payloads));
      assert all == PayloadOf(first) + Payloads(PrintEvents(rest));
      if EventData(first).Some? {
        assert all[0] == EventData(first).value && all[1..] == Payloads(PrintEvents(rest));
      }
    }
  }

  /** Printing a list of payloads and reading the stream back, in whatever chunks it arrives, gives
      the list back if and only if every payload is readable. */
  lemma StreamRoundTrip(payloads: seq<seq<Byte>>, chunks: seq<seq<Byte>>)
    requires Concat(chunks) == PrintStream(payloads)
    ensures Payloads(CutChunks([], chunks).events) == payloads
       <==> forall i | 0 <= i < |payloads| :: Readable(payloads[i])
    ensures CutChunks([], chunks).rest == []
  {
    hide CutAll, CutChunks, Payloads, Readable, PrintStream, PrintEvents, Find;
    StreamIsCalm(payloads);
    CalmHasNoCrlf(PrintStream(payloads));
    OneStyleIsUnmixed(PrintStream(payloads));
    StreamCuts(payloads);
    assert [] + Concat(chunks) == PrintStream(payloads);
    NothingBuffered();
    ChunksDoNotMatter([], chunks);
    PayloadsOfPrinted(payloads);
  }
}
