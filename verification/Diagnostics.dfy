/**
 The bounded tail of a child process's error output: whole lines, oldest dropped first.
 */
module Diagnostics {
  import opened Bytes

  const MAX_DIAGNOSTIC_LINE: nat := 4_096

  function Total(lines: seq<seq<Byte>>): nat {
    if lines == [] then 0 else |lines[0]| + Total(lines[1..])
  }

  lemma {:induction false} TotalConcat(a: seq<seq<Byte>>, b: seq<seq<Byte>>)
    ensures Total(a + b) == Total(a) + Total(b)
  {
    if a == [] {
      assert a + b == b;
    } else {
      assert (a + b)[1..] == a[1..] + b;
      TotalConcat(a[1..], b);
    }
  }

  // ---------------------------------------------------------------------------------------
  // The longest suffix that fits
  // ---------------------------------------------------------------------------------------

  function Tail(lines: seq<seq<Byte>>, limit: nat): seq<seq<Byte>> {
    if Total(lines) <= limit then lines else Tail(lines[1..], limit)
  }

  /** It is a suffix that fits, and no longer suffix does. */
  lemma {:induction false} TailIsLongest(lines: seq<seq<Byte>>, limit: nat)
    ensures |Tail(lines, limit)| <= |lines|
    ensures Tail(lines, limit) == lines[|lines| - |Tail(lines, limit)|..]
    ensures Total(Tail(lines, limit)) <= limit
    ensures forall n: nat | n < |lines| - |Tail(lines, limit)| :: Total(lines[n..]) > limit
  {
    if Total(lines) > limit {
      TailIsLongest(lines[1..], limit);
      forall n: nat | n < |lines| - |Tail(lines, limit)|
        ensures Total(lines[n..]) > limit
      {
        if n == 0 {
          assert lines[0..] == lines;
        } else {
          assert lines[n..] == lines[1..][n - 1..];
        }
      }
    }
  }

  /** Evicting as lines come in keeps what evicting at the end would keep. */
  lemma {:induction false} TailOnline(lines: seq<seq<Byte>>, line: seq<Byte>, limit: nat)
    ensures Tail(lines + [line], limit) == Tail(Tail(lines, limit) + [line], limit)
  {
    if Total(lines) > limit {
      TotalConcat(lines, [line]);
      assert (lines + [line])[1..] == lines[1..] + [line];
      TailOnline(lines[1..], line, limit);
    }
  }

  /** The mark after one more line: set when that line or an older one was dropped. */
  predicate Retained(before: seq<seq<Byte>>, truncated: bool, after: seq<seq<Byte>>) {
    truncated || |after| < |before| + 1
  }

  class BoundedDiagnostics {
    var lines: seq<seq<Byte>>
    var bytes: nat
    var truncated: bool

    ghost predicate Valid()
      reads this`lines, this`bytes
    {
      bytes == Total(lines)
    }

    constructor ()
      ensures Valid() && lines == [] && !truncated
    {
      lines := [];
      bytes := 0;
      truncated := false;
    }

    /** Keeps the longest suffix that fits of the lines held and the new one; marks the output as
        truncated when a line is dropped. */
    method Retain(raw: seq<Byte>, limit: nat, clean: seq<Byte> -> seq<Byte>)
      requires Valid()
      modifies this
      ensures Valid()
      ensures lines == Tail(old(lines) + [clean(raw)], limit)
      ensures truncated == Retained(old(lines), old(truncated), lines)
    {
      hide Total, Tail;
      var line := clean(raw);
      TotalAndTail(lines, line, limit);
      while bytes + |line| > limit && lines != []
        invariant Valid()
        invariant Tail(lines + [line], limit) == Tail(old(lines) + [line], limit)
        invariant |lines| <= |old(lines)|
        invariant truncated == (old(truncated) || |lines| < |old(lines)|)
        decreases |lines|
      {
        TotalAndTail(lines, line, limit);
        var removed := lines[0];
        lines := lines[1..];
        bytes := bytes - |removed|;
        truncated := true;
      }
      TotalAndTail(lines, line, limit);
      if |line| > limit {
        truncated := true;
        return;
      }
      bytes := bytes + |line|;
      lines := lines + [line];
    }
  }

  lemma TotalAndTail(lines: seq<seq<Byte>>, line: seq<Byte>, limit: nat)
    ensures Total(lines + [line]) == Total(lines) + |line|
    ensures lines != [] ==> Total(lines) == |lines[0]| + Total(lines[1..])
    ensures lines == [] ==> Total(lines) == 0
    ensures Total(lines) + |line| <= limit ==> Tail(lines + [line], limit) == lines + [line]
    ensures Total(lines) + |line| > limit && lines != [] ==>
              Tail(lines + [line], limit) == Tail(lines[1..] + [line], limit)
    ensures |line| > limit && lines == [] ==> Tail(lines + [line], limit) == []
  {
    TotalConcat(lines, [line]);
    assert Total([line]) == |line| + Total([]);
    assert lines != [] ==> (lines + [line])[1..] == lines[1..] + [line];
    assert lines == [] ==> (lines + [line])[1..] == [];
  }

  // ---------------------------------------------------------------------------------------
  // Reading the error output
  // ---------------------------------------------------------------------------------------

  /** Lines of bounded length, as decoded, trimmed and redacted; longer ones are dropped whole. */
  function Presented(segments: seq<seq<Byte>>, clean: seq<Byte> -> seq<Byte>): seq<seq<Byte>> {
    if segments == [] then []
    else Presented(segments[..|segments| - 1], clean) + PresentedLast(segments[|segments| - 1], clean)
  }

  function PresentedLast(segment: seq<Byte>, clean: seq<Byte> -> seq<Byte>): seq<seq<Byte>> {
    if |segment| <= MAX_DIAGNOSTIC_LINE then [clean(segment)] else []
  }

  predicate HasOverlong(segments: seq<seq<Byte>>) {
    exists segment | segment in segments :: |segment| > MAX_DIAGNOSTIC_LINE
  }

  function Last(segments: seq<seq<Byte>>): seq<Byte>
    requires segments != []
  {
    segments[|segments| - 1]
  }

  function AllButLast(segments: seq<seq<Byte>>): seq<seq<Byte>>
    requires segments != []
  {
    segments[..|segments| - 1]
  }

  /** The lines presented for a whole output: text after the last line feed counts as a line when
      there is any and the output was read to its end. */
  function OutputLines(stream: seq<Byte>, broken: bool, clean: seq<Byte> -> seq<Byte>): seq<seq<Byte>> {
    var segments := SplitLines(stream);
    if broken || Last(segments) == [] then Presented(AllButLast(segments), clean) else Presented(segments, clean)
  }

  /** Line by line: one that a line feed ends is presented clean unless it is too long, and so is what comes
      after the last line feed, if there is anything and the output did not break off. */
  lemma WhatIsPresented(line: seq<Byte>, rest: seq<Byte>, broken: bool, clean: seq<Byte> -> seq<Byte>)
    requires LF !in line
    ensures OutputLines(line + [LF] + rest, broken, clean)
            == (if |line| <= 4_096 then [clean(line)] else []) + OutputLines(rest, broken, clean)
    ensures OutputLines(line, broken, clean)
            == if broken || line == [] || |line| > 4_096 then [] else [clean(line)]
  {
    SplitPrefix(line, rest);
    OneSegment(line, clean);
    var segments, more := SplitLines(rest), SplitLines(line + [LF] + rest);
    assert AllButLast(more) == [line] + AllButLast(segments) && Last(more) == Last(segments);
    hide SplitLines, Presented;
    PresentedFirst(line, segments, clean);
    PresentedFirst(line, AllButLast(segments), clean);
  }

  lemma OneSegment(line: seq<Byte>, clean: seq<Byte> -> seq<Byte>)
    ensures AllButLast([line]) == [] && Last([line]) == line
    ensures Presented([], clean) == [] && Presented([line], clean) == PresentedLast(line, clean)
  {
    assert [line][..0] == [];
  }

  lemma {:induction false} PresentedFirst(first: seq<Byte>, rest: seq<seq<Byte>>, clean: seq<Byte> -> seq<Byte>)
    ensures Presented([first] + rest, clean) == PresentedLast(first, clean) + Presented(rest, clean)
  {
    if rest == [] {
      assert [first] + rest == [first] && [first][..0] == [];
    } else {
      var n := |rest| - 1;
      assert ([first] + rest)[..n + 1] == [first] + rest[..n];
      PresentedFirst(first, rest[..n], clean);
    }
  }

  predicate OutputTruncated(stream: seq<Byte>, broken: bool, limit: nat, clean: seq<Byte> -> seq<Byte>) {
    || broken
    || HasOverlong(SplitLines(stream))
    || Total(OutputLines(stream, broken, clean)) > limit
  }

  lemma {:induction false} SplitOneMore(s: seq<Byte>, b: Byte)
    ensures var segments := SplitLines(s);
            SplitLines(s + [b]) == if b == LF then segments + [[]] else AllButLast(segments) + [Last(segments) + [b]]
  {
    if s == [] {
      SplitPrefix(if b == LF then [] else [b], []);
      assert s + [b] == [b] && [] + [LF] + [] == [LF];
    } else {
      SplitOneMore(s[1..], b);
      assert (s + [b])[1..] == s[1..] + [b];
      var rest, more := SplitLines(s[1..]), SplitLines(s[1..] + [b]);
      assert SplitLines(s) == if s[0] == LF then [[]] + rest else [[s[0]] + rest[0]] + rest[1..];
      assert SplitLines(s + [b]) == if s[0] == LF then [[]] + more else [[s[0]] + more[0]] + more[1..];
      hide SplitLines;
      if s[0] == LF {
        ExtendAfter([], rest, more, b);
      } else {
        ExtendFirst(s[0], rest, more, b);
      }
    }
  }

  lemma ExtendAfter(first: seq<Byte>, rest: seq<seq<Byte>>, more: seq<seq<Byte>>, b: Byte)
    requires rest != [] && more == if b == LF then rest + [[]] else AllButLast(rest) + [Last(rest) + [b]]
    ensures var segments := [first] + rest;
            [first] + more == if b == LF then segments + [[]] else AllButLast(segments) + [Last(segments) + [b]]
  {
  }

  lemma ExtendFirst(head: Byte, rest: seq<seq<Byte>>, more: seq<seq<Byte>>, b: Byte)
    requires rest != [] && more == if b == LF then rest + [[]] else AllButLast(rest) + [Last(rest) + [b]]
    ensures var segments := [[head] + rest[0]] + rest[1..];
            [[head] + more[0]] + more[1..]
            == if b == LF then segments + [[]] else AllButLast(segments) + [Last(segments) + [b]]
  {
    if b != LF && |rest| == 1 {
      assert [head] + (rest[0] + [b]) == ([head] + rest[0]) + [b];
    }
  }

  /** Where the byte loop stands after the bytes of `seen`. */
  ghost predicate Reading(seen: seq<Byte>, limit: nat, clean: seq<Byte> -> seq<Byte>,
                          lines: seq<seq<Byte>>, truncated: bool, line: seq<Byte>, discarding: bool)
  {
    var segments := SplitLines(seen);
    var presented := Presented(AllButLast(segments), clean);
    && lines == Tail(presented, limit)
    && (truncated <==> HasOverlong(segments) || |lines| < |presented|)
    && discarding == (|Last(segments)| > MAX_DIAGNOSTIC_LINE)
    && line == if discarding then [] else Last(segments)
  }

  /** The result depends on the bytes of the output only, not on the chunks they came in. */
  method ReadBoundedStderr(chunks: seq<seq<Byte>>, broken: bool, limit: nat, clean: seq<Byte> -> seq<Byte>)
    returns (output: BoundedDiagnostics)
    ensures fresh(output) && output.Valid()
    ensures output.lines == Tail(OutputLines(Concat(chunks), broken, clean), limit)
    ensures output.truncated <==> OutputTruncated(Concat(chunks), broken, limit, clean)
  {
    hide *;
    output := new BoundedDiagnostics();
    var line: seq<Byte> := [];
    var discarding := false;
    ghost var seen: seq<Byte> := [];
    NothingRead(limit, clean);
    for i := 0 to |chunks|
      invariant output.Valid()
      invariant seen + Concat(chunks[i..]) == Concat(chunks)
      invariant Reading(seen, limit, clean, output.lines, output.truncated, line, discarding)
    {
      ghost var before := seen;
      assert before + chunks[i][..0] == before;
      for k := 0 to |chunks[i]|
        invariant output.Valid()
        invariant seen == before + chunks[i][..k]
        invariant Reading(seen, limit, clean, output.lines, output.truncated, line, discarding)
      {
        var byte := chunks[i][k];
        ghost var was, mark, part := output.lines, output.truncated, line;
        if byte == LF {
          if !discarding {
            output.Retain(line, limit, clean);
          }
          ReadLf(seen, limit, clean, was, mark, part, discarding, output.lines);
          line := [];
          discarding := false;
        } else {
          ReadOther(seen, byte, limit, clean, was, mark, part, discarding);
          if !discarding {
            if |line| < MAX_DIAGNOSTIC_LINE {
              line := line + [byte];
            } else {
              line := [];
              discarding := true;
              output.truncated := true;
            }
          }
        }
        seen := seen + [byte];
        assert seen == before + chunks[i][..k + 1];
      }
      assert before + chunks[i][..|chunks[i]|] == before + chunks[i];
      ChunkRead(chunks, i, before);
    }
    AllRead(chunks, seen);
    ghost var was, mark := output.lines, output.truncated;
    if broken {
      output.truncated := true;
    } else if line != [] {
      output.Retain(line, limit, clean);
    }
    Finished(seen, broken, limit, clean, was, mark, line, discarding, output.lines);
  }

  lemma NothingRead(limit: nat, clean: seq<Byte> -> seq<Byte>)
    ensures Reading([], limit, clean, [], false, [], false)
  {
    assert SplitLines([]) == [[]];
  }

  /** Presented lines, and the tail kept of them, when one more segment is complete. */
  lemma SegmentDone(segments: seq<seq<Byte>>, limit: nat, clean: seq<Byte> -> seq<Byte>,
                    lines: seq<seq<Byte>>, after: seq<seq<Byte>>)
    requires segments != [] && lines == Tail(Presented(AllButLast(segments), clean), limit)
    requires |Last(segments)| <= MAX_DIAGNOSTIC_LINE && after == Tail(lines + [clean(Last(segments))], limit)
    ensures after == Tail(Presented(segments, clean), limit)
    ensures |lines| < |Presented(AllButLast(segments), clean)| || |after| < |lines| + 1
       <==> |after| < |Presented(segments, clean)|
  {
    var presented := Presented(AllButLast(segments), clean);
    TailOnline(presented, clean(Last(segments)), limit);
    TailIsLongest(presented, limit);
    TailIsLongest(lines + [clean(Last(segments))], limit);
  }

  lemma OverlongDone(segments: seq<seq<Byte>>, clean: seq<Byte> -> seq<Byte>)
    requires segments != [] && |Last(segments)| > MAX_DIAGNOSTIC_LINE
    ensures Presented(segments, clean) == Presented(AllButLast(segments), clean)
    ensures HasOverlong(segments)
  {
    assert Last(segments) in segments;
  }

  lemma OverlongOneMore(segments: seq<seq<Byte>>, b: Byte)
    requires segments != []
    ensures HasOverlong(segments + [[]]) == HasOverlong(segments)
    ensures HasOverlong(AllButLast(segments) + [Last(segments) + [b]])
       <==> HasOverlong(segments) || |Last(segments)| >= MAX_DIAGNOSTIC_LINE
  {
    var kept, last := AllButLast(segments), Last(segments);
    assert segments == kept + [last];
    assert HasOverlong(kept + [last]) == (HasOverlong(kept) || |last| > MAX_DIAGNOSTIC_LINE) by {
      OverlongConcat(kept, last);
    }
    OverlongConcat(segments, []);
    OverlongConcat(kept, last + [b]);
  }

  lemma OverlongConcat(segments: seq<seq<Byte>>, last: seq<Byte>)
    ensures HasOverlong(segments + [last]) == (HasOverlong(segments) || |last| > MAX_DIAGNOSTIC_LINE)
  {
    var more := segments + [last];
    assert last in more && forall segment | segment in segments :: segment in more;
  }

  lemma ReadLf(seen: seq<Byte>, limit: nat, clean: seq<Byte> -> seq<Byte>, lines: seq<seq<Byte>>,
               truncated: bool, line: seq<Byte>, discarding: bool, after: seq<seq<Byte>>)
    requires Reading(seen, limit, clean, lines, truncated, line, discarding)
    ensures discarding ==> Reading(seen + [LF], limit, clean, lines, truncated, [], false)
    ensures !discarding && after == Tail(lines + [clean(line)], limit) ==>
              Reading(seen + [LF], limit, clean, after, Retained(lines, truncated, after), [], false)
  {
    var segments := SplitLines(seen);
    SplitOneMore(seen, LF);
    assert AllButLast(segments + [[]]) == segments;
    OverlongOneMore(segments, LF);
    hide SplitLines, Tail, Presented, HasOverlong;
    if discarding {
      OverlongDone(segments, clean);
    } else if after == Tail(lines + [clean(line)], limit) {
      SegmentDone(segments, limit, clean, lines, after);
    }
  }

  lemma ReadOther(seen: seq<Byte>, b: Byte, limit: nat, clean: seq<Byte> -> seq<Byte>, lines: seq<seq<Byte>>,
                  truncated: bool, line: seq<Byte>, discarding: bool)
    requires Reading(seen, limit, clean, lines, truncated, line, discarding) && b != LF
    ensures discarding ==> Reading(seen + [b], limit, clean, lines, truncated, line, true)
    ensures !discarding && |line| < MAX_DIAGNOSTIC_LINE ==>
              Reading(seen + [b], limit, clean, lines, truncated, line + [b], false)
    ensures !discarding && |line| >= MAX_DIAGNOSTIC_LINE ==>
              Reading(seen + [b], limit, clean, lines, true, [], true)
  {
    var segments := SplitLines(seen);
    SplitOneMore(seen, b);
    OverlongOneMore(segments, b);
    var more := AllButLast(segments) + [Last(segments) + [b]];
    assert AllButLast(more) == AllButLast(segments) && Last(more) == Last(segments) + [b];
    hide SplitLines, Tail, Presented;
    assert discarding ==> HasOverlong(segments) by {
      assert Last(segments) in segments;
    }
  }

  lemma AllRead(chunks: seq<seq<Byte>>, seen: seq<Byte>)
    requires seen + Concat(chunks[|chunks|..]) == Concat(chunks)
    ensures seen == Concat(chunks)
  {
    assert seen + [] == seen;
  }

  lemma ChunkRead(chunks: seq<seq<Byte>>, i: nat, before: seq<Byte>)
    requires i < |chunks| && before + Concat(chunks[i..]) == Concat(chunks)
    ensures (before + chunks[i]) + Concat(chunks[i + 1..]) == Concat(chunks)
  {
    assert chunks[i..][1..] == chunks[i + 1..];
    var first, rest := chunks[i], Concat(chunks[i + 1..]);
    assert Concat(chunks[i..]) == first + rest;
    hide Concat;
    assert (before + first) + rest == before + (first + rest);
  }

  /** What the end of the output adds. */
  lemma Finished(stream: seq<Byte>, broken: bool, limit: nat, clean: seq<Byte> -> seq<Byte>,
                 lines: seq<seq<Byte>>, truncated: bool, line: seq<Byte>, discarding: bool,
                 after: seq<seq<Byte>>)
    requires Reading(stream, limit, clean, lines, truncated, line, discarding)
    ensures broken || line == [] ==>
              && lines == Tail(OutputLines(stream, broken, clean), limit)
              && ((broken || truncated) <==> OutputTruncated(stream, broken, limit, clean))
    ensures !broken && line != [] && after == Tail(lines + [clean(line)], limit) ==>
              && after == Tail(OutputLines(stream, broken, clean), limit)
              && (Retained(lines, truncated, after) <==> OutputTruncated(stream, broken, limit, clean))
  {
    var segments := SplitLines(stream);
    hide SplitLines, Presented, HasOverlong;
    TailShorter(OutputLines(stream, broken, clean), limit);
    if discarding {
      OverlongDone(segments, clean);
    } else if !broken && line != [] && after == Tail(lines + [clean(line)], limit) {
      SegmentDone(segments, limit, clean, lines, after);
    }
  }

  lemma TailShorter(lines: seq<seq<Byte>>, limit: nat)
    ensures |Tail(lines, limit)| < |lines| <==> Total(lines) > limit
  {
    if Total(lines) > limit {
      TailIsLongest(lines[1..], limit);
    }
  }
}
