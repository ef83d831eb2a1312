/**
 Reading one newline-terminated frame from a process whose output arrives in chunks, without ever
 holding more than a given number of bytes.
 */
module LineReader {
  import opened Wrappers
  import opened Bytes

  datatype BoundedLine = Eof | Line(bytes: seq<Byte>) | TooLong

  datatype ReadError = ReadFailed | NotUtf8

  // ---------------------------------------------------------------------------------------
  // Frames of a byte stream
  // ---------------------------------------------------------------------------------------

  predicate Terminated(frame: seq<Byte>) {
    frame != [] && frame[|frame| - 1] == LF
  }

  /** Everything up to and including the first line feed, or the whole stream without one. */
  function FirstFrame(stream: seq<Byte>): (frame: seq<Byte>)
    ensures |frame| <= |stream| && frame == stream[..|frame|]
    ensures stream != [] ==> frame != []
    ensures forall i | 0 <= i < |frame| - 1 :: frame[i] != LF
    ensures Terminated(frame) || frame == stream
  {
    if stream == [] then []
    else if stream[0] == LF then [stream[0]]
    else
      var rest := FirstFrame(stream[1..]);
      assert stream[..1 + |rest|] == [stream[0]] + stream[1..][..|rest|];
      [stream[0]] + rest
  }

  /** The stream cut after each line feed. */
  function Frames(stream: seq<Byte>): seq<seq<Byte>>
    decreases |stream|
  {
    if stream == [] then []
    else
      var frame := FirstFrame(stream);
      [frame] + Frames(stream[|frame|..])
  }

  ghost predicate IsFrame(frame: seq<Byte>) {
    frame != [] && forall i | 0 <= i < |frame| - 1 :: frame[i] != LF
  }

  /** One line feed at the end of each frame and none inside; only the last may lack it. */
  ghost predicate AreFrames(frames: seq<seq<Byte>>) {
    frames == []
    || (IsFrame(frames[0]) && (|frames| == 1 || Terminated(frames[0])) && AreFrames(frames[1..]))
  }

  lemma {:induction false} FramesAreFrames(stream: seq<Byte>)
    ensures Concat(Frames(stream)) == stream && AreFrames(Frames(stream))
    decreases |stream|
  {
    if stream != [] {
      var frame := FirstFrame(stream);
      FramesAreFrames(stream[|frame|..]);
      assert Frames(stream)[1..] == Frames(stream[|frame|..]);
    }
  }

  /** There is no other way to cut a stream into frames. */
  lemma {:induction false} FramesAreUnique(frames: seq<seq<Byte>>)
    requires AreFrames(frames)
    ensures Frames(Concat(frames)) == frames
    decreases |frames|
  {
    if frames != [] {
      var head, rest := frames[0], Concat(frames[1..]);
      if |frames| == 1 {
        assert head + rest == head;
      }
      FirstFrameIs(head, rest);
      assert (head + rest)[|head|..] == rest && head + rest != [];
      FramesAreUnique(frames[1..]);
    }
  }

  lemma {:induction false} FirstFrameIs(head: seq<Byte>, rest: seq<Byte>)
    requires head != [] && (rest == [] || Terminated(head))
    requires forall k | 0 <= k < |head| - 1 :: head[k] != LF
    ensures FirstFrame(head + rest) == head
    decreases |head|
  {
    var s := head + rest;
    if |head| == 1 {
      if rest == [] {
        assert s[1..] == [];
      }
    } else {
      assert s[1..] == head[1..] + rest;
      FirstFrameIs(head[1..], rest);
      assert [head[0]] + head[1..] == head;
    }
  }

  // ---------------------------------------------------------------------------------------
  // One read
  // ---------------------------------------------------------------------------------------

  /** What a read gives for the bytes still to come, however they are cut into chunks. `broken`
      streams end in a read error. */
  function NextLine(stream: seq<Byte>, broken: bool, maxBytes: nat, isUtf8: seq<Byte> -> bool)
    : Result<BoundedLine, ReadError>
  {
    var frame := FirstFrame(stream);
    if |frame| > maxBytes then Ok(TooLong)
    else if broken && !Terminated(frame) then Err(ReadFailed)
    else if frame == [] then Ok(Eof)
    else Decoded(frame, isUtf8)
  }

  function Decoded(frame: seq<Byte>, isUtf8: seq<Byte> -> bool): Result<BoundedLine, ReadError> {
    if isUtf8(frame) then Ok(Line(frame)) else Err(NotUtf8)
  }

  /** Up to its first line feed, or without one: what is too long for the maximum is reported as such before
      anything else; what is not text is an error; and a stream that has come to its end, in order, is. */
  lemma WhatIsRead(stream: seq<Byte>, broken: bool, maxBytes: nat, isUtf8: seq<Byte> -> bool, p: nat)
    ensures p < |stream| && stream[p] == LF && LF !in stream[..p] ==>
              NextLine(stream, broken, maxBytes, isUtf8)
              == if p + 1 > maxBytes then Ok(TooLong)
                 else if isUtf8(stream[..p + 1]) then Ok(Line(stream[..p + 1]))
                 else Err(NotUtf8)
    ensures LF !in stream ==>
              NextLine(stream, broken, maxBytes, isUtf8)
              == if |stream| > maxBytes then Ok(TooLong)
                 else if broken then Err(ReadFailed)
                 else if stream == [] then Ok(Eof)
                 else if isUtf8(stream) then Ok(Line(stream))
                 else Err(NotUtf8)
  {
    if p < |stream| && stream[p] == LF && LF !in stream[..p] {
      assert forall i | 0 <= i < p :: stream[i] == stream[..p][i] && stream[..p][i] in stream[..p];
      FirstFrameReaches(stream, p + 1);
    }
    if LF !in stream {
      FirstFrameReaches(stream, |stream|);
      assert stream != [] ==> stream[|stream| - 1] in stream;
      assert stream[..|stream|] == stream;
    }
  }

  /** A buffered reader: what it has buffered and the chunks it will still get. */
  class Reader {
    var buffered: seq<Byte>
    var upcoming: seq<seq<Byte>>
    const broken: bool

    ghost predicate Valid()
      reads this`upcoming
    {
      forall chunk | chunk in upcoming :: chunk != []
    }

    ghost function Stream(): seq<Byte>
      reads this`buffered, this`upcoming
    {
      buffered + Concat(upcoming)
    }

    constructor (chunks: seq<seq<Byte>>, broken: bool)
      requires forall chunk | chunk in chunks :: chunk != []
      ensures Valid() && Stream() == Concat(chunks) && this.broken == broken
    {
      buffered := [];
      upcoming := chunks;
      this.broken := broken;
      new;
      assert [] + Concat(chunks) == Concat(chunks);
    }

    /** The buffered bytes, after reading more if there were none; empty at the end. */
    method FillBuffer() returns (r: Result<seq<Byte>, ReadError>)
      requires Valid()
      modifies this
      ensures Valid() && Stream() == old(Stream())
      ensures r.Ok? ==> r.value == buffered && r.value <= Stream() && (buffered == [] ==> Stream() == [] && !broken)
      ensures r.Err? ==> r.error == ReadFailed && broken && Stream() == []
    {
      if buffered == [] {
        if upcoming == [] {
          return if broken then Err(ReadFailed) else Ok([]);
        }
        assert upcoming[0] in upcoming && forall chunk | chunk in upcoming[1..] :: chunk in upcoming;
        assert [] + Concat(upcoming) == upcoming[0] + Concat(upcoming[1..]);
        buffered, upcoming := upcoming[0], upcoming[1..];
      }
      return Ok(buffered);
    }

    method Consume(n: nat)
      requires n <= |buffered|
      modifies this`buffered
      ensures Stream() == old(Stream())[n..]
    {
      buffered := buffered[n..];
    }
  }

  function PositionOfLf(s: seq<Byte>): (r: Option<nat>)
    ensures r.Some? ==> r.value < |s| && s[r.value] == LF && forall i | 0 <= i < r.value :: s[i] != LF
    ensures r.None? ==> LF !in s
  {
    if s == [] then None
    else if s[0] == LF then Some(0)
    else match PositionOfLf(s[1..]) case None => None case Some(p) => Some(p + 1)
  }

  /** A read's answer depends on the stream alone. A frame leaves the stream when it has been read;
      what is consumed, and so held in memory, never exceeds the maximum. */
  method ReadBoundedLine(reader: Reader, maxBytes: nat, isUtf8: seq<Byte> -> bool)
    returns (r: Result<BoundedLine, ReadError>)
    requires reader.Valid()
    modifies reader
    ensures reader.Valid()
    ensures r == NextLine(old(reader.Stream()), reader.broken, maxBytes, isUtf8)
    ensures r != Ok(TooLong) ==> reader.Stream() == old(reader.Stream())[|FirstFrame(old(reader.Stream()))|..]
    ensures var consumed := |old(reader.Stream())| - |reader.Stream()|;
            0 <= consumed <= maxBytes && reader.Stream() == old(reader.Stream())[consumed..]
  {
    ghost var stream := reader.Stream();
    var bytes: seq<Byte> := [];
    var answer: Option<Result<BoundedLine, ReadError>> := None;
    AtStart(stream);
    hide *;
    while answer.None?
      invariant reader.Valid()
      invariant answer.None? ==> |bytes| <= maxBytes && Between(stream, bytes, reader.Stream())
      invariant answer.Some? ==>
                  && answer.value == NextLine(stream, reader.broken, maxBytes, isUtf8)
                  && LeftAfter(stream, answer.value, reader.Stream(), maxBytes)
      decreases |reader.Stream()|, answer.None?
    {
      answer, bytes := ReadPiece(reader, stream, bytes, maxBytes, isUtf8);
    }
    WhatIsLeftAfter(stream, answer.value, reader.Stream(), maxBytes);
    return answer.value;
  }

  /** A piece of the frame, up to its end if the buffer holds it; the end of the stream; or too much. */
  method ReadPiece(reader: Reader, ghost stream: seq<Byte>, bytes: seq<Byte>, maxBytes: nat,
                   isUtf8: seq<Byte> -> bool)
    returns (answer: Option<Result<BoundedLine, ReadError>>, more: seq<Byte>)
    requires reader.Valid() && |bytes| <= maxBytes && Between(stream, bytes, reader.Stream())
    modifies reader
    ensures reader.Valid()
    ensures answer.None? ==>
              && |more| <= maxBytes && Between(stream, more, reader.Stream())
              && |reader.Stream()| < |old(reader.Stream())|
    ensures answer.Some? ==>
              && answer.value == NextLine(stream, reader.broken, maxBytes, isUtf8)
              && LeftAfter(stream, answer.value, reader.Stream(), maxBytes)
              && |reader.Stream()| <= |old(reader.Stream())|
  {
    ghost var rest := reader.Stream();
    hide *;
    var filled := reader.FillBuffer();
    if filled.Err? || filled.value == [] {
      EndOfStream(stream, bytes, reader.broken, maxBytes, isUtf8);
      answer := Some(if filled.Err? then Err(ReadFailed) else if bytes == [] then Ok(Eof) else Decoded(bytes, isUtf8));
      return answer, bytes;
    }
    var available := filled.value;
    var position := PositionOfLf(available);
    var take := if position.Some? then position.value + 1 else |available|;
    FrameReaches(stream, bytes, rest, available, take, reader.broken, maxBytes, isUtf8);
    if |bytes| + take > maxBytes {
      return Some(Ok(TooLong)), bytes;
    }
    more := bytes + available[..take];
    reader.Consume(take);
    answer := if more[|more| - 1] == LF then Some(Decoded(more, isUtf8)) else None;
  }

  /** What is consumed, and so held in memory, never exceeds the maximum; a frame that has been read is gone. */
  ghost predicate LeftAfter(stream: seq<Byte>, answer: Result<BoundedLine, ReadError>, rest: seq<Byte>,
                            maxBytes: nat)
  {
    && (answer != Ok(TooLong) ==> rest == stream[|FirstFrame(stream)|..])
    && |rest| <= |stream| <= |rest| + maxBytes && rest == stream[|stream| - |rest|..]
  }

  lemma WhatIsLeftAfter(stream: seq<Byte>, answer: Result<BoundedLine, ReadError>, rest: seq<Byte>, maxBytes: nat)
    requires LeftAfter(stream, answer, rest, maxBytes)
    ensures answer != Ok(TooLong) ==> rest == stream[|FirstFrame(stream)|..]
    ensures |rest| <= |stream| <= |rest| + maxBytes && rest == stream[|stream| - |rest|..]
  {
  }

  /** Part of a frame has been read, and this is what follows it. */
  ghost predicate Between(stream: seq<Byte>, bytes: seq<Byte>, rest: seq<Byte>) {
    bytes <= stream && rest == stream[|bytes|..] && LF !in bytes
  }

  lemma AtStart(stream: seq<Byte>)
    ensures Between(stream, [], stream)
  {
  }

  lemma EndOfStream(stream: seq<Byte>, bytes: seq<Byte>, broken: bool, maxBytes: nat, isUtf8: seq<Byte> -> bool)
    requires Between(stream, bytes, []) && |bytes| <= maxBytes
    ensures FirstFrame(stream) == stream == bytes
    ensures NextLine(stream, broken, maxBytes, isUtf8)
         == if broken then Err(ReadFailed) else if bytes == [] then Ok(Eof) else Decoded(bytes, isUtf8)
    ensures LeftAfter(stream, NextLine(stream, broken, maxBytes, isUtf8), [], maxBytes)
  {
    assert stream == bytes;
    FirstFrameReaches(stream, |stream|);
    assert stream != [] ==> stream[|stream| - 1] in stream;
  }

  lemma {:induction false} FirstFrameReaches(stream: seq<Byte>, n: nat)
    requires n <= |stream| && forall i | 0 <= i < n - 1 :: stream[i] != LF
    ensures n <= |FirstFrame(stream)|
    ensures n > 0 && stream[n - 1] == LF ==> |FirstFrame(stream)| == n
    decreases n
  {
    if n > 1 {
      FirstFrameReaches(stream[1..], n - 1);
    }
  }

  /** The frame being read goes on through the next piece; it ends there if the piece ends in a
      line feed. */
  lemma FrameReaches(stream: seq<Byte>, bytes: seq<Byte>, rest: seq<Byte>, available: seq<Byte>, take: nat,
                     broken: bool, maxBytes: nat, isUtf8: seq<Byte> -> bool)
    requires Between(stream, bytes, rest) && available <= rest && 0 < take <= |available|
    requires forall i | 0 <= i < take - 1 :: available[i] != LF
    ensures var reached := bytes + available[..take];
            && |reached| == |bytes| + take <= |stream| && rest[take..] == stream[|reached|..]
            && (|reached| > maxBytes && |bytes| <= maxBytes ==>
                 && NextLine(stream, broken, maxBytes, isUtf8) == Ok(TooLong)
                 && LeftAfter(stream, Ok(TooLong), rest, maxBytes))
            && (reached[|reached| - 1] == LF && |reached| <= maxBytes ==>
                 && NextLine(stream, broken, maxBytes, isUtf8) == Decoded(reached, isUtf8)
                 && LeftAfter(stream, Decoded(reached, isUtf8), rest[take..], maxBytes))
            && (reached[|reached| - 1] != LF ==> Between(stream, reached, rest[take..]))
  {
    var reached := bytes + available[..take];
    forall i | 0 <= i < |reached| - 1
      ensures stream[i] != LF && reached[i] == stream[i]
    {
      assert if i < |bytes| then stream[i] == bytes[i] && bytes[i] in bytes else stream[i] == available[i - |bytes|];
    }
    assert stream[|reached| - 1] == available[take - 1] == reached[|reached| - 1];
    FirstFrameReaches(stream, |reached|);
    assert reached[|reached| - 1] == LF ==> FirstFrame(stream) == reached && Terminated(reached);
    hide FirstFrame;
  }

  // ---------------------------------------------------------------------------------------
  // Repeated reads
  // ---------------------------------------------------------------------------------------

  predicate Acceptable(frame: seq<Byte>, maxBytes: nat, isUtf8: seq<Byte> -> bool) {
    |frame| <= maxBytes && isUtf8(frame)
  }

  predicate AllAcceptable(frames: seq<seq<Byte>>, maxBytes: nat, isUtf8: seq<Byte> -> bool) {
    forall frame | frame in frames :: Acceptable(frame, maxBytes, isUtf8)
  }

  /** Reads frames until a read gives something else, and hands that over as well: the frames read
      and the frames left are the frames of the stream. */
  method ReadFrames(reader: Reader, maxBytes: nat, isUtf8: seq<Byte> -> bool)
    returns (frames: seq<seq<Byte>>, end: Result<BoundedLine, ReadError>, ghost left: seq<seq<Byte>>)
    requires reader.Valid()
    modifies reader
    ensures frames + left == Frames(old(reader.Stream()))
    ensures AllAcceptable(frames, maxBytes, isUtf8)
    ensures end == NextLine(Concat(left), reader.broken, maxBytes, isUtf8)
    ensures end.Err? || !end.value.Line?
  {
    ghost var all := Frames(reader.Stream());
    frames := [];
    left := all;
    FramesAreFrames(reader.Stream());
    NothingYet(all, maxBytes, isUtf8);
    hide *;
    while true
      invariant reader.Valid()
      invariant frames + left == all
      invariant left == Frames(reader.Stream()) && Concat(left) == reader.Stream()
      invariant AllAcceptable(frames, maxBytes, isUtf8)
      decreases |reader.Stream()|
    {
      ghost var before := reader.Stream();
      end := ReadBoundedLine(reader, maxBytes, isUtf8);
      if end.Err? || !end.value.Line? {
        return;
      }
      AcceptedFrame(before, reader.broken, maxBytes, isUtf8);
      FramesAreFrames(reader.Stream());
      OneMore(frames, left, maxBytes, isUtf8);
      frames := frames + [end.value.bytes];
      left := left[1..];
    }
  }

  lemma NothingYet(all: seq<seq<Byte>>, maxBytes: nat, isUtf8: seq<Byte> -> bool)
    ensures [] + all == all && AllAcceptable([], maxBytes, isUtf8)
  {
  }

  lemma OneMore(frames: seq<seq<Byte>>, left: seq<seq<Byte>>, maxBytes: nat, isUtf8: seq<Byte> -> bool)
    requires left != [] && AllAcceptable(frames, maxBytes, isUtf8) && Acceptable(left[0], maxBytes, isUtf8)
    ensures (frames + [left[0]]) + left[1..] == frames + left
    ensures AllAcceptable(frames + [left[0]], maxBytes, isUtf8)
  {
  }

  lemma AcceptedFrame(stream: seq<Byte>, broken: bool, maxBytes: nat, isUtf8: seq<Byte> -> bool)
    requires NextLine(stream, broken, maxBytes, isUtf8).Ok? && NextLine(stream, broken, maxBytes, isUtf8).value.Line?
    ensures var frame := FirstFrame(stream);
            && NextLine(stream, broken, maxBytes, isUtf8) == Ok(Line(frame))
            && Acceptable(frame, maxBytes, isUtf8)
            && 0 < |frame| <= |stream|
            && |Frames(stream)| > 0 && Frames(stream)[0] == frame && Frames(stream)[1..] == Frames(stream[|frame|..])
  {
    FramesCons(stream);
  }

  lemma FramesCons(stream: seq<Byte>)
    requires FirstFrame(stream) != []
    ensures |Frames(stream)| > 0 && Frames(stream)[0] == FirstFrame(stream)
    ensures |FirstFrame(stream)| <= |stream|
    ensures Frames(stream)[1..] == Frames(stream[|FirstFrame(stream)|..])
  {
  }

  lemma {:induction false} LaterFrames(frames: seq<seq<Byte>>, left: seq<seq<Byte>>)
    requires AreFrames(frames + left)
    ensures AreFrames(left)
    decreases |frames|
  {
    if frames == [] {
      assert frames + left == left;
    } else {
      assert (frames + left)[1..] == frames[1..] + left;
      LaterFrames(frames[1..], left);
    }
  }

  /** Reading ends at the end of the stream exactly when every frame is acceptable and the stream
      does not break off; and then every frame has been read. */
  lemma EndsAtEof(frames: seq<seq<Byte>>, left: seq<seq<Byte>>, broken: bool, maxBytes: nat, isUtf8: seq<Byte> -> bool)
    requires AreFrames(frames + left) && AllAcceptable(frames, maxBytes, isUtf8)
    requires var end := NextLine(Concat(left), broken, maxBytes, isUtf8);
             end.Err? || !end.value.Line?
    ensures NextLine(Concat(left), broken, maxBytes, isUtf8) == Ok(Eof)
       <==> AllAcceptable(frames + left, maxBytes, isUtf8) && !broken
    ensures NextLine(Concat(left), broken, maxBytes, isUtf8) == Ok(Eof) <==> left == [] && !broken
  {
    LaterFrames(frames, left);
    FramesAreUnique(left);
    if left == [] {
      assert frames + left == frames;
    } else {
      FramesCons(Concat(left));
      assert left[0] in frames + left;
    }
  }
}
