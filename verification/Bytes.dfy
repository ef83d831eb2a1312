/** Byte strings: search, splitting into lines, joining. */
module Bytes {
  import opened Wrappers

  type Byte = x: int | 0 <= x < 256

  const LF: Byte := 10
  const CR: Byte := 13

  function Concat(chunks: seq<seq<Byte>>): seq<Byte> {
    if chunks == [] then [] else chunks[0] + Concat(chunks[1..])
  }

  predicate StartsWith(s: seq<Byte>, pattern: seq<Byte>) {
    |pattern| <= |s| && s[..|pattern|] == pattern
  }

  predicate OccursAt(s: seq<Byte>, pattern: seq<Byte>, p: nat) {
    p + |pattern| <= |s| && s[p..p + |pattern|] == pattern
  }

  /** Position of the first occurrence. */
  function Find(s: seq<Byte>, pattern: seq<Byte>): (r: Option<nat>)
    ensures r.Some? ==> OccursAt(s, pattern, r.value) && forall q: nat | q < r.value :: !OccursAt(s, pattern, q)
    ensures r.None? ==> forall q: nat :: !OccursAt(s, pattern, q)
  {
    FindFrom(s, pattern, 0)
  }

  function FindFrom(s: seq<Byte>, pattern: seq<Byte>, from: nat): (r: Option<nat>)
    requires from <= |s| && forall q: nat | q < from :: !OccursAt(s, pattern, q)
    ensures r.Some? ==> OccursAt(s, pattern, r.value) && forall q: nat | q < r.value :: !OccursAt(s, pattern, q)
    ensures r.None? ==> forall q: nat :: !OccursAt(s, pattern, q)
    decreases |s| - from
  {
    if OccursAt(s, pattern, from) then Some(from)
    else if from == |s| then None
    else FindFrom(s, pattern, from + 1)
  }

  /** The first occurrence is determined by what it means to be one. */
  lemma FindIs(s: seq<Byte>, pattern: seq<Byte>, p: nat)
    requires OccursAt(s, pattern, p) && forall q: nat | q < p :: !OccursAt(s, pattern, q)
    ensures Find(s, pattern) == Some(p)
  {
  }

  /** The segments between line feeds; there is always at least one. */
  function SplitLines(s: seq<Byte>): (lines: seq<seq<Byte>>)
    ensures lines != []
    ensures forall i | 0 <= i < |lines| :: LF !in lines[i]
  {
    if s == [] then [[]]
    else
      var rest := SplitLines(s[1..]);
      if s[0] == LF then [[]] + rest else [[s[0]] + rest[0]] + rest[1..]
  }

  function JoinLines(lines: seq<seq<Byte>>): seq<Byte>
    requires lines != []
  {
    if |lines| == 1 then lines[0] else lines[0] + [LF] + JoinLines(lines[1..])
  }

  lemma {:induction false} JoinSplit(s: seq<Byte>)
    ensures JoinLines(SplitLines(s)) == s
  {
    if s != [] {
      JoinSplit(s[1..]);
      var rest := SplitLines(s[1..]);
      if s[0] == LF {
        assert ([[]] + rest)[1..] == rest;
      } else {
        var lines := [[s[0]] + rest[0]] + rest[1..];
        assert lines[1..] == rest[1..];
      }
    }
  }

  lemma {:induction false} SplitPrefix(line: seq<Byte>, rest: seq<Byte>)
    requires LF !in line
    ensures SplitLines(line + [LF] + rest) == [line] + SplitLines(rest)
    ensures SplitLines(line) == [line]
  {
    var s := line + [LF] + rest;
    if line == [] {
      assert s[1..] == rest;
    } else {
      SplitPrefix(line[1..], rest);
      assert s[1..] == line[1..] + [LF] + rest;
      assert [line[0]] + line[1..] == line;
    }
  }

  lemma {:induction false} SplitJoin(lines: seq<seq<Byte>>)
    requires lines != [] && forall i | 0 <= i < |lines| :: LF !in lines[i]
    ensures SplitLines(JoinLines(lines)) == lines
  {
    if |lines| == 1 {
      SplitPrefix(lines[0], []);
    } else {
      SplitJoin(lines[1..]);
      SplitPrefix(lines[0], JoinLines(lines[1..]));
      assert [lines[0]] + lines[1..] == lines;
    }
  }
}
