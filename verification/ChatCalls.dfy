/**
 Tool calls of a chat completion, put together from the fragments of its stream.
 */
module ChatCalls {
  import opened Wrappers
  import opened Bytes

  const MAX_TOOL_CALLS: nat := 32
  const MAX_ARGUMENTS: nat := 4_194_304

  type Text = seq<Byte>

  /** One fragment; an index that is absent or not a number is no index. */
  datatype Delta = Delta(index: Option<nat>, id: Option<Text>, name: Option<Text>, arguments: Option<Text>)

  datatype ChatCall = ChatCall(id: Text, name: Text, arguments: Text)

  datatype ChatError =
    | InvalidIndex
    | TooManyCalls
    | ArgumentsTooLong
    | NoCalls
    | MalformedCall
    | InvalidArguments

  // ---------------------------------------------------------------------------------------
  // What a slot holds
  // ---------------------------------------------------------------------------------------

  /** The last text sent, empty if none was. */
  function LastSent(texts: seq<Option<Text>>): Text {
    if texts == [] then []
    else match texts[|texts| - 1]
      case Some(text) => text
      case None => LastSent(texts[..|texts| - 1])
  }

  function Joined(texts: seq<Option<Text>>): Text {
    if texts == [] then []
    else Joined(texts[..|texts| - 1]) + (match texts[|texts| - 1] case Some(text) => text case None => [])
  }

  function Ids(deltas: seq<Delta>): (r: seq<Option<Text>>)
    ensures |r| == |deltas| && forall i | 0 <= i < |r| :: r[i] == deltas[i].id
  {
    seq(|deltas|, i requires 0 <= i < |deltas| => deltas[i].id)
  }

  function Names(deltas: seq<Delta>): (r: seq<Option<Text>>)
    ensures |r| == |deltas| && forall i | 0 <= i < |r| :: r[i] == deltas[i].name
  {
    seq(|deltas|, i requires 0 <= i < |deltas| => deltas[i].name)
  }

  function Fragments(deltas: seq<Delta>): (r: seq<Option<Text>>)
    ensures |r| == |deltas| && forall i | 0 <= i < |r| :: r[i] == deltas[i].arguments
  {
    seq(|deltas|, i requires 0 <= i < |deltas| => deltas[i].arguments)
  }

  /** The last id, the last name and all argument fragments in order. */
  function Gathered(deltas: seq<Delta>): ChatCall {
    ChatCall(LastSent(Ids(deltas)), LastSent(Names(deltas)), Joined(Fragments(deltas)))
  }

  /** Every fragment sent for a slot. */
  function Sent(deltas: seq<Delta>, i: nat): seq<Delta> {
    if deltas == [] then []
    else
      var earlier, last := Sent(deltas[..|deltas| - 1], i), deltas[|deltas| - 1];
      if last.index == Some(i) then earlier + [last] else earlier
  }

  predicate Below(delta: Delta, i: nat) {
    delta.index.Some? && delta.index.value < i
  }

  /** The fragments sent for a slot since the last fragment of a lower slot. */
  function Kept(deltas: seq<Delta>, i: nat): seq<Delta> {
    if deltas == [] then []
    else
      var earlier, last := Kept(deltas[..|deltas| - 1], i), deltas[|deltas| - 1];
      if last.index == Some(i) then earlier + [last] else if Below(last, i) then [] else earlier
  }

  /** A fragment of a lower slot makes the slots above it start again. */
  ghost predicate NonDecreasing(deltas: seq<Delta>) {
    forall p, q | 0 <= p < q < |deltas| && deltas[p].index.Some? :: !Below(deltas[q], deltas[p].index.value)
  }

  lemma {:induction false} KeptOfOrdered(deltas: seq<Delta>, i: nat)
    requires NonDecreasing(deltas)
    ensures Kept(deltas, i) == Sent(deltas, i)
    ensures Sent(deltas, i) != [] ==> exists p | 0 <= p < |deltas| :: deltas[p].index == Some(i)
  {
    if deltas != [] {
      var earlier := deltas[..|deltas| - 1];
      KeptOfOrdered(earlier, i);
      var last := deltas[|deltas| - 1];
      if last.index == Some(i) {
        assert deltas[|deltas| - 1].index == Some(i);
      } else if Sent(earlier, i) != [] {
        var p :| 0 <= p < |earlier| && earlier[p].index == Some(i);
        assert deltas[p].index == Some(i);
      }
    }
  }

  lemma {:induction false} SentGrows(deltas: seq<Delta>, p: nat, i: nat)
    requires p < |deltas| && deltas[p].index == Some(i)
    ensures Sent(deltas, i) != []
  {
    if p < |deltas| - 1 {
      SentGrows(deltas[..|deltas| - 1], p, i);
    }
  }

  /** What has been lost for a slot is not found again. */
  lemma {:induction false} LostStaysLost(deltas: seq<Delta>, p: nat, q: nat)
    requires p < q < |deltas| && deltas[p].index.Some? && Below(deltas[q], deltas[p].index.value)
    ensures var i := deltas[p].index.value; |Kept(deltas, i)| < |Sent(deltas, i)|
  {
    var i := deltas[p].index.value;
    var earlier := deltas[..|deltas| - 1];
    if q < |deltas| - 1 {
      LostStaysLost(earlier, p, q);
    } else {
      SentGrows(earlier, p, i);
    }
  }

  /** Every slot holds everything sent for it if and only if the indices never go down. */
  lemma AllKeptIffOrdered(deltas: seq<Delta>)
    ensures (forall i: nat :: Kept(deltas, i) == Sent(deltas, i)) <==> NonDecreasing(deltas)
  {
    if NonDecreasing(deltas) {
      forall i: nat
        ensures Kept(deltas, i) == Sent(deltas, i)
      {
        KeptOfOrdered(deltas, i);
      }
    } else {
      var p, q :| 0 <= p < q < |deltas| && deltas[p].index.Some? && Below(deltas[q], deltas[p].index.value);
      LostStaysLost(deltas, p, q);
    }
  }

  // ---------------------------------------------------------------------------------------
  // Accumulation
  // ---------------------------------------------------------------------------------------

  function SlotCount(deltas: seq<Delta>): nat {
    if deltas != [] && deltas[|deltas| - 1].index.Some? then deltas[|deltas| - 1].index.value + 1 else 0
  }

  /** Why a fragment is refused after the given ones, if it is. */
  function Refusal(before: seq<Delta>, delta: Delta): Option<ChatError> {
    if delta.index.None? then Some(InvalidIndex)
    else if delta.index.value >= MAX_TOOL_CALLS then Some(TooManyCalls)
    else if delta.arguments.Some?
         && |Gathered(Kept(before, delta.index.value)).arguments| + |delta.arguments.value| > MAX_ARGUMENTS
    then Some(ArgumentsTooLong)
    else None
  }

  /** A fragment must have an index below 32, and the arguments of its slot must not outgrow 4 MiB. */
  lemma WhatIsRefused(before: seq<Delta>, delta: Delta)
    ensures delta.index.None? ==> Refusal(before, delta) == Some(InvalidIndex)
    ensures delta.index.Some? && delta.index.value >= 32 ==> Refusal(before, delta) == Some(TooManyCalls)
    ensures delta.index.Some? && delta.index.value < 32 ==>
              var held := |Gathered(Kept(before, delta.index.value)).arguments|;
              Refusal(before, delta) == if delta.arguments.Some? && held + |delta.arguments.value| > 4_194_304
                                        then Some(ArgumentsTooLong) else None
  {
  }

  /** The first refusal among fragments that follow the given ones. */
  function FirstRefusal(before: seq<Delta>, deltas: seq<Delta>): Option<ChatError>
    decreases |deltas|
  {
    if deltas == [] then None
    else if Refusal(before, deltas[0]).Some? then Refusal(before, deltas[0])
    else FirstRefusal(before + [deltas[0]], deltas[1..])
  }

  /** It is the refusal of one of them, after those before it, none of which is refused. */
  lemma {:induction false} WhatIsRefusedFirst(before: seq<Delta>, deltas: seq<Delta>)
    ensures FirstRefusal(before, deltas).None? ==>
              forall i | 0 <= i < |deltas| :: Refusal(before + deltas[..i], deltas[i]).None?
    ensures FirstRefusal(before, deltas).Some? ==>
              exists i ::
                && 0 <= i < |deltas| && Refusal(before + deltas[..i], deltas[i]) == FirstRefusal(before, deltas)
                && forall k | 0 <= k < i :: Refusal(before + deltas[..k], deltas[k]).None?
    decreases |deltas|
  {
    if deltas != [] {
      var so, rest := before + [deltas[0]], deltas[1..];
      assert before + deltas[..0] == before;
      WhatIsRefusedFirst(so, rest);
      forall i | 0 <= i < |rest|
        ensures Refusal(so + rest[..i], rest[i]) == Refusal(before + deltas[..i + 1], deltas[i + 1])
      {
        assert so + rest[..i] == before + deltas[..i + 1];
      }
      assert forall k | 0 < k < |deltas| ::
               Refusal(before + deltas[..k], deltas[k]) == Refusal(so + rest[..k - 1], rest[k - 1]);
      if Refusal(before, deltas[0]).Some? {
        assert Refusal(before + deltas[..0], deltas[0]) == FirstRefusal(before, deltas);
      } else if FirstRefusal(so, rest).Some? {
        var i :| 0 <= i < |rest| && Refusal(so + rest[..i], rest[i]) == FirstRefusal(so, rest)
                 && forall k | 0 <= k < i :: Refusal(so + rest[..k], rest[k]).None?;
        assert Refusal(before + deltas[..i + 1], deltas[i + 1]) == FirstRefusal(before, deltas);
      }
    }
  }

  lemma GatherOne(before: seq<Delta>, delta: Delta)
    ensures Gathered(before + [delta])
         == ChatCall(if delta.id.Some? then delta.id.value else Gathered(before).id,
                     if delta.name.Some? then delta.name.value else Gathered(before).name,
                     Gathered(before).arguments + if delta.arguments.Some? then delta.arguments.value else [])
  {
    var after := before + [delta];
    assert Ids(after)[..|before|] == Ids(before);
    assert Names(after)[..|before|] == Names(before);
    assert Fragments(after)[..|before|] == Fragments(before);
    assert Joined(Fragments(before)) + [] == Joined(Fragments(before));
  }

  lemma KeptOne(before: seq<Delta>, delta: Delta, i: nat)
    requires delta.index.Some?
    ensures i < delta.index.value ==> Kept(before + [delta], i) == Kept(before, i)
    ensures i == delta.index.value ==> Kept(before + [delta], i) == Kept(before, i) + [delta]
    ensures i > delta.index.value ==> Kept(before + [delta], i) == []
  {
    assert (before + [delta])[..|before|] == before;
  }

  /** Each slot holds what was sent for it since the last fragment of a lower slot. */
  ghost predicate Holds(calls: seq<ChatCall>, received: seq<Delta>) {
    && |calls| == SlotCount(received) && |calls| <= MAX_TOOL_CALLS
    && (forall delta | delta in received :: delta.index.Some?)
    && forall i | 0 <= i < |calls| :: calls[i] == Gathered(Kept(received, i))
  }

  /** The slots, from what was received. */
  function Slots(received: seq<Delta>): (calls: seq<ChatCall>)
    ensures |calls| == SlotCount(received) && forall i | 0 <= i < |calls| :: calls[i] == Gathered(Kept(received, i))
  {
    seq(SlotCount(received), i requires 0 <= i < SlotCount(received) => Gathered(Kept(received, i)))
  }

  lemma HeldSlots(calls: seq<ChatCall>, received: seq<Delta>)
    requires Holds(calls, received)
    ensures calls == Slots(received)
  {
  }

  /** A fragment is merged into its slot, after the slots have been resized to end with it. */
  lemma HoldsOneMore(calls: seq<ChatCall>, received: seq<Delta>, delta: Delta)
    requires Holds(calls, received) && delta.index.Some? && delta.index.value < MAX_TOOL_CALLS
    ensures var index, slots := delta.index.value, Resized(calls, delta.index.value + 1);
            && slots[index] == Gathered(Kept(received, index))
            && Holds(slots[index := Gathered(Kept(received, index) + [delta])], received + [delta])
  {
    var index, slots := delta.index.value, Resized(calls, delta.index.value + 1);
    forall i: nat | i <= index
      ensures slots[i] == Gathered(Kept(received, i))
    {
      if i >= |calls| {
        EmptySlot(received, i);
      }
    }
    var next, after := slots[index := Gathered(Kept(received, index) + [delta])], received + [delta];
    hide Gathered, Resized;
    forall i: nat | i <= index
      ensures next[i] == Gathered(Kept(after, i))
    {
      KeptOne(received, delta, i);
    }
    hide Kept;
    assert after[|after| - 1] == delta;
    assert SlotCount(after) == |next|;
  }

  class ChatAccumulator {
    var calls: seq<ChatCall>
    ghost var received: seq<Delta>

    ghost predicate Valid()
      reads this`calls, this`received
    {
      Holds(calls, received)
    }

    constructor ()
      ensures Valid() && calls == [] && received == []
    {
      calls := [];
      received := [];
    }

    /** Takes one fragment, or refuses it. */
    method Take(delta: Delta) returns (error: Option<ChatError>)
      requires Valid()
      modifies this
      ensures |calls| <= MAX_TOOL_CALLS
      ensures error == Refusal(old(received), delta)
      ensures error.None? ==> Valid() && received == old(received) + [delta]
    {
      assert |calls| <= MAX_TOOL_CALLS;
      if delta.index.None? {
        return Some(InvalidIndex);
      }
      var index := delta.index.value;
      if index >= MAX_TOOL_CALLS {
        return Some(TooManyCalls);
      }
      hide Gathered, Kept, Resized, Holds, SlotCount, FirstRefusal;
      HoldsOneMore(calls, received, delta);
      GatherOne(Kept(received, index), delta);
      calls := Resized(calls, index + 1);
      var call := calls[index];
      if delta.id.Some? {
        call := call.(id := delta.id.value);
      }
      if delta.name.Some? {
        call := call.(name := delta.name.value);
      }
      if delta.arguments.Some? {
        if |call.arguments| + |delta.arguments.value| > MAX_ARGUMENTS {
          return Some(ArgumentsTooLong);
        }
        call := call.(arguments := call.arguments + delta.arguments.value);
      }
      assert call == Gathered(Kept(received, index) + [delta]);
      calls := calls[index := call];
      received := received + [delta];
      return None;
    }

    /** Takes fragments up to the first that is refused. */
    method Accumulate(deltas: seq<Delta>) returns (error: Option<ChatError>)
      requires Valid()
      modifies this
      ensures |calls| <= MAX_TOOL_CALLS
      ensures error == FirstRefusal(old(received), deltas)
      ensures error.None? ==> Valid() && received == old(received) + deltas
    {
      assert |calls| <= MAX_TOOL_CALLS;
      hide Holds, Refusal;
      for k := 0 to |deltas|
        invariant Valid() && |calls| <= MAX_TOOL_CALLS
        invariant received == old(received) + deltas[..k]
        invariant FirstRefusal(received, deltas[k..]) == FirstRefusal(old(received), deltas)
      {
        assert deltas[k..][1..] == deltas[k + 1..];
        error := Take(deltas[k]);
        if error.Some? {
          return;
        }
      }
      return None;
    }
  }

  /** Cut or filled up with empty calls to a length. */
  function Resized(calls: seq<ChatCall>, n: nat): (r: seq<ChatCall>)
    ensures |r| == n
    ensures forall i | 0 <= i < n :: r[i] == if i < |calls| then calls[i] else ChatCall([], [], [])
  {
    if n <= |calls| then calls[..n] else calls + seq(n - |calls|, _ => ChatCall([], [], []))
  }

  lemma EmptySlot(deltas: seq<Delta>, i: nat)
    requires i >= SlotCount(deltas) && forall delta | delta in deltas :: delta.index.Some?
    ensures Gathered(Kept(deltas, i)) == ChatCall([], [], [])
  {
    if deltas != [] {
      assert deltas[|deltas| - 1] in deltas;
    }
    assert Kept(deltas, i) == [];
  }

  lemma NothingTruncated(deltas: seq<Delta>, p: nat)
    requires NonDecreasing(deltas) && p < |deltas| && forall delta | delta in deltas :: delta.index.Some?
    ensures deltas[p].index.value < SlotCount(deltas)
  {
    var last := deltas[|deltas| - 1];
    assert deltas[p] in deltas && last in deltas && (p < |deltas| - 1 ==> !Below(last, deltas[p].index.value));
  }

  /** With indices that never go down, a slot is the last id and name and all the arguments sent
      for it. */
  lemma SlotHoldsAllSent(accumulator: ChatAccumulator, i: nat)
    requires accumulator.Valid() && NonDecreasing(accumulator.received) && i < |accumulator.calls|
    ensures accumulator.calls[i] == Gathered(Sent(accumulator.received, i))
  {
    KeptOfOrdered(accumulator.received, i);
  }

  // ---------------------------------------------------------------------------------------
  // Finished calls
  // ---------------------------------------------------------------------------------------

  datatype ToolCall<V> = ToolCall(id: Text, name: Text, arguments: V)

  function FinishOne<V>(call: ChatCall, parse: Text -> Option<V>): Result<ToolCall<V>, ChatError> {
    if call.id == [] || call.name == [] then Err(MalformedCall)
    else match parse(call.arguments)
      case None => Err(InvalidArguments)
      case Some(value) => Ok(ToolCall(call.id, call.name, value))
  }

  /** A call must have an identifier and a name, and arguments that can be read. */
  lemma WhatFinishes<V>(call: ChatCall, parse: Text -> Option<V>)
    ensures FinishOne(call, parse)
            == if call.id == [] || call.name == [] then Err(MalformedCall)
               else if parse(call.arguments).None? then Err(InvalidArguments)
               else Ok(ToolCall(call.id, call.name, parse(call.arguments).value))
    ensures FinishChatCalls([], parse) == Err(NoCalls)
    ensures FinishChatCalls([call], parse).Ok? <==> FinishOne(call, parse).Ok?
  {
  }

  function FinishAll<V>(calls: seq<ChatCall>, parse: Text -> Option<V>): (r: Result<seq<ToolCall<V>>, ChatError>)
    ensures r.Ok? <==> forall call | call in calls :: FinishOne(call, parse).Ok?
    ensures r.Ok? ==>
              && |r.value| == |calls|
              && forall i | 0 <= i < |calls| :: FinishOne(calls[i], parse) == Ok(r.value[i])
    ensures r.Err? ==>
              exists i | 0 <= i < |calls| ::
                && FinishOne(calls[i], parse) == Err(r.error)
                && forall k | 0 <= k < i :: FinishOne(calls[k], parse).Ok?
  {
    if calls == [] then Ok([])
    else match FinishOne(calls[0], parse)
      case Err(e) => Err(e)
      case Ok(call) =>
        match FinishAll(calls[1..], parse)
        case Err(e) =>
          var i :| 0 <= i < |calls| - 1 && FinishOne(calls[1..][i], parse) == Err(e)
                   && forall k | 0 <= k < i :: FinishOne(calls[1..][k], parse).Ok?;
          assert FinishOne(calls[i + 1], parse) == Err(e);
          assert forall k | 1 <= k < i + 1 :: calls[k] == calls[1..][k - 1];
          Err(e)
        case Ok(rest) => Ok([call] + rest)
  }

  function FinishChatCalls<V>(calls: seq<ChatCall>, parse: Text -> Option<V>): Result<seq<ToolCall<V>>, ChatError> {
    if calls == [] then Err(NoCalls) else FinishAll(calls, parse)
  }

  lemma {:induction false} SentOne(texts: seq<Option<Text>>)
    ensures LastSent(texts) != [] ==> exists p | 0 <= p < |texts| :: texts[p] == Some(LastSent(texts))
  {
    if texts != [] && texts[|texts| - 1].None? {
      SentOne(texts[..|texts| - 1]);
      if LastSent(texts) != [] {
        var p :| 0 <= p < |texts| - 1 && texts[..|texts| - 1][p] == Some(LastSent(texts));
        assert texts[p] == Some(LastSent(texts));
      }
    }
  }

  lemma {:induction false} KeptWereSent(deltas: seq<Delta>, i: nat)
    ensures forall delta | delta in Kept(deltas, i) :: delta in deltas && delta.index == Some(i)
  {
    if deltas != [] {
      KeptWereSent(deltas[..|deltas| - 1], i);
    }
  }

  /** Finished calls are one for each slot, and each carries an identifier and a name that some
      fragment sent for that very slot. */
  lemma FinishedCallsWereNamed<V>(accumulator: ChatAccumulator, parse: Text -> Option<V>, i: nat)
    requires accumulator.Valid() && FinishChatCalls(accumulator.calls, parse).Ok?
    requires i < |accumulator.calls|
    ensures var call := FinishChatCalls(accumulator.calls, parse).value[i];
            && call.id != [] && call.name != []
            && (exists delta | delta in accumulator.received :: delta.index == Some(i) && delta.id == Some(call.id))
            && (exists delta | delta in accumulator.received :: delta.index == Some(i) && delta.name == Some(call.name))
            && parse(accumulator.calls[i].arguments) == Some(call.arguments)
  {
    var kept := Kept(accumulator.received, i);
    KeptWereSent(accumulator.received, i);
    assert accumulator.calls[i] == Gathered(kept);
    SentOne(Ids(kept));
    SentOne(Names(kept));
    assert FinishOne(accumulator.calls[i], parse).Ok?;
    var p :| 0 <= p < |kept| && Ids(kept)[p] == Some(Gathered(kept).id);
    var q :| 0 <= q < |kept| && Names(kept)[q] == Some(Gathered(kept).name);
    assert kept[p] in kept && kept[q] in kept;
  }
}
