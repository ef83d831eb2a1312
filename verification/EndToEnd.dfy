/**
 A timeline behind the transport: the transport runs, a timeline is loaded, the transport runs on over
 any reconnects, and the timeline takes what has been forwarded meanwhile.
 */
module EndToEnd {
  import opened Wrappers
  import opened MachineInts
  import opened Vectors
  import opened Protocol
  import opened Replication
  import opened ChatLog
  import opened Timeline
  import opened Transport

  /** The server events among what the receiver was sent. */
  function ServerEvents(events: seq<DesktopEvent>): seq<ServerEvent> {
    if events == [] then []
    else
      var last := events[|events| - 1];
      ServerEvents(events[..|events| - 1]) + if last.Server? then [last.event] else []
  }

  lemma {:induction false} ForwardedSplits(before: seq<DesktopEvent>, after: seq<DesktopEvent>)
    requires Grown(before, after, false)
    ensures ForwardedSince(after) == ForwardedSince(before) + ServerEvents(after[|before|..])
    decreases |after|
  {
    if |before| == |after| {
      assert after == before && after[|before|..] == [];
    } else {
      var shorter := after[..|after| - 1];
      ForwardedSplits(before, shorter);
      var tail := after[|before|..];
      assert tail[..|tail| - 1] == shorter[|before|..] && tail[|tail| - 1] == after[|after| - 1];
      if after[|after| - 1].Server? {
        assert ForwardedSince(before) + (ServerEvents(shorter[|before|..]) + [after[|after| - 1].event])
            == ForwardedSince(before) + ServerEvents(shorter[|before|..]) + [after[|after| - 1].event];
      } else {
        assert ServerEvents(tail) == ServerEvents(shorter[|before|..]);
      }
    }
  }

  /** The forwarded events are applied one after the other. */
  method ApplyForwarded(timeline: TimelineModel, events: seq<ServerEvent>) returns (outcomes: seq<ReconcileOutcome>)
    requires timeline.Valid()
    modifies timeline
    ensures timeline.Valid() && |outcomes| == |events|
    ensures timeline.AsReplica() == ReceiveAll(CHAT, old(timeline.AsReplica()), events)
    ensures NoGap(CHAT, old(timeline.AsReplica()), events) ==> GapDetected !in outcomes
  {
    hide TimelineModel.ListsOnce, TimelineModel.InOrder, TimelineModel.View, Receive;
    outcomes := [];
    ghost var start := timeline.AsReplica();
    for i := 0 to |events|
      invariant timeline.Valid() && |outcomes| == i
      invariant ReceiveAll(CHAT, timeline.AsReplica(), events[i..]) == ReceiveAll(CHAT, start, events)
      invariant NoGap(CHAT, start, events) ==>
                NoGap(CHAT, timeline.AsReplica(), events[i..]) && GapDetected !in outcomes
    {
      assert events[i..][1..] == events[i + 1..];
      var outcome := timeline.ApplyEvent(events[i]);
      outcomes := outcomes + [outcome];
    }
  }

  /** The transport runs from any state it can be in, a chat is loaded at a boundary not below the last
      event forwarded so far, and the transport runs on, through any number of reconnects, without a
      snapshot. The timeline reports no gap, and shows the log's prefix up to the later of its
      boundary and the transport's cursor. */
  method LoadWhileRunning(runtime: Runtime, log: ChatLog, chat: Id, first: seq<Round>, second: seq<Round>,
                          respond: nat -> ChatTimelineResponse, ahead: nat)
    returns (timeline: TimelineModel, stopped: Exit, position: Option<u64>, outcomes: seq<ReconcileOutcome>)
    requires ValidChatLog(log) && chat in log.genesis
    requires runtime.Conserved() && InStep(log.events, runtime.events, runtime.cursor)
    requires forall i | 0 <= i < |first| :: HonestChoices(log.events, first[i].choices)
    requires forall i | 0 <= i < |second| :: HonestChoices(log.events, second[i].choices)
    requires !AnySnapshot(second)
    // The server answers with the state at its boundary.
    requires forall n: nat | n <= |log.events| ::
               && respond(n).ListsOnce() && respond(n).boundarySequence == n
               && respond(n).View() == StateAt(CHAT, log, chat, n)
    modifies runtime
    ensures fresh(timeline) && timeline.Valid()
    // The first run did not end the transport, and something had been forwarded.
    ensures stopped == ScriptEnded && position.Some? ==>
              && runtime.cursor.Some? && GapDetected !in outcomes
              && position.value <= runtime.cursor.value <= timeline.cursor <= |log.events|
              && timeline.View() == StateAt(CHAT, log, chat, timeline.cursor)
              && InStep(log.events, runtime.events, runtime.cursor)
  {
    hide TimelineModel.ListsOnce, TimelineModel.InOrder, TimelineModel.View, InStep, Runtime.Conserved, Grown,
         HonestChoices, StateAt, ReceiveAll, NoGap, ForwardedSince, LastSnapshot, ServerEvents, Project, Concerns;
    timeline := new TimelineModel();
    outcomes := [];
    var heard;
    stopped, heard := runtime.Run(first, log.events);
    position := runtime.cursor;
    if stopped != ScriptEnded || position.None? {
      return;
    }
    var before, cursorBefore := runtime.events, position.value;
    CursorInLog(log.events, before, cursorBefore);
    var boundary := if cursorBefore + ahead <= |log.events| then cursorBefore + ahead else |log.events|;
    timeline.Hydrate(respond(boundary));
    var _, _ := runtime.Run(second, log.events);
    AfterLoading(log, chat, boundary, before, cursorBefore, runtime.events, runtime.cursor);
    outcomes := ApplyForwarded(timeline, ServerEvents(runtime.events[|before|..]));
  }

  lemma AfterLoading(log: ChatLog, chat: Id, boundary: nat, before: seq<DesktopEvent>, cursorBefore: u64,
                     after: seq<DesktopEvent>, cursor: Option<u64>)
    requires ValidChatLog(log) && chat in log.genesis && cursorBefore <= boundary <= |log.events|
    requires InStep(log.events, before, Some(cursorBefore)) && InStep(log.events, after, cursor)
    requires Grown(before, after, false)
    ensures before <= after
    ensures var r := Hydrated(StateAt(CHAT, log, chat, boundary), boundary);
            var events := ServerEvents(after[|before|..]);
            var end := ReceiveAll(CHAT, r, events);
            && cursor.Some? && cursorBefore <= cursor.value && NoGap(CHAT, r, events)
            && cursor.value <= end.cursor <= |log.events| && end.view == StateAt(CHAT, log, chat, end.cursor)
  {
    hide Project, Concerns;
    CursorStays(log.events, before, cursorBefore, after, cursor);
    CursorInLog(log.events, after, cursor.value);
    ForwardedSplits(before, after);
    TimelineBehindTransport(CHAT, log, chat, boundary, before, cursorBefore, after, cursor.value);
    hide ForwardedSince, ServerEvents, InStep, LastSnapshot, ReceiveAll, NoGap, StateAt;
    assert ForwardedSince(after)[|ForwardedSince(before)|..] == ServerEvents(after[|before|..]);
  }

  lemma CursorInLog(log: seq<ServerEvent>, events: seq<DesktopEvent>, cursor: u64)
    requires InStep(log, events, Some(cursor))
    ensures cursor <= |log|
  {
  }

  /** A transport that has a position keeps one. */
  lemma CursorStays(log: seq<ServerEvent>, before: seq<DesktopEvent>, cursorBefore: u64,
                    after: seq<DesktopEvent>, cursor: Option<u64>)
    requires forall i | 0 <= i < |log| :: log[i].sequence == i + 1
    requires InStep(log, before, Some(cursorBefore)) && InStep(log, after, cursor) && Grown(before, after, false)
    ensures cursor.Some? && cursorBefore <= cursor.value
  {
    ForwardedGrows(before, after);
    if cursor.Some? {
      SamePosition(log, before, cursorBefore, after, cursor.value);
    }
  }
}
