/**
 The JSON-RPC client of the Codex App Server: requests of HomeBot, requests of the server, and the
 event routes, shared by the reading task, the callers and whoever reports that the server is gone.
 Each method that changes the client is one step of one task: one lock taken, one message written or
 one event sent. Other tasks may act between any two of them.
 */
module Codex {
  import opened Wrappers
  import opened CodexTables
  import opened CodexRoutes

  // ---------------------------------------------------------------------------------------
  // Messages of the server
  // ---------------------------------------------------------------------------------------

  datatype TurnStatus = TurnCompleted | TurnInterrupted | TurnFailed(problem: Problem)

  datatype Notification =
    | ErrorNote(problem: Problem)
    | RequestResolved(request: Option<RequestId>)
    | TurnEnded(status: TurnStatus)
    | Progress(kinds: seq<nat>)

  datatype Message =
    | Reply(id: Option<nat>, answer: Answer)
    | Nameless
    | Ask(what: Method, request: RequestId, thread: Option<Thread>, call: Option<CallId>, name: Option<Json>)
    | Notify(note: Notification, thread: Option<Thread>)

  /** What a notification says to the run it is for. */
  function NotificationEvents(note: Notification, lastError: Option<Problem>): (events: seq<ProviderEvent>)
    ensures note.TurnEnded? ==> |events| == 1 && IsTerminal(events[0])
    ensures !note.TurnEnded? ==> forall event | event in events :: event.OtherEvent?
  {
    match note
    case TurnEnded(TurnCompleted) => [Completed]
    case TurnEnded(TurnInterrupted) => [Cancelled]
    case TurnEnded(TurnFailed(problem)) => [Failed(if lastError.Some? then lastError.value else problem)]
    case Progress(kinds) => seq(|kinds|, i requires 0 <= i < |kinds| => OtherEvent(kinds[i]))
    case _ => []
  }

  function ClosingOf(note: Notification, o: Operation, thread: Thread): Closing {
    match note
    case RequestResolved(request) => ForRequest(request)
    case TurnEnded(_) => ForTurn(o, thread)
    case _ => Nothing
  }

  predicate Routed(routes: map<Operation, Route>, thread: Thread) {
    exists o | o in routes :: routes[o].thread == thread
  }

  /** A request that is answered on the spot: of an unknown kind, or for no run. */
  predicate AtOnce(message: Message, routes: map<Operation, Route>) {
    && message.Ask?
    && (message.what.OtherMethod? || (message.thread.Some? && !Routed(routes, message.thread.value)))
  }

  /** A message that cannot be handled. */
  predicate Malformed(message: Message, routes: map<Operation, Route>) {
    match message
    case Reply(id, _) => id.None?
    case Nameless => true
    case Ask(what, _, thread, call, name) =>
      && !what.OtherMethod?
      && (thread.None? || (Routed(routes, thread.value) && what.ToolCallMethod? && (call.None? || name.None?)))
    case Notify(_, _) => false
  }

  /** What the reading task has to do next for a message that is in order: which run it is for, and what
      is to be sent to it. */
  predicate Prepared(message: Message, routes: map<Operation, Route>, to: Option<Operation>, reader: Reader) {
    match message
    case Ask(what, _, thread, call, name) =>
      if AtOnce(message, routes) then reader.Idle?
      else
        && to.Some? && to.value in routes && Some(routes[to.value].thread) == thread
        && reader == Entering(what, thread.value, OrZero(call), OrZero(name), routes[to.value].channel)
    case Notify(note, thread) =>
      && (to.None? <==> thread.None? || !Routed(routes, thread.value))
      && if to.None? then reader.Idle?
         else
           var o := to.value;
           && o in routes && Some(routes[o].thread) == thread
           && reader == if note.ErrorNote? then Idle
                        else NextReader(routes[o].channel, NotificationEvents(note, routes[o].lastError),
                                        ClosingOf(note, o, thread.value))
    case _ => reader.Idle?
  }

  /** A request has been received, and answered if it is answered on the spot and the answer is written. */
  ghost predicate Taken(message: Message, routes: map<Operation, Route>, written: bool, before: Ledger, after: Ledger)
    requires message.Ask?
  {
    var body := if message.what.OtherMethod? then Unsupported else Decided(Decline);
    && |before.status| == |before.received|
    && after == if AtOnce(message, routes) && written
                then Replying(Receiving(before, message.request), |before.received|, body)
                else Receiving(before, message.request)
  }

  lemma TakenGrows(message: Message, routes: map<Operation, Route>, written: bool, before: Ledger, after: Ledger)
    requires message.Ask? && Taken(message, routes, written, before, after)
    ensures before.received <= after.received && before.replies <= after.replies
  {
  }

  /** Other messages need nothing, and are in order when they name what they answer. */
  lemma NothingPrepared(message: Message, routes: map<Operation, Route>, reader: Reader)
    requires reader.Idle?
    ensures message.Reply? || message.Nameless? ==> Prepared(message, routes, None, reader) && !AtOnce(message, routes)
    ensures message.Reply? ==> (Malformed(message, routes) <==> message.id.None?)
    ensures message.Nameless? ==> Malformed(message, routes)
    ensures message.Notify? ==> !AtOnce(message, routes) && !Malformed(message, routes)
    ensures Noted(message, routes, None) == routes
  {
  }

  /** A note of an error is kept with the route it is for. */
  function Noted(message: Message, routes: map<Operation, Route>, to: Option<Operation>): map<Operation, Route> {
    if message.Notify? && message.note.ErrorNote? && to.Some? && to.value in routes then
      routes[to.value := routes[to.value].(lastError := Some(message.note.problem))]
    else routes
  }

  /** What a notification tells its run: of a turn that has ended, that it completed, was cancelled, or
      failed with the last error noted or else its own; of progress, each part; and nothing else. */
  lemma WhatNotificationsSay(note: Notification, lastError: Option<Problem>, problem: Problem, kinds: seq<nat>)
    ensures NotificationEvents(TurnEnded(TurnCompleted), lastError) == [Completed]
    ensures NotificationEvents(TurnEnded(TurnInterrupted), lastError) == [Cancelled]
    ensures NotificationEvents(TurnEnded(TurnFailed(problem)), None) == [Failed(problem)]
    ensures lastError.Some? ==>
              NotificationEvents(TurnEnded(TurnFailed(problem)), lastError) == [Failed(lastError.value)]
    ensures |NotificationEvents(Progress(kinds), lastError)| == |kinds|
    ensures forall i | 0 <= i < |kinds| :: NotificationEvents(Progress(kinds), lastError)[i] == OtherEvent(kinds[i])
    ensures note.ErrorNote? || note.RequestResolved? ==> NotificationEvents(note, lastError) == []
  {
  }

  /** What becomes of a request of the server. An unknown kind is refused, whatever else it says; without
      a thread it is malformed; for a thread of no run it is declined; a tool call without its identifier
      or its name is malformed; and any other is entered for a run of its thread and not answered yet. */
  lemma WhatRequestsNeed(message: Message, routes: map<Operation, Route>, to: Option<Operation>, reader: Reader,
                         written: bool, before: Ledger, after: Ledger)
    requires message.Ask? && Taken(message, routes, written, before, after)
    requires Malformed(message, routes) || Prepared(message, routes, to, reader)
    ensures after.received == before.received + [message.request]
    ensures after.approvals == before.approvals && after.toolCalls == before.toolCalls && after.owed == before.owed
    ensures message.what.OtherMethod? ==>
              && !Malformed(message, routes) && reader.Idle?
              && after.replies == before.replies + if written then [Answerback(message.request, Unsupported)] else []
    ensures !message.what.OtherMethod? && message.thread.None? ==>
              Malformed(message, routes) && after.replies == before.replies
    ensures !message.what.OtherMethod? && message.thread.Some?
            && (forall o | o in routes :: routes[o].thread != message.thread.value) ==>
              && !Malformed(message, routes) && reader.Idle?
              && after.replies
                 == before.replies + if written then [Answerback(message.request, Decided(Decline))] else []
    ensures !message.what.OtherMethod? && message.thread.Some?
            && (exists o | o in routes :: routes[o].thread == message.thread.value) ==>
              && after.replies == before.replies
              && (Malformed(message, routes) <==>
                    message.what.ToolCallMethod? && (message.call.None? || message.name.None?))
              && (!Malformed(message, routes) ==>
                    && to.Some? && to.value in routes && routes[to.value].thread == message.thread.value
                    && reader.Entering? && reader.what == message.what && reader.thread == message.thread.value
                    && reader.channel == routes[to.value].channel
                    && (message.what.ToolCallMethod? ==>
                          reader.call == message.call.value && reader.name == message.name.value))
  {
  }

  /** What becomes of a notification: for a run of its thread an error is noted with its route, and anything
      else is sent to it, followed by what an ended turn or a resolved request takes along. */
  lemma WhatNotificationsNeed(note: Notification, thread: Option<Thread>, routes: map<Operation, Route>,
                              to: Option<Operation>, reader: Reader)
    requires Prepared(Notify(note, thread), routes, to, reader)
    ensures !Malformed(Notify(note, thread), routes) && !AtOnce(Notify(note, thread), routes)
    ensures to.Some? <==> thread.Some? && exists o | o in routes :: routes[o].thread == thread.value
    ensures to.None? || note.ErrorNote? ==> reader.Idle?
    ensures to.Some? ==> to.value in routes && thread == Some(routes[to.value].thread)
    ensures Noted(Notify(note, thread), routes, to)
            == if to.Some? && note.ErrorNote? then
                 routes[to.value := Route(thread.value, routes[to.value].channel, Some(note.problem))]
               else routes
    ensures to.Some? && note.TurnEnded? ==>
              var route := routes[to.value];
              reader == Sending(route.channel, NotificationEvents(note, route.lastError),
                                ForTurn(to.value, route.thread))
    ensures to.Some? && note.RequestResolved? ==> reader == DroppingApprovals(None, note.request)
    ensures to.Some? && note.Progress? ==>
              var route := routes[to.value];
              reader == if note.kinds == [] then Idle
                        else Sending(route.channel, NotificationEvents(note, route.lastError), Nothing)
  {
  }

  /** A step of one of the tasks. */
  datatype Moment =
    | Call
    | EnterTable(id: nat)
    | WriteRequest(id: nat, ok: bool)
    | GiveUp(id: nat)
    | ReturnOutcome(id: nat)
    | TimeRunsOut(id: nat)
    | Incoming(message: Message, written: bool)
    | ReaderMoves
    | ServerExits(problem: Problem)
    | FailureMoves
    | RouteRun(o: Operation, thread: Thread, open: bool)
    | AnnounceRun(channel: nat)
    | DropRoute(o: Operation)
    | DropReceiver(channel: nat)
    | Decide(a: nat, decision: Decision)
    | HandResult(c: CallId, success: bool, content: Json)
    | SendReply(place: nat, written: bool)

  /** The operations whose route is given up, and the channels whose receiver is dropped. */
  function Dropped(moment: Moment): set<Operation> {
    if moment.DropRoute? then {moment.o} else {}
  }

  function Closed(moment: Moment): set<nat> {
    if moment.DropReceiver? then {moment.channel} else {}
  }

  function DroppedIn(script: seq<Moment>): set<Operation> {
    if script == [] then {} else DroppedIn(script[..|script| - 1]) + Dropped(script[|script| - 1])
  }

  function ClosedIn(script: seq<Moment>): set<nat> {
    if script == [] then {} else ClosedIn(script[..|script| - 1]) + Closed(script[|script| - 1])
  }

  /** The approvals that are decided on, and the tool calls whose results are handed in. */
  function Decides(moment: Moment): set<nat> {
    if moment.Decide? then {moment.a} else {}
  }

  function Hands(moment: Moment): set<CallId> {
    if moment.HandResult? then {moment.c} else {}
  }

  function DecidedIn(script: seq<Moment>): (r: set<nat>)
    ensures forall a :: a in r <==> exists i | 0 <= i < |script| :: script[i].Decide? && script[i].a == a
  {
    set i | 0 <= i < |script| && script[i].Decide? :: script[i].a
  }

  function HandedIn(script: seq<Moment>): (r: set<CallId>)
    ensures forall c :: c in r <==> exists i | 0 <= i < |script| :: script[i].HandResult? && script[i].c == c
  {
    set i | 0 <= i < |script| && script[i].HandResult? :: script[i].c
  }

  /** The reading task does nothing meanwhile. */
  predicate Quiet(script: seq<Moment>) {
    forall i | 0 <= i < |script| :: !script[i].Incoming? && !script[i].ReaderMoves?
  }

  /** What was sent stays sent, and a receiver that is gone does not come back. */
  ghost predicate ChannelsGrow(before: seq<Channel>, after: seq<Channel>) {
    && |before| <= |after|
    && forall i | 0 <= i < |before| :: before[i].events <= after[i].events && (after[i].open ==> before[i].open)
  }

  /** No entry is of the thread, if there is one. */
  predicate NoneOf(entries: map<nat, Unanswered>, thread: Option<Thread>) {
    forall k | k in entries :: Some(entries[k].thread) != thread
  }

  // ---------------------------------------------------------------------------------------
  // The client
  // ---------------------------------------------------------------------------------------

  class CodexClient {
    var alive: bool
    var nextId: nat
    var stages: map<nat, Stage>
    var pending: set<nat>
    var delivered: map<nat, Outcome>
    var routes: map<Operation, Route>
    var channels: seq<Channel>
    var approvals: map<nat, Unanswered>
    var nextApproval: nat
    var toolCalls: map<CallId, Unanswered>
    // Where the reading task, the registrations and `fail_all` stand.
    var reader: Reader
    var announcing: map<nat, Registration>
    var failing: nat
    var cause: Problem
    var toFail: set<nat>
    // The requests of the server in the order received, and the replies written to it.
    var received: seq<RequestId>
    var replies: seq<Answerback>
    // The replies that are still to be written, by the places of the requests they answer.
    var owed: map<nat, Answerback>
    ghost var responses: seq<Response>
    ghost var answeredAt: map<nat, nat>
    ghost var status: seq<Status>
    ghost var replyTo: seq<nat>
    ghost var contested: set<nat>
    // What there was when the failure of the client came to it.
    ghost var known: set<nat>
    ghost var drained: set<nat>
    ghost var approvalsFrom: nat
    ghost var callsFrom: nat

    ghost function Books(): Ledger
      reads this`received, this`status, this`replies, this`replyTo, this`approvals, this`nextApproval, this`toolCalls,
            this`owed
    {
      Ledger(received, status, replies, replyTo, approvals, nextApproval, toolCalls, owed)
    }

    ghost function Routing(): Board
      reads this`routes, this`channels, this`announcing, this`toFail, this`reader, this`contested, this`drained
    {
      Board(routes, channels, announcing, toFail, reader, contested, drained)
    }

    ghost predicate RequestsOk()
      reads this`nextId, this`stages, this`pending, this`delivered, this`responses, this`answeredAt, this`known
    {
      RequestsValid(nextId, stages, pending, delivered, responses, answeredAt, known)
    }

    /** Both tables are in order; the request being entered has just come; and after a turn's approvals
        have been dropped none of its thread is left. */
    ghost predicate BooksOk()
      reads this`received, this`status, this`replies, this`replyTo, this`approvals, this`nextApproval, this`toolCalls,
            this`owed, this`reader
    {
      && LedgerValid(Books())
      && (reader.Entering? ==> Newest(Books()))
      && (reader.DroppingCalls? ==> NoneOf(approvals, reader.threads))
    }

    ghost predicate RoutesOk()
      reads this`routes, this`channels, this`announcing, this`toFail, this`reader, this`contested, this`drained,
            this`failing
    {
      && BoardValid(Routing())
      && (failing <= 2 ==> toFail == {} && drained == {})
      && (failing > 3 ==> toFail == {})
    }

    /** Entries that are there after the failure has cleared a table were entered later. */
    ghost predicate LateOk()
      reads this`failing, this`approvals, this`nextApproval, this`toolCalls, this`received,
            this`approvalsFrom, this`callsFrom
    {
      && approvalsFrom <= nextApproval && callsFrom <= |received|
      && (failing > 4 ==> forall a | a in approvals :: approvalsFrom <= a)
      && (failing > 5 ==> forall c | c in toolCalls :: callsFrom <= toolCalls[c].place + 1)
    }

    ghost predicate Valid()
      reads this
    {
      RequestsOk() && BooksOk() && RoutesOk() && LateOk() && (alive <==> failing == 0)
    }

    constructor ()
      ensures Valid() && alive && reader.Idle?
      ensures stages == map[] && replies == [] && channels == [] && routes == map[] && announcing == map[]
      ensures contested == {}
    {
      alive := true;
      nextId := 1;
      stages := map[];
      pending := {};
      delivered := map[];
      routes := map[];
      channels := [];
      approvals := map[];
      nextApproval := 0;
      toolCalls := map[];
      reader := Idle;
      announcing := map[];
      failing := 0;
      cause := ServerGone;
      toFail := {};
      received := [];
      replies := [];
      owed := map[];
      responses := [];
      answeredAt := map[];
      status := [];
      replyTo := [];
      contested := {};
      known := {};
      drained := {};
      approvalsFrom := 0;
      callsFrom := 0;
    }

    // -------------------------------------------------------------------------------------
    // A request, step by step
    // -------------------------------------------------------------------------------------

    /** The number a request gets has never been given out; a dead client gives none. */
    method Begin() returns (id: Option<nat>)
      requires RequestsOk()
      modifies this`nextId, this`stages
      ensures RequestsOk() && Settled(old(stages), stages)
      ensures id.Some? <==> alive
      ensures id.Some? ==> id.value !in old(stages) && stages == old(stages)[id.value := Numbered]
      ensures id.None? ==> stages == old(stages)
    {
      if !alive {
        return None;
      }
      id := Some(nextId);
      stages := stages[nextId := Numbered];
      nextId := nextId + 1;
    }

    method Enter(id: nat)
      requires RequestsOk() && id in stages && stages[id].Numbered?
      modifies this`stages, this`pending
      ensures RequestsOk() && Settled(old(stages), stages)
      ensures stages == old(stages)[id := Entered] && pending == old(pending) + {id}
    {
      stages := stages[id := Entered];
      pending := pending + {id};
    }

    method Written(id: nat, ok: bool)
      requires RequestsOk() && id in stages && stages[id].Entered?
      modifies this`stages
      ensures RequestsOk() && Settled(old(stages), stages)
      ensures stages == old(stages)[id := if ok then Waiting else Unwritten]
    {
      stages := stages[id := if ok then Waiting else Unwritten];
    }

    /** A caller whose message could not be written, or whose time has run out, takes its number
        out of the table and leaves. */
    method Leave(id: nat)
      requires RequestsOk() && id in stages && (stages[id].Unwritten? || stages[id].Expired?)
      modifies this`stages, this`pending
      ensures RequestsOk() && Settled(old(stages), stages) && id !in pending
      ensures stages == old(stages)[id := Finished(Refused(if old(stages)[id].Expired? then TimedOut else WriteFailed))]
    {
      var problem := if stages[id].Expired? then TimedOut else WriteFailed;
      pending := pending - {id};
      stages := stages[id := Finished(Refused(problem))];
    }

    /** A waiting caller that has been delivered an outcome returns it. */
    method Return(id: nat) returns (ok: bool)
      requires RequestsOk() && id in stages && stages[id].Waiting?
      modifies this`stages
      ensures RequestsOk() && Settled(old(stages), stages)
      ensures ok == (id in delivered)
      ensures stages == if ok then old(stages)[id := Finished(delivered[id])] else old(stages)
      ensures ok ==> id !in pending
    {
      ok := id in delivered;
      if ok {
        stages := stages[id := Finished(delivered[id])];
      }
    }

    /** The time of a waiting caller runs out unless its outcome is there. */
    method Expire(id: nat) returns (ok: bool)
      requires RequestsOk() && id in stages && stages[id].Waiting?
      modifies this`stages
      ensures RequestsOk() && Settled(old(stages), stages)
      ensures ok == (id !in delivered)
      ensures stages == if ok then old(stages)[id := Stage.Expired] else old(stages)
    {
      ok := id !in delivered;
      if ok {
        stages := stages[id := Stage.Expired];
      }
    }

    /** A response is delivered to the number it names, once; other numbers are ignored. */
    method Respond(id: nat, answer: Answer)
      requires RequestsOk()
      modifies this`pending, this`delivered, this`responses, this`answeredAt
      ensures RequestsOk()
      ensures pending == old(pending) - {id}
      ensures delivered == if id in old(pending) then old(delivered)[id := Answered(answer)] else old(delivered)
      ensures responses == old(responses) + [Response(id, answer)]
    {
      responses := responses + [Response(id, answer)];
      if id in pending {
        pending := pending - {id};
        delivered := delivered[id := Answered(answer)];
        answeredAt := answeredAt[id := |responses| - 1];
      }
    }

    /** Every number in the table is delivered the failure. */
    method FailPending(problem: Problem)
      requires RequestsOk()
      modifies this`pending, this`delivered, this`known
      ensures RequestsOk() && pending == {}
      ensures forall id | id in old(pending) :: id in delivered && delivered[id] == Refused(problem)
      ensures forall id | id in old(delivered) :: id in delivered && delivered[id] == old(delivered)[id]
      ensures known == set id | id in stages && !stages[id].Numbered?
    {
      delivered := delivered + map id | id in pending :: Refused(problem);
      pending := {};
      known := set id | id in stages && !stages[id].Numbered?;
    }

    // -------------------------------------------------------------------------------------
    // Routes
    // -------------------------------------------------------------------------------------

    /** The first step of `register_route`: a route on a channel of its own, unless the operation has
        one. */
    method InsertRoute(o: Operation, thread: Thread, open: bool) returns (problem: Option<Problem>)
      requires RoutesOk()
      modifies this`routes, this`channels, this`announcing
      ensures RoutesOk() && Routing() == Inserted(old(Routing()), o, thread, open)
      ensures problem == if o in old(routes) then Some(AlreadyActive) else None
      ensures ChannelsGrow(old(channels), channels)
    {
      InsertOne(Routing(), o, thread, open);
      hide BoardValid;
      channels := channels + [Channel(open, [])];
      if o in routes {
        return Some(AlreadyActive);
      }
      routes := routes[o := Route(thread, |channels| - 1, None)];
      announcing := announcing[|channels| - 1 := Registration(o, thread)];
      return None;
    }

    /** Its second step: the announcement, or the end of the route when the receiver is gone. */
    method AnnounceRoute(i: nat) returns (problem: Option<Problem>)
      requires RoutesOk() && i in announcing
      modifies this`routes, this`channels, this`announcing
      ensures i < |old(channels)| && RoutesOk() && Routing() == Announced(old(Routing()), i)
      ensures problem == if old(channels)[i].open then None else Some(ReceiverClosed)
      ensures ChannelsGrow(old(channels), channels)
    {
      AnnounceOne(Routing(), i);
      hide BoardValid;
      var registration := announcing[i];
      problem := if channels[i].open then None else Some(ReceiverClosed);
      channels := channels[i := SendOn(channels[i], ConversationStarted(registration.thread))];
      announcing := announcing - {i};
      if problem.Some? {
        routes := routes - {registration.o};
      }
    }

    method RemoveRoute(o: Operation)
      requires RoutesOk()
      modifies this`routes
      ensures RoutesOk() && routes == old(routes) - {o}
    {
      RemoveOne(Routing(), o);
      hide BoardValid;
      routes := routes - {o};
    }

    method CloseChannel(i: nat)
      requires RoutesOk() && i < |channels|
      modifies this`channels
      ensures RoutesOk() && channels == old(channels)[i := old(channels)[i].(open := false)]
      ensures ChannelsGrow(old(channels), channels)
    {
      CloseOne(Routing(), i);
      hide BoardValid;
      channels := channels[i := channels[i].(open := false)];
    }

    // -------------------------------------------------------------------------------------
    // Decisions and results
    // -------------------------------------------------------------------------------------

    /** A decision takes the entry of the request it answers; the reply is to be written. */
    method ResolveApproval(a: nat, decision: Decision) returns (problem: Option<Problem>)
      requires BooksOk() && LateOk()
      modifies this`approvals, this`status, this`owed
      ensures BooksOk() && LateOk() && approvals == old(approvals) - {a}
      ensures problem == if a in old(approvals) then None else Some(NotPending)
      ensures if a in old(approvals) then
                var entry := old(approvals)[a];
                entry.place !in old(owed) && owed == old(owed)[entry.place := Answerback(entry.id, Decided(decision))]
              else owed == old(owed)
    {
      if a !in approvals {
        return Some(NotPending);
      }
      var entry := approvals[a];
      AnswerApproval(Books(), a, Decided(decision));
      hide LedgerValid, Newest;
      approvals := approvals - {a};
      status := status[entry.place := Owed];
      owed := owed[entry.place := Answerback(entry.id, Decided(decision))];
      return None;
    }

    /** So does the result of a tool call. */
    method ResolveToolCall(c: CallId, success: bool, content: Json) returns (problem: Option<Problem>)
      requires BooksOk() && LateOk()
      modifies this`toolCalls, this`status, this`owed
      ensures BooksOk() && LateOk() && toolCalls == old(toolCalls) - {c}
      ensures problem == if c in old(toolCalls) then None else Some(NotPending)
      ensures if c in old(toolCalls) then
                var entry := old(toolCalls)[c];
                && entry.place !in old(owed)
                && owed == old(owed)[entry.place := Answerback(entry.id, ToolResult(success, content))]
              else owed == old(owed)
    {
      if c !in toolCalls {
        return Some(NotPending);
      }
      var entry := toolCalls[c];
      AnswerTool(Books(), c, ToolResult(success, content));
      hide LedgerValid, Newest;
      toolCalls := toolCalls - {c};
      status := status[entry.place := Owed];
      owed := owed[entry.place := Answerback(entry.id, ToolResult(success, content))];
      return None;
    }

    /** A reply is written, or lost. */
    method WriteReply(place: nat, written: bool) returns (problem: Option<Problem>)
      requires BooksOk() && place in owed
      modifies this`owed, this`replies, this`status, this`replyTo
      ensures BooksOk() && owed == old(owed) - {place}
      ensures problem == if written then None else Some(WriteFailed)
      ensures replies == if written then old(replies) + [old(owed)[place]] else old(replies)
      ensures written ==> replyTo == old(replyTo) + [place]
    {
      WriteOne(Books(), place);
      hide LedgerValid, Newest;
      var reply := owed[place];
      owed := owed - {place};
      if !written {
        return Some(WriteFailed);
      }
      status := status[place := Replied(|replies|)];
      replies := replies + [reply];
      replyTo := replyTo + [place];
      return None;
    }

    // -------------------------------------------------------------------------------------
    // The reading task
    // -------------------------------------------------------------------------------------

    method Receive(id: RequestId)
      requires BooksOk() && LateOk() && reader.Idle?
      modifies this`received, this`status
      ensures BooksOk() && LateOk() && Newest(Books()) && Books() == Receiving(old(Books()), id)
      ensures |old(status)| == |old(received)|
    {
      ReceiveOne(Books(), id);
      assert |status| == |received|;
      hide LedgerValid, Newest;
      received := received + [id];
      status := status + [Ignored];
    }

    /** A request that is answered on the spot. */
    method AnswerNow(id: RequestId, body: ReplyBody, written: bool) returns (problem: Option<Problem>)
      requires BooksOk() && LateOk() && reader.Idle?
      modifies this`received, this`replies, this`status, this`replyTo
      ensures BooksOk() && LateOk()
      ensures problem == if written then None else Some(WriteFailed)
      ensures |old(status)| == |old(received)|
      ensures Books() == if written then Replying(Receiving(old(Books()), id), |old(received)|, body)
                         else Receiving(old(Books()), id)
    {
      AnswerAtOnce(Books(), id, body);
      assert |status| == |received|;
      hide LedgerValid, Newest;
      if !written {
        Receive(id);
        return Some(WriteFailed);
      }
      status := status + [Ignored];
      status := status[|received| := Replied(|replies|)];
      replies := replies + [Answerback(id, body)];
      replyTo := replyTo + [|received|];
      received := received + [id];
      assert Books() == Replying(Receiving(old(Books()), id), |old(received)|, body);
      hide Receiving, Replying, CodexClient.Books;
      return None;
    }

    /** The reading task looks at a request of the server: it is answered at once, is malformed, or is
        to be entered for a run of its thread. */
    method HandleServerRequest(message: Message, written: bool) returns (problem: Option<Problem>, ghost to: Operation)
      requires Valid() && reader.Idle? && message.Ask?
      modifies this`received, this`replies, this`status, this`replyTo, this`reader
      ensures BooksOk() && RoutesOk() && LateOk() && LookedUp(old(Routing()), Routing())
      ensures Taken(message, routes, written, old(Books()), Books())
      ensures problem == if Malformed(message, routes) then Some(ProtocolViolation)
                         else if AtOnce(message, routes) && !written then Some(WriteFailed)
                         else None
      ensures if problem.None? then Prepared(message, routes, Some(to), reader) else reader.Idle?
      ensures routes == Noted(message, routes, Some(to))
    {
      hide LedgerValid, BoardValid, Newest, RequestsValid, Receiving, Replying,
           CodexClient.RequestsOk, CodexClient.LateOk;
      to := 0;
      var id, thread := message.request, message.thread;
      if message.what.OtherMethod? {
        problem := AnswerNow(id, Unsupported, written);
        return;
      }
      if thread.None? {
        Receive(id);
        problem := Some(ProtocolViolation);
        return;
      }
      if !Routed(routes, thread.value) {
        problem := AnswerNow(id, Decided(Decline), written);
        return;
      }
      var o :| o in routes && routes[o].thread == thread.value;
      to := o;
      Receive(id);
      if message.what.ToolCallMethod? && (message.call.None? || message.name.None?) {
        problem := Some(ProtocolViolation);
        return;
      }
      LookUp(Routing(), o, Entering(message.what, thread.value, OrZero(message.call), OrZero(message.name),
                                    routes[o].channel));
      reader := Entering(message.what, thread.value, OrZero(message.call), OrZero(message.name), routes[o].channel);
      problem := None;
    }

    /** The reading task looks at a notification: it is for no run, or its events are to be sent to a run
        of its thread. */
    method HandleNotification(note: Notification, thread: Option<Thread>) returns (ghost to: Option<Operation>)
      requires Valid() && reader.Idle?
      modifies this`routes, this`reader
      ensures BooksOk() && RoutesOk() && LookedUp(old(Routing()), Routing())
      ensures Prepared(Notify(note, thread), old(routes), to, reader)
      ensures routes == Noted(Notify(note, thread), old(routes), to)
    {
      hide LedgerValid, BoardValid, Newest;
      to := None;
      if thread.None? || !Routed(routes, thread.value) {
        return;
      }
      var o :| o in routes && routes[o].thread == thread.value;
      to := Some(o);
      if note.ErrorNote? {
        NoteOne(Routing(), o, note.problem);
        routes := routes[o := routes[o].(lastError := Some(note.problem))];
        return;
      }
      NoteEvents(note, routes[o].lastError);
      var next := NextReader(routes[o].channel, NotificationEvents(note, routes[o].lastError),
                             ClosingOf(note, o, thread.value));
      LookUp(Routing(), o, next);
      reader := next;
    }

    /** One message of the server. A message that cannot be handled ends the client. */
    method Dispatch(message: Message, written: bool) returns (problem: Option<Problem>, ghost to: Option<Operation>)
      requires Valid() && reader.Idle?
      modifies this`pending, this`delivered, this`responses, this`answeredAt, this`received, this`replies, this`status,
               this`replyTo, this`routes, this`reader, this`alive, this`failing, this`cause
      ensures Valid()
      ensures problem == if Malformed(message, old(routes)) then Some(ProtocolViolation)
                         else if AtOnce(message, old(routes)) && !written then Some(WriteFailed)
                         else None
      ensures if problem.Some? then !alive && reader.Stopped? else alive == old(alive)
      ensures problem.None? ==> LookedUp(old(Routing()), Routing())
      ensures problem.None? ==> Prepared(message, old(routes), to, reader)
      ensures routes == Noted(message, old(routes), to)
      ensures message.Reply? && message.id.Some? ==>
                delivered == if message.id.value in old(pending)
                             then old(delivered)[message.id.value := Answered(message.answer)]
                             else old(delivered)
      ensures if message.Ask? then Taken(message, old(routes), written, old(Books()), Books())
              else Books() == old(Books())
    {
      hide RequestsValid, LedgerValid, BoardValid, Newest, NoneOf, LookedUp, Prepared, Noted, AtOnce, Malformed, Taken,
           CodexClient.RequestsOk, CodexClient.BooksOk, CodexClient.RoutesOk, CodexClient.LateOk, CodexClient.Books;
      problem, to := LookAt(message, written);
      if problem.Some? {
        StopReader(problem.value);
      }
    }

    /** A message is looked at; nothing is sent for it yet. */
    method LookAt(message: Message, written: bool) returns (problem: Option<Problem>, ghost to: Option<Operation>)
      requires Valid() && reader.Idle?
      modifies this`pending, this`delivered, this`responses, this`answeredAt, this`received, this`replies, this`status,
               this`replyTo, this`routes, this`reader
      ensures RequestsOk() && BooksOk() && RoutesOk() && LateOk() && LookedUp(old(Routing()), Routing())
      ensures problem == if Malformed(message, old(routes)) then Some(ProtocolViolation)
                         else if AtOnce(message, old(routes)) && !written then Some(WriteFailed)
                         else None
      ensures if problem.Some? then reader.Idle? else Prepared(message, old(routes), to, reader)
      ensures routes == Noted(message, old(routes), to)
      ensures message.Reply? && message.id.Some? ==>
                delivered == if message.id.value in old(pending)
                             then old(delivered)[message.id.value := Answered(message.answer)]
                             else old(delivered)
      ensures if message.Ask? then Taken(message, old(routes), written, old(Books()), Books())
              else Books() == old(Books())
    {
      hide RequestsValid, LedgerValid, BoardValid, Newest, NoneOf, LookedUp, Prepared, Noted, AtOnce, Malformed, Taken,
           CodexClient.RequestsOk, CodexClient.BooksOk, CodexClient.RoutesOk, CodexClient.LateOk, CodexClient.Books;
      if message.Ask? || message.Notify? {
        problem, to := Examine(message, written);
      } else {
        problem := HandleReply(message);
        to := None;
      }
    }

    /** A response, or a message that is nothing. */
    method HandleReply(message: Message) returns (problem: Option<Problem>)
      requires Valid() && reader.Idle? && !message.Ask? && !message.Notify?
      modifies this`pending, this`delivered, this`responses, this`answeredAt
      ensures RequestsOk() && BooksOk() && RoutesOk() && LateOk() && LookedUp(Routing(), Routing())
      ensures problem == if Malformed(message, routes) then Some(ProtocolViolation) else None
      ensures !AtOnce(message, routes) && Prepared(message, routes, None, reader)
      ensures Noted(message, routes, None) == routes
      ensures message.Reply? && message.id.Some? ==>
                delivered == if message.id.value in old(pending)
                             then old(delivered)[message.id.value := Answered(message.answer)]
                             else old(delivered)
    {
      NothingLookedUp(Routing());
      NothingPrepared(message, routes, reader);
      hide RequestsValid, LedgerValid, BoardValid, Newest, NoneOf, LookedUp, Prepared, Noted, AtOnce, Malformed,
           CodexClient.RequestsOk, CodexClient.BooksOk, CodexClient.RoutesOk, CodexClient.LateOk, CodexClient.Books;
      if message.Nameless? || message.id.None? {
        return Some(ProtocolViolation);
      }
      Respond(message.id.value, message.answer);
      return None;
    }

    /** A request or a notification, and what the reading task has to do next for it. */
    method Examine(message: Message, written: bool) returns (problem: Option<Problem>, ghost to: Option<Operation>)
      requires Valid() && reader.Idle? && (message.Ask? || message.Notify?)
      modifies this`received, this`replies, this`status, this`replyTo, this`routes, this`reader
      ensures BooksOk() && RoutesOk() && LateOk() && LookedUp(old(Routing()), Routing())
      ensures problem == if Malformed(message, old(routes)) then Some(ProtocolViolation)
                         else if AtOnce(message, old(routes)) && !written then Some(WriteFailed)
                         else None
      ensures if problem.Some? then reader.Idle? else Prepared(message, old(routes), to, reader)
      ensures routes == Noted(message, old(routes), to)
      ensures if message.Ask? then Taken(message, old(routes), written, old(Books()), Books())
              else Books() == old(Books())
    {
      NothingPrepared(message, routes, reader);
      hide *;
      if message.Ask? {
        ghost var o;
        problem, o := HandleServerRequest(message, written);
        to := Some(o);
      } else {
        problem := None;
        to := HandleNotification(message.note, message.thread);
      }
    }

    /** The reading task ends, and with it the client. */
    method StopReader(problem: Problem)
      requires BooksOk() && RoutesOk() && LateOk() && (reader.Idle? || reader.Sending?) && (alive <==> failing == 0)
      requires reader.Sending? ==> !channels[reader.channel].open
      modifies this`reader, this`alive, this`failing, this`cause
      ensures BooksOk() && RoutesOk() && LateOk() && !alive && failing != 0 && reader.Stopped?
      ensures if old(alive) then failing == 1 && cause == problem else failing == old(failing) && cause == old(cause)
      ensures Books() == old(Books())
    {
      hide LedgerValid, BoardValid, Newest, NoneOf;
      ReaderStops(Routing());
      reader := Stopped;
      BeginFailAll(problem);
    }

    /** The next step of the reading task on the message it handles. An event for a receiver that is gone
        ends the client. When a turn has ended and this was the last step, nothing of its thread waits
        for a decision or a result. */
    method MoveReader() returns (problem: Option<Problem>)
      requires Valid()
      modifies this
      ensures Valid() && stages == old(stages) && received == old(received) && replies == old(replies)
      ensures problem.Some? <==> old(reader).Sending? && !old(channels)[old(reader).channel].open
      ensures if problem.Some? then problem == Some(ReceiverClosed) && !alive && reader.Stopped?
              else alive == old(alive)
      ensures problem.Some? ==> routes == old(routes) && channels == old(channels) && toFail == old(toFail)
      ensures if problem.Some? && old(alive) then failing == 1 && cause == ReceiverClosed
              else failing == old(failing) && cause == old(cause)
      ensures ChannelsGrow(old(channels), channels)
      ensures problem.None? ==> ReaderMoved(old(Routing()), Routing())
      ensures match old(reader)
              case Entering(what, thread, call, name, i) =>
                && reader == Sending(i, [if what.ToolCallMethod? then ToolCall(call, name)
                                         else ApprovalRequired(old(nextApproval))], Nothing)
                && Books() == if what.ToolCallMethod? then EnteringTool(old(Books()), thread, call)
                              else EnteringApproval(old(Books()), thread)
              case Sending(_, _, _) => problem.None? ==> Routing() == ReaderSent(old(Routing()))
              case Removing(_, o, thread) =>
                routes == old(routes) - {o} && reader == DroppingApprovals(Some(thread), None)
              case DroppingApprovals(thread, request) =>
                approvals == Others(old(approvals), thread, request) && reader == DroppingCalls(thread, request)
              case DroppingCalls(thread, request) =>
                && toolCalls == Others(old(toolCalls), thread, request) && reader.Idle?
                && NoneOf(approvals, thread) && NoneOf(toolCalls, thread)
              case _ => reader == old(reader)
      // The entries: a new one for the request entered; of an ended turn or a resolved request an entry
      // goes exactly when it is of that thread, or of that request.
      ensures old(reader).Entering? ==>
                var entry := Unanswered(received[|received| - 1], old(reader).thread, |received| - 1);
                if old(reader).what.ToolCallMethod? then
                  toolCalls == old(toolCalls)[old(reader).call := entry] && approvals == old(approvals)
                else
                  approvals == old(approvals)[old(nextApproval) := entry] && toolCalls == old(toolCalls)
      ensures old(reader).DroppingApprovals? ==>
                && toolCalls == old(toolCalls)
                && (forall a | a in approvals :: a in old(approvals) && approvals[a] == old(approvals)[a])
                && forall a :: a in approvals <==>
                     && a in old(approvals)
                     && (old(reader).threads.None? || old(approvals)[a].thread != old(reader).threads.value)
                     && (old(reader).request.None? || old(approvals)[a].id != old(reader).request.value)
      ensures old(reader).DroppingCalls? ==>
                && approvals == old(approvals)
                && (forall c | c in toolCalls :: c in old(toolCalls) && toolCalls[c] == old(toolCalls)[c])
                && forall c :: c in toolCalls <==>
                     && c in old(toolCalls)
                     && (old(reader).threads.None? || old(toolCalls)[c].thread != old(reader).threads.value)
                     && (old(reader).request.None? || old(toolCalls)[c].id != old(reader).request.value)
      ensures !old(reader).Entering? && !old(reader).DroppingApprovals? && !old(reader).DroppingCalls? ==>
                approvals == old(approvals) && toolCalls == old(toolCalls)
    {
      Unmoved(this);
      Resting(Routing());
      hide RequestsValid, LedgerValid, BoardValid, Newest, NextReader, NoTerminal, Proper, ReaderSent, NoneOf, Others,
           ReaderMoved, ChannelsGrow, EnteringTool, EnteringApproval,
           CodexClient.RequestsOk, CodexClient.BooksOk, CodexClient.RoutesOk, CodexClient.LateOk;
      problem := None;
      if reader.Entering? {
        EnterRequest();
      } else if reader.Sending? {
        problem := SendIt();
      } else if reader.Removing? || reader.DroppingApprovals? || reader.DroppingCalls? {
        TidyUp();
      }
    }

    /** The request looked up before gets its entry, and is to be announced. */
    method EnterRequest()
      requires BooksOk() && RoutesOk() && LateOk() && reader.Entering?
      modifies this`toolCalls, this`approvals, this`nextApproval, this`status, this`reader
      ensures BooksOk() && RoutesOk() && LateOk() && ReaderMoved(old(Routing()), Routing()) && received != []
      ensures var Entering(what, thread, call, name, i) := old(reader);
              var entry := Unanswered(received[|received| - 1], thread, |received| - 1);
              && Newest(old(Books()))
              && if what.ToolCallMethod? then
                   && reader == Sending(i, [ToolCall(call, name)], Nothing)
                   && Books() == EnteringTool(old(Books()), thread, call)
                   && toolCalls == old(toolCalls)[call := entry] && approvals == old(approvals)
                 else
                   && reader == Sending(i, [ApprovalRequired(old(nextApproval))], Nothing)
                   && Books() == EnteringApproval(old(Books()), thread)
                   && approvals == old(approvals)[old(nextApproval) := entry] && toolCalls == old(toolCalls)
    {
      hide *;
      if reader.what.ToolCallMethod? {
        EnterToolCall();
      } else {
        EnterApprovalRequest();
      }
    }

    /** An ended turn takes its route along; it and a resolved request take entries of both tables. */
    method TidyUp()
      requires BooksOk() && RoutesOk() && LateOk()
      requires reader.Removing? || reader.DroppingApprovals? || reader.DroppingCalls?
      modifies this`routes, this`approvals, this`toolCalls, this`reader
      ensures BooksOk() && RoutesOk() && LateOk() && ReaderMoved(old(Routing()), Routing())
      ensures old(reader).Removing? ==>
                && routes == old(routes) - {old(reader).o}
                && reader == DroppingApprovals(Some(old(reader).ofThread), None)
                && approvals == old(approvals) && toolCalls == old(toolCalls)
      ensures old(reader).DroppingApprovals? ==>
                && routes == old(routes) && reader == DroppingCalls(old(reader).threads, old(reader).request)
                && approvals == Others(old(approvals), old(reader).threads, old(reader).request)
                && toolCalls == old(toolCalls)
      ensures old(reader).DroppingCalls? ==>
                && routes == old(routes) && reader.Idle?
                && toolCalls == Others(old(toolCalls), old(reader).threads, old(reader).request)
                && approvals == old(approvals)
                && NoneOf(approvals, old(reader).threads) && NoneOf(toolCalls, old(reader).threads)
    {
      hide *;
      if reader.Removing? {
        RemoveEnded();
      } else if reader.DroppingApprovals? {
        DropApprovals();
      } else {
        DropCalls();
      }
    }

    /** The tool call looked up before gets its entry, in place of an older one of the same identifier. */
    method EnterToolCall()
      requires BooksOk() && RoutesOk() && LateOk() && reader.Entering?
      modifies this`toolCalls, this`status, this`reader
      ensures BooksOk() && RoutesOk() && LateOk()
      ensures var Entering(_, thread, call, name, i) := old(reader);
              && reader == Sending(i, [ToolCall(call, name)], Nothing)
              && Newest(old(Books())) && Books() == EnteringTool(old(Books()), thread, call) && received != []
              && toolCalls == old(toolCalls)[call := Unanswered(received[|received| - 1], thread, |received| - 1)]
      ensures ReaderMoved(old(Routing()), Routing())
    {
      var Entering(_, thread, call, name, i) := reader;
      EnteredNext(Routing(), ToolCall(call, name));
      hide LedgerValid, BoardValid, Newest, EnteringTool;
      reader := Sending(i, [ToolCall(call, name)], Nothing);
      AddCall(thread, call);
    }

    method AddCall(thread: Thread, call: CallId)
      requires BooksOk() && LateOk() && reader.Sending? && Newest(Books())
      modifies this`toolCalls, this`status
      ensures BooksOk() && LateOk()
      ensures Newest(old(Books())) && Books() == EnteringTool(old(Books()), thread, call) && received != []
      ensures toolCalls == old(toolCalls)[call := Unanswered(received[|received| - 1], thread, |received| - 1)]
    {
      ghost var after := EnteringTool(Books(), thread, call);
      EnterTool(Books(), thread, call);
      EnteringToolIs(Books(), thread, call);
      hide LedgerValid, Newest, EnteringTool, NoneOf;
      var entry := Unanswered(received[|received| - 1], thread, |received| - 1);
      status := status[|status| - 1 := WithTool(call)];
      toolCalls := toolCalls[call := entry];
      assert Books() == after;
      hide CodexClient.Books;
    }

    /** The approval looked up before gets its entry. */
    method EnterApprovalRequest()
      requires BooksOk() && RoutesOk() && LateOk() && reader.Entering?
      modifies this`approvals, this`nextApproval, this`status, this`reader
      ensures BooksOk() && RoutesOk() && LateOk()
      ensures var Entering(_, thread, _, _, i) := old(reader);
              && reader == Sending(i, [ApprovalRequired(old(nextApproval))], Nothing)
              && Newest(old(Books())) && Books() == EnteringApproval(old(Books()), thread) && received != []
              && approvals
                 == old(approvals)[old(nextApproval) := Unanswered(received[|received| - 1], thread, |received| - 1)]
      ensures ReaderMoved(old(Routing()), Routing())
    {
      var Entering(_, thread, _, _, i) := reader;
      EnteredNext(Routing(), ApprovalRequired(nextApproval));
      hide LedgerValid, BoardValid, Newest, EnteringApproval;
      reader := Sending(i, [ApprovalRequired(nextApproval)], Nothing);
      AddEntry(thread);
    }

    method AddEntry(thread: Thread)
      requires BooksOk() && LateOk() && reader.Sending? && Newest(Books())
      modifies this`approvals, this`nextApproval, this`status
      ensures BooksOk() && LateOk()
      ensures Newest(old(Books())) && Books() == EnteringApproval(old(Books()), thread) && received != []
      ensures approvals
              == old(approvals)[old(nextApproval) := Unanswered(received[|received| - 1], thread, |received| - 1)]
    {
      ghost var after := EnteringApproval(Books(), thread);
      EnterApproval(Books(), thread);
      EnteringIs(Books(), thread);
      hide LedgerValid, Newest, EnteringApproval, NoneOf;
      var entry := Unanswered(received[|received| - 1], thread, |received| - 1);
      status := status[|status| - 1 := WithApproval(nextApproval)];
      approvals := approvals[nextApproval := entry];
      nextApproval := nextApproval + 1;
      assert Books() == after;
      hide CodexClient.Books;
    }

    /** The route of a turn that has ended goes. */
    method RemoveEnded()
      requires BooksOk() && RoutesOk() && reader.Removing?
      modifies this`routes, this`reader
      ensures BooksOk() && RoutesOk()
      ensures routes == old(routes) - {old(reader).o} && reader == DroppingApprovals(Some(old(reader).ofThread), None)
      ensures ReaderMoved(old(Routing()), Routing())
    {
      ReaderLeaves(Routing(), DroppingApprovals(Some(reader.ofThread), None));
      hide LedgerValid, BoardValid, Newest;
      routes := routes - {reader.o};
      reader := DroppingApprovals(Some(reader.ofThread), None);
    }

    method DropApprovals()
      requires BooksOk() && RoutesOk() && LateOk() && reader.DroppingApprovals?
      modifies this`approvals, this`reader
      ensures BooksOk() && RoutesOk() && LateOk()
      ensures approvals == Others(old(approvals), old(reader).threads, old(reader).request)
      ensures reader == DroppingCalls(old(reader).threads, old(reader).request)
      ensures ReaderMoved(old(Routing()), Routing())
    {
      var DroppingApprovals(thread, request) := reader;
      FewerEntries(Books(), Others(approvals, thread, request), toolCalls);
      ReaderLeaves(Routing(), DroppingCalls(thread, request));
      hide LedgerValid, BoardValid, Newest, Others;
      approvals := Others(approvals, thread, request);
      reader := DroppingCalls(thread, request);
    }

    method DropCalls()
      requires BooksOk() && RoutesOk() && LateOk() && reader.DroppingCalls?
      modifies this`toolCalls, this`reader
      ensures BooksOk() && RoutesOk() && LateOk() && reader.Idle?
      ensures toolCalls == Others(old(toolCalls), old(reader).threads, old(reader).request)
      ensures NoneOf(approvals, old(reader).threads) && NoneOf(toolCalls, old(reader).threads)
      ensures ReaderMoved(old(Routing()), Routing())
    {
      var DroppingCalls(thread, request) := reader;
      FewerEntries(Books(), approvals, Others(toolCalls, thread, request));
      ReaderLeaves(Routing(), Idle);
      hide LedgerValid, BoardValid, Newest, Others;
      toolCalls := Others(toolCalls, thread, request);
      reader := Idle;
    }

    /** The next event is sent, unless the receiver is gone. */
    method SendIt() returns (problem: Option<Problem>)
      requires BooksOk() && RoutesOk() && LateOk() && reader.Sending? && (alive <==> failing == 0)
      modifies this`channels, this`reader, this`contested, this`alive, this`failing, this`cause
      ensures BooksOk() && RoutesOk() && LateOk() && (alive <==> failing == 0)
      ensures ReaderValid(old(Routing()))
      ensures problem == if old(channels)[old(reader).channel].open then None else Some(ReceiverClosed)
      ensures if problem.Some? && old(alive) then failing == 1 && cause == ReceiverClosed
              else failing == old(failing) && cause == old(cause)
      ensures if problem.Some? then
                !alive && reader.Stopped? && channels == old(channels) && contested == old(contested)
              else
                && alive == old(alive) && Routing() == ReaderSent(old(Routing()))
                && ReaderMoved(old(Routing()), Routing())
      ensures ChannelsGrow(old(channels), channels)
    {
      SendNext(Routing());
      hide LedgerValid, BoardValid, Newest, NoneOf, CodexClient.BooksOk, CodexClient.RoutesOk;
      if !channels[reader.channel].open {
        StopReader(ReceiverClosed);
        return Some(ReceiverClosed);
      }
      SendOpen();
      return None;
    }

    method SendOpen()
      requires BooksOk() && RoutesOk() && reader.Sending? && ReaderValid(Routing()) && channels[reader.channel].open
      modifies this`channels, this`reader, this`contested
      ensures BooksOk() && RoutesOk()
      ensures ReaderValid(old(Routing())) && Routing() == ReaderSent(old(Routing()))
      ensures ChannelsGrow(old(channels), channels)
    {
      var Sending(i, rest, closing) := reader;
      SendNext(Routing());
      hide LedgerValid, BoardValid, Newest, NextReader, NoTerminal, Proper;
      NextIs(i, rest[1..], closing);
      ghost var after := ReaderSent(Routing());
      assert after.channels == channels[i := SendOn(channels[i], rest[0])];
      assert after == Routing().(channels := after.channels, reader := NextReader(i, rest[1..], closing),
                                 contested := after.contested);
      hide ReaderSent, SendOn, IsTerminal, CodexClient.Books;
      contested := after.contested;
      channels := channels[i := SendOn(channels[i], rest[0])];
      reader := NextReader(i, rest[1..], closing);
    }

    // -------------------------------------------------------------------------------------
    // The failure of the client
    // -------------------------------------------------------------------------------------

    /** The first report that the server is gone starts the failure; later ones do nothing. */
    method BeginFailAll(problem: Problem)
      requires RoutesOk() && LateOk() && (alive <==> failing == 0)
      modifies this`alive, this`failing, this`cause
      ensures RoutesOk() && LateOk() && !alive && failing != 0
      ensures if old(alive) then failing == 1 && cause == problem else failing == old(failing) && cause == old(cause)
    {
      if alive {
        alive := false;
        failing := 1;
        cause := problem;
      }
    }

    /** The next step of the failure: the requests, the routes, one run after the other, the approvals,
        the tool calls. */
    method MoveFailure() returns (told: nat)
      requires Valid()
      modifies this`failing, this`pending, this`delivered, this`known, this`routes, this`channels, this`toFail,
               this`contested, this`drained, this`approvals, this`toolCalls, this`approvalsFrom, this`callsFrom
      ensures Valid() && ChannelsGrow(old(channels), channels)
      ensures old(failing) == 1 ==> pending == {} && known == set id | id in stages && !stages[id].Numbered?
      ensures old(failing) == 1 ==> failing == 2 && Routing() == old(Routing())
      ensures old(failing) == 2 ==> Routing() == Drained(old(Routing())) && failing == 3
      ensures old(failing) == 3 && old(toFail) != {} ==>
                && told in old(toFail) && told < |old(channels)| && failing == 3
                && Routing() == Failing(old(Routing()), told, cause)
      ensures old(failing) == 3 && old(toFail) == {} ==> failing == 4 && Routing() == old(Routing())
      ensures old(failing) == 4 ==> approvals == map[] && failing == 5
      ensures old(failing) == 5 ==> toolCalls == map[] && failing == 6
      ensures old(failing) == 0 || old(failing) > 5 ==>
              failing == old(failing) && Routing() == old(Routing()) && Books() == old(Books())
      ensures old(failing) == 0 ==> approvals == old(approvals) && toolCalls == old(toolCalls)
    {
      hide RequestsValid, LedgerValid, BoardValid, Newest, NoTerminal, Proper, Drained, Failing,
           CodexClient.RequestsOk, CodexClient.BooksOk;
      told := 0;
      if failing == 1 {
        FailPending(cause);
        failing := 2;
      } else if failing == 2 {
        TakeRoutes();
      } else if failing == 3 {
        if toFail == {} {
          failing := 4;
        } else {
          told := TellOne();
        }
      } else if failing == 4 {
        ClearApprovals();
      } else if failing == 5 {
        ClearCalls();
      }
    }

    method TakeRoutes()
      requires RoutesOk() && failing == 2
      modifies this`routes, this`toFail, this`contested, this`drained, this`failing
      ensures RoutesOk() && Routing() == Drained(old(Routing())) && failing == 3
    {
      DrainAll(Routing());
      hide BoardValid;
      contested := Drained(Routing()).contested;
      drained := Drained(Routing()).drained;
      toFail := set o | o in routes :: routes[o].channel;
      routes := map[];
      failing := 3;
    }

    /** One of the runs taken over is told that it failed. */
    method TellOne() returns (told: nat)
      requires RoutesOk() && failing == 3 && toFail != {}
      modifies this`channels, this`toFail, this`contested
      ensures RoutesOk() && ChannelsGrow(old(channels), channels)
      ensures told in old(toFail) && told < |old(channels)| && Routing() == Failing(old(Routing()), told, cause)
    {
      told :| told in toFail;
      FailOne(Routing(), told, cause);
      hide BoardValid;
      contested := Failing(Routing(), told, cause).contested;
      channels := channels[told := SendOn(channels[told], Failed(cause))];
      toFail := toFail - {told};
    }

    method ClearApprovals()
      requires BooksOk() && LateOk() && RoutesOk() && failing == 4
      modifies this`approvals, this`approvalsFrom, this`failing
      ensures BooksOk() && LateOk() && RoutesOk() && approvals == map[] && failing == 5
    {
      FewerEntries(Books(), map[], toolCalls);
      hide LedgerValid, BoardValid, Newest;
      approvalsFrom := nextApproval;
      approvals := map[];
      failing := 5;
    }

    method ClearCalls()
      requires BooksOk() && LateOk() && RoutesOk() && failing == 5
      modifies this`toolCalls, this`callsFrom, this`failing
      ensures BooksOk() && LateOk() && RoutesOk() && toolCalls == map[] && failing == 6
    {
      FewerEntries(Books(), approvals, map[]);
      hide LedgerValid, BoardValid, Newest;
      callsFrom := |received|;
      toolCalls := map[];
      failing := 6;
    }

    // -------------------------------------------------------------------------------------
    // Runs
    // -------------------------------------------------------------------------------------

    /** A step of the callers. */
    method StepRequest(moment: Moment)
      requires RequestsOk()
      modifies this`nextId, this`stages, this`pending
      ensures RequestsOk() && Settled(old(stages), stages)
    {
      hide RequestsValid;
      match moment {
        case Call =>
          var _ := Begin();
        case EnterTable(id) =>
          if id in stages && stages[id].Numbered? {
            Enter(id);
          }
        case WriteRequest(id, ok) =>
          if id in stages && stages[id].Entered? {
            Written(id, ok);
          }
        case GiveUp(id) =>
          if id in stages && (stages[id].Unwritten? || stages[id].Expired?) {
            Leave(id);
          }
        case ReturnOutcome(id) =>
          if id in stages && stages[id].Waiting? {
            var _ := Return(id);
          }
        case TimeRunsOut(id) =>
          if id in stages && stages[id].Waiting? {
            var _ := Expire(id);
          }
        case _ =>
      }
    }

    /** A step on the routes by whoever starts or ends a run. */
    method StepRoute(moment: Moment)
      requires RoutesOk()
      modifies this`routes, this`channels, this`announcing
      ensures RoutesOk() && ChannelsGrow(old(channels), channels)
      ensures Follows(old(Routing()), Routing(), Dropped(moment), Closed(moment))
    {
      Unmoved(this);
      FollowsItself(Routing(), Dropped(moment), Closed(moment));
      AllIndexed(this);
      hide Follows, Indexed, BoardValid, Inserted, Announced, ChannelsGrow, CodexClient.RoutesOk, CodexClient.Routing;
      match moment {
        case RouteRun(o, thread, open) =>
          InsertedFollows(Routing(), o, thread, open);
          var _ := InsertRoute(o, thread, open);
        case AnnounceRun(i) =>
          if i in announcing {
            AnnouncedFollows(Routing(), i);
            var _ := AnnounceRoute(i);
          }
        case DropRoute(o) =>
          RemovedFollows(Routing(), o);
          RemoveRoute(o);
        case DropReceiver(i) =>
          if i < |channels| {
            ClosedFollows(Routing(), i);
            CloseChannel(i);
          }
        case _ =>
      }
    }

    /** A step of whoever decides on approvals and runs tools. */
    method StepReply(moment: Moment)
      requires BooksOk() && LateOk()
      modifies this`approvals, this`toolCalls, this`owed, this`replies, this`status, this`replyTo
      ensures BooksOk() && LateOk() && old(replies) <= replies
      ensures approvals == old(approvals) - Decides(moment) && toolCalls == old(toolCalls) - Hands(moment)
    {
      hide LedgerValid, Newest;
      match moment {
        case Decide(a, decision) =>
          var _ := ResolveApproval(a, decision);
        case HandResult(c, success, content) =>
          var _ := ResolveToolCall(c, success, content);
        case SendReply(place, written) =>
          if place in owed {
            var _ := WriteReply(place, written);
          }
        case _ =>
      }
    }

    /** A step of the reading task or of the failure. */
    method StepServer(moment: Moment)
      requires Valid()
      modifies this
      ensures Valid() && stages == old(stages)
      ensures old(replies) <= replies && old(received) <= received && (alive ==> old(alive))
      ensures ChannelsGrow(old(channels), channels)
      ensures alive ==> Follows(old(Routing()), Routing(), {}, {})
      ensures moment.Incoming? || moment.ReaderMoves? || reader == old(reader)
      ensures alive && moment.FailureMoves? ==> approvals == old(approvals) && toolCalls == old(toolCalls)
    {
      ghost var before := Routing();
      Unmoved(this);
      FollowsItself(before, {}, {});
      hide *;
      Sound(this);
      match moment {
        case Incoming(message, written) =>
          if reader.Idle? {
            ghost var books, here := Books(), routes;
            InBooks(this);
            var problem, to := Dispatch(message, written);
            InBooks(this);
            if message.Ask? {
              TakenGrows(message, here, written, books, Books());
            }
            if problem.None? {
              LookedUpFollows(before, Routing());
            }
          }
        case ReaderMoves =>
          var problem := MoveReader();
          if problem.None? {
            ReaderMovedFollows(before, Routing());
          }
        case FailureMoves =>
          var _ := MoveFailure();
        case _ =>
      }
    }

    /** One step of any of the tasks; a step that its task cannot take does nothing. */
    method Step(moment: Moment)
      requires Valid()
      modifies this
      ensures Valid() && Settled(old(stages), stages)
      ensures old(replies) <= replies && old(received) <= received && (alive ==> old(alive))
      ensures ChannelsGrow(old(channels), channels)
      ensures alive ==> Follows(old(Routing()), Routing(), Dropped(moment), Closed(moment))
      ensures moment.Incoming? || moment.ReaderMoves? || reader == old(reader)
      // Of what waits for a decision or a result nothing goes but with its decision or its result.
      ensures alive && !moment.Incoming? && !moment.ReaderMoves? ==>
                approvals == old(approvals) - Decides(moment) && toolCalls == old(toolCalls) - Hands(moment)
    {
      Unmoved(this);
      NothingDropped(moment);
      hide *;
      if moment.Incoming? || moment.ReaderMoves? || moment.FailureMoves? {
        StepServer(moment);
      } else if moment.ServerExits? {
        Parts(this);
        BeginFailAll(moment.problem);
        Whole(this);
      } else {
        StepOutside(moment);
      }
    }

    /** A step of anyone else. */
    method StepOutside(moment: Moment)
      requires Valid()
      modifies this`nextId, this`stages, this`pending, this`routes, this`channels, this`announcing, this`approvals,
               this`toolCalls, this`owed, this`replies, this`status, this`replyTo
      ensures Valid() && Settled(old(stages), stages)
      ensures old(replies) <= replies && ChannelsGrow(old(channels), channels)
      ensures Follows(old(Routing()), Routing(), Dropped(moment), Closed(moment))
      ensures approvals == old(approvals) - Decides(moment) && toolCalls == old(toolCalls) - Hands(moment)
    {
      hide *;
      Parts(this);
      StepRequest(moment);
      StepRoute(moment);
      StepReply(moment);
      Whole(this);
    }

    /** Any interleaving of steps. */
    method Run(script: seq<Moment>)
      requires Valid()
      modifies this
      ensures Valid() && Settled(old(stages), stages)
      ensures old(replies) <= replies && old(received) <= received && (alive ==> old(alive))
      ensures ChannelsGrow(old(channels), channels)
      ensures alive ==> Follows(old(Routing()), Routing(), DroppedIn(script), ClosedIn(script))
      ensures Quiet(script) ==> reader == old(reader)
      ensures Quiet(script) && alive ==>
                approvals == old(approvals) - DecidedIn(script) && toolCalls == old(toolCalls) - HandedIn(script)
    {
      ghost var before := Routing();
      FollowsItself(before, {}, {});
      NoneDecided(approvals, toolCalls);
      hide RequestsValid, LedgerValid, BoardValid, Follows, CodexClient.Valid, CodexClient.Routing, DecidedIn, HandedIn;
      for i := 0 to |script|
        invariant Valid() && Settled(old(stages), stages)
        invariant old(replies) <= replies && old(received) <= received && (alive ==> old(alive))
        invariant ChannelsGrow(old(channels), channels)
        invariant alive ==> Follows(before, Routing(), DroppedIn(script[..i]), ClosedIn(script[..i]))
        invariant Quiet(script) ==> reader == old(reader)
        invariant Quiet(script) && alive ==>
                    && approvals == old(approvals) - DecidedIn(script[..i])
                    && toolCalls == old(toolCalls) - HandedIn(script[..i])
      {
        DecidedOneMore(old(approvals), old(toolCalls), script, i);
        ghost var here := Routing();
        Step(script[i]);
        if alive {
          FollowsOn(before, here, Routing(), DroppedIn(script[..i]), ClosedIn(script[..i]),
                    Dropped(script[i]), Closed(script[i]));
          assert script[..i + 1][..i] == script[..i];
        }
      }
      assert script[..|script|] == script;
    }
  }

  lemma Parts(client: CodexClient)
    requires client.Valid()
    ensures client.RequestsOk() && client.BooksOk() && client.RoutesOk() && client.LateOk()
    ensures client.alive <==> client.failing == 0
  {
  }

  lemma Whole(client: CodexClient)
    requires client.RequestsOk() && client.BooksOk() && client.RoutesOk() && client.LateOk()
    requires client.alive <==> client.failing == 0
    ensures client.Valid()
  {
  }

  lemma NoneDecided(approvals: map<nat, Unanswered>, toolCalls: map<CallId, Unanswered>)
    ensures approvals - DecidedIn([]) == approvals && toolCalls - HandedIn([]) == toolCalls
  {
  }

  lemma DecidedOneMore(approvals: map<nat, Unanswered>, toolCalls: map<CallId, Unanswered>, script: seq<Moment>,
                       i: nat)
    requires i < |script|
    ensures approvals - DecidedIn(script[..i + 1]) == approvals - DecidedIn(script[..i]) - Decides(script[i])
    ensures toolCalls - HandedIn(script[..i + 1]) == toolCalls - HandedIn(script[..i]) - Hands(script[i])
    ensures Quiet(script) ==> !script[i].Incoming? && !script[i].ReaderMoves?
  {
    DecidedSplits(script, i);
  }

  lemma DecidedSplits(script: seq<Moment>, i: nat)
    requires i < |script|
    ensures DecidedIn(script[..i + 1]) == DecidedIn(script[..i]) + Decides(script[i])
    ensures HandedIn(script[..i + 1]) == HandedIn(script[..i]) + Hands(script[i])
  {
    var less, more := script[..i], script[..i + 1];
    assert more[i] == script[i] && forall k | 0 <= k < i :: more[k] == less[k];
  }

  /** A reading task that has nothing to do stays where it is. */
  lemma Resting(b: Board)
    ensures b.reader.Idle? || b.reader.Stopped? ==> ReaderMoved(b, b)
  {
  }

  lemma NothingDropped(moment: Moment)
    ensures moment.DropRoute? || Dropped(moment) == {}
    ensures moment.DropReceiver? || Closed(moment) == {}
    ensures (moment.Decide? || Decides(moment) == {}) && (moment.HandResult? || Hands(moment) == {})
  {
  }

  /** A living client has not begun to fail, and its routes are in order. */
  lemma Sound(client: CodexClient)
    requires client.Valid()
    ensures BoardValid(client.Routing()) && (client.alive ==> client.failing == 0)
  {
  }

  lemma InBooks(client: CodexClient)
    ensures client.Books().received == client.received && client.Books().status == client.status
    ensures client.Books().replies == client.replies
  {
  }

  lemma AllIndexed(client: CodexClient)
    requires client.RoutesOk()
    ensures Indexed(client.Routing()) && forall i | i in client.announcing :: i < |client.channels|
  {
  }

  lemma Unmoved(client: CodexClient)
    ensures Settled(client.stages, client.stages) && ChannelsGrow(client.channels, client.channels)
  {
  }

  function OrZero(x: Option<nat>): nat {
    match x case Some(n) => n case None => 0
  }

  lemma NoteEvents(note: Notification, lastError: Option<Problem>)
    ensures NotificationEvents(note, lastError) != [] && !note.TurnEnded? ==>
            NoTerminal(NotificationEvents(note, lastError))
  {
  }

  lemma NextIs(channel: nat, rest: seq<ProviderEvent>, closing: Closing)
    ensures var next := NextReader(channel, rest, closing); !next.Entering? && !next.DroppingCalls?
  {
  }

  // ---------------------------------------------------------------------------------------
  // What holds at any time
  // ---------------------------------------------------------------------------------------

  /** From one moment to a later one: who has an outcome keeps it, what was sent stays sent and in its place,
      and a receiver that is gone does not come back. */
  lemma WhatStays(before: map<nat, Stage>, after: map<nat, Stage>, channels: seq<Channel>, later: seq<Channel>,
                  id: nat, i: nat)
    requires Settled(before, after) && ChannelsGrow(channels, later)
    ensures id in before ==> id in after && (before[id].Finished? ==> after[id] == before[id])
    ensures i < |channels| ==>
              && i < |later| && channels[i].events <= later[i].events
              && (!channels[i].open ==> !later[i].open)
  {
  }

  /** An answer returned to a caller is one the server sent for that caller's number; the number is
      no longer in the table. */
  lemma OutcomeIsOwn(client: CodexClient, id: nat)
    requires client.Valid() && id in client.stages && client.stages[id].Finished?
    ensures id !in client.pending
    ensures client.stages[id].outcome.Answered? ==> Response(id, client.stages[id].outcome.answer) in client.responses
  {
    if client.stages[id].outcome.Answered? {
      assert client.responses[client.answeredAt[id]] in client.responses;
    }
  }

  /** A waiting caller's channel is never closed without an outcome: its number is in the table, or
      the outcome has been delivered, and not both. */
  lemma WaitingIsServed(client: CodexClient, id: nat)
    requires client.Valid() && id in client.stages && client.stages[id].Waiting?
    ensures id in client.pending <==> id !in client.delivered
  {
  }

  /** Each request of the server gets at most one reply, under its own identifier. */
  lemma OneReplyEach(client: CodexClient, i: nat, j: nat)
    requires client.Valid() && i < j < |client.replies|
    ensures client.replyTo[i] != client.replyTo[j]
    ensures client.replyTo[i] < |client.received| && client.replies[i].id == client.received[client.replyTo[i]]
  {
    var l := client.Books();
    assert l.status[l.replyTo[i]] == Replied(i) && l.status[l.replyTo[j]] == Replied(j);
  }

  /** A request that waits for a decision or for a result has had no reply, none is owed to it, and it has
      one entry only. */
  lemma WaitingHasNoReply(client: CodexClient, a: nat, c: CallId, i: nat)
    requires client.Valid() && i < |client.replies|
    ensures a in client.approvals ==>
              var place := client.approvals[a].place;
              && client.replyTo[i] != place && place !in client.owed
              && (forall b | b in client.approvals && b != a :: client.approvals[b].place != place)
              && (forall d | d in client.toolCalls :: client.toolCalls[d].place != place)
    ensures c in client.toolCalls ==>
              var place := client.toolCalls[c].place;
              && client.replyTo[i] != place && place !in client.owed
              && (forall d | d in client.toolCalls && d != c :: client.toolCalls[d].place != place)
              && (forall b | b in client.approvals :: client.approvals[b].place != place)
  {
    OneEntryEach(client.Books(), a, c);
    assert client.Books().status[client.Books().replyTo[i]] == Replied(i);
  }

  /** Requests with distinct identifiers: no identifier is replied to twice. */
  lemma DistinctRequests(client: CodexClient, i: nat, j: nat)
    requires client.Valid() && i < j < |client.replies|
    requires forall p, q | 0 <= p < q < |client.received| :: client.received[p] != client.received[q]
    ensures client.replies[i].id != client.replies[j].id
  {
    OneReplyEach(client, i, j);
    var p, q := client.replyTo[i], client.replyTo[j];
    assert client.replies[j].id == client.received[q] && q < |client.received|;
    assert if p < q then client.received[p] != client.received[q] else client.received[q] != client.received[p];
  }

  /** When nothing follows a terminal event on a run's channel: always on a channel that is not
      contested; and, once no task has anything left to send to a receiver that is there, only then. */
  lemma NothingAfterTheEnd(client: CodexClient, i: nat)
    requires client.Valid() && i < |client.channels|
    ensures i !in client.contested ==> Proper(client.channels[i].events)
    ensures client.channels[i].open && !ToSend(client.Routing(), i) ==>
              (Proper(client.channels[i].events) <==> i !in client.contested)
  {
    assert ChannelValid(client.Routing(), i);
  }

  /** What the failure of the client has achieved when its last step is over: every number that was
      entered before it is gone from the table, and its caller, if it still waits, has an outcome;
      every run it has taken over has its terminal event, unless its receiver is gone; and nothing
      waits for a decision or a result that was entered before its table was cleared. */
  lemma AfterFailure(client: CodexClient)
    requires client.Valid() && client.failing == 6
    ensures forall id | id in client.known ::
              && id in client.stages && id !in client.pending
              && (client.stages[id].Entered? || client.stages[id].Waiting? ==> id in client.delivered)
    ensures forall i | i in client.drained ::
              i < |client.channels| && (client.channels[i].open ==> !NoTerminal(client.channels[i].events))
    ensures forall a | a in client.approvals :: client.approvalsFrom <= a
    ensures forall c | c in client.toolCalls :: client.callsFrom <= client.toolCalls[c].place + 1
    ensures !client.alive
  {
    forall i | i in client.drained
      ensures i < |client.channels| && (client.channels[i].open ==> !NoTerminal(client.channels[i].events))
    {
      assert ChannelValid(client.Routing(), i);
    }
  }

  // ---------------------------------------------------------------------------------------
  // Where the code does less
  // ---------------------------------------------------------------------------------------

  /** A run that is routed, failed with the client, and only then announced sees an event after its
      terminal one. */
  method AnnouncedTooLate(o: Operation, thread: Thread, problem: Problem) returns (client: CodexClient)
    ensures fresh(client) && client.Valid()
    ensures |client.channels| == 1 && client.channels[0].events == [Failed(problem), ConversationStarted(thread)]
    ensures 0 in client.contested && !Proper(client.channels[0].events)
  {
    hide CodexClient.RequestsOk, CodexClient.BooksOk, CodexClient.LateOk, CodexClient.RoutesOk, Proper;
    client := new CodexClient();
    var _ := client.InsertRoute(o, thread, true);
    assert client.channels == [Channel(true, [])] && client.announcing == map[0 := Registration(o, thread)];
    FailBeforeAnnouncing(client, o, thread, problem);
    var _ := client.AnnounceRoute(0);
    assert client.channels[0].events == [Failed(problem)] + [ConversationStarted(thread)];
    LateIsImproper(problem, thread);
  }

  /** The only run, not announced yet, is failed with the client. */
  method FailBeforeAnnouncing(client: CodexClient, o: Operation, thread: Thread, problem: Problem)
    requires client.Valid() && client.alive && client.routes == map[o := Route(thread, 0, None)]
    requires client.channels == [Channel(true, [])] && client.announcing == map[0 := Registration(o, thread)]
    modifies client
    ensures client.Valid() && client.announcing == map[0 := Registration(o, thread)] && 0 in client.contested
    ensures |client.channels| == 1 && client.channels[0].open && client.channels[0].events == [Failed(problem)]
  {
    hide CodexClient.RequestsOk, CodexClient.BooksOk, CodexClient.LateOk, CodexClient.RoutesOk;
    client.BeginFailAll(problem);
    var told := client.MoveFailure();
    told := client.MoveFailure();
    assert o in old(client.routes) && old(client.routes)[o].channel == 0;
    assert client.toFail == {0};
    told := client.MoveFailure();
    assert told == 0 && client.channels[0].events == [] + [Failed(problem)];
  }

  lemma LateIsImproper(problem: Problem, thread: Thread)
    ensures !Proper([Failed(problem), ConversationStarted(thread)])
  {
    var events := [Failed(problem), ConversationStarted(thread)];
    assert events[..1] == [Failed(problem)] && Failed(problem) in events[..1];
  }

  /** A run whose turn has ended, and whose route is taken over by the failure of the client before the
      reading task removes it, is told twice that it is over. */
  method EndedTwice(o: Operation, thread: Thread, problem: Problem) returns (client: CodexClient)
    ensures fresh(client) && client.Valid() && |client.channels| == 1
    ensures client.channels[0].events == [ConversationStarted(thread), Completed, Failed(problem)]
    ensures 0 in client.contested && !Proper(client.channels[0].events)
  {
    hide CodexClient.RequestsOk, CodexClient.BooksOk, CodexClient.LateOk, CodexClient.RoutesOk, Proper;
    client := CompletedRun(o, thread);
    FailBeforeRemoval(client, o, problem);
    assert client.channels[0].events == [ConversationStarted(thread), Completed] + [Failed(problem)];
    TwiceIsImproper(problem, thread);
  }

  lemma TwiceIsImproper(problem: Problem, thread: Thread)
    ensures !Proper([ConversationStarted(thread), Completed, Failed(problem)])
  {
    var events := [ConversationStarted(thread), Completed, Failed(problem)];
    assert events[..2][1] == Completed && Completed in events[..2];
  }

  /** A run is routed and announced, and its turn completes; its route is still there. */
  method CompletedRun(o: Operation, thread: Thread) returns (client: CodexClient)
    ensures fresh(client) && client.Valid() && client.alive
    ensures client.routes == map[o := Route(thread, 0, None)] && client.reader == Removing(0, o, thread)
    ensures |client.channels| == 1 && client.channels[0].open
    ensures client.channels[0].events == [ConversationStarted(thread), Completed]
  {
    hide CodexClient.RequestsOk, CodexClient.BooksOk, CodexClient.LateOk, CodexClient.RoutesOk;
    client := new CodexClient();
    var _ := client.InsertRoute(o, thread, true);
    var _ := client.AnnounceRoute(0);
    assert client.channels[0].events == [] + [ConversationStarted(thread)];
    assert client.routes[o].thread == thread;
    var problem, to := client.Dispatch(Notify(TurnEnded(TurnCompleted), Some(thread)), true);
    assert to == Some(o) && client.reader == Sending(0, [Completed], ForTurn(o, thread));
    problem := client.MoveReader();
    assert client.channels[0].events == [ConversationStarted(thread)] + [Completed];
  }

  method FailBeforeRemoval(client: CodexClient, o: Operation, problem: Problem)
    requires client.Valid() && client.alive && client.reader.Removing? && client.reader.channel == 0
    requires client.routes.Keys == {o} && client.routes[o].channel == 0
    requires |client.channels| == 1 && client.channels[0].open
    modifies client
    ensures client.Valid() && 0 in client.contested && |client.channels| == 1
    ensures client.channels[0].events == old(client.channels[0].events) + [Failed(problem)]
  {
    hide CodexClient.RequestsOk, CodexClient.BooksOk, CodexClient.LateOk, CodexClient.RoutesOk;
    client.BeginFailAll(problem);
    var told := client.MoveFailure();
    told := client.MoveFailure();
    assert o in old(client.routes) && old(client.routes)[o].channel == 0;
    assert client.toFail == {0};
    told := client.MoveFailure();
  }

  /** A run is routed and announced. */
  method OneRun(client: CodexClient, o: Operation, thread: Thread)
    requires client.Valid() && client.alive && client.reader.Idle? && o !in client.routes
    modifies client
    ensures client.Valid() && client.alive && client.reader.Idle?
    ensures var n := |old(client.channels)|;
            && client.routes == old(client.routes)[o := Route(thread, n, None)]
            && |client.channels| == n + 1 && client.channels[..n] == old(client.channels) && client.channels[n].open
  {
    hide CodexClient.RequestsOk, CodexClient.BooksOk, CodexClient.LateOk, CodexClient.RoutesOk;
    ghost var n := |client.channels|;
    var _ := client.InsertRoute(o, thread, true);
    assert n in client.announcing && client.channels[n] == Channel(true, []);
    var _ := client.AnnounceRoute(|client.channels| - 1);
  }

  /** An event for a run whose receiver is gone ends the whole client: the other run is to fail as well. */
  method ClosedReceiverEndsTheClient(o: Operation, p: Operation, thread: Thread, other: Thread, kind: nat)
    returns (client: CodexClient)
    requires o != p && thread != other
    ensures fresh(client) && client.Valid() && !client.alive && client.reader.Stopped?
    ensures client.cause == ReceiverClosed && 1 in client.toFail && client.channels[1].open
  {
    hide CodexClient.RequestsOk, CodexClient.BooksOk, CodexClient.LateOk, CodexClient.RoutesOk;
    client := new CodexClient();
    OneRun(client, o, thread);
    OneRun(client, p, other);
    client.CloseChannel(0);
    assert client.routes == map[o := Route(thread, 0, None), p := Route(other, 1, None)];
    assert client.routes[o].thread == thread;
    var problem, to := client.Dispatch(Notify(Progress([kind]), Some(thread)), true);
    assert to == Some(o);
    assert NotificationEvents(Progress([kind]), None) == [OtherEvent(kind)];
    assert client.reader == Sending(0, [OtherEvent(kind)], Nothing);
    ghost var routes := client.routes;
    problem := client.MoveReader();
    var _ := client.MoveFailure();
    assert client.routes == routes && client.routes[p].channel == 1;
    var _ := client.MoveFailure();
  }
}
