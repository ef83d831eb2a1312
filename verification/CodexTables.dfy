/**
 The tables of the Codex client and what each step on them keeps: the requests of HomeBot, the requests of
 the server, and the routes with the tasks that have something to send on them.
 */
module CodexTables {
  import opened Wrappers

  type Operation = nat
  type Thread = nat
  type RequestId = nat
  type CallId = nat
  type Json = nat

  datatype Problem =
    | NotRunning
    | WriteFailed
    | TimedOut
    | ServerGone
    | ProtocolViolation
    | ReceiverClosed
    | NotPending
    | AlreadyActive

  // ---------------------------------------------------------------------------------------
  // Requests of HomeBot
  // ---------------------------------------------------------------------------------------

  datatype Answer = Value(value: Json) | ServerError(code: int)

  datatype Outcome = Answered(answer: Answer) | Refused(problem: Problem)

  /** Where a caller of `request` stands. */
  datatype Stage =
    | Numbered
    | Entered
    | Waiting
    | Unwritten
    | Expired
    | Finished(outcome: Outcome)

  datatype Response = Response(id: nat, answer: Answer)

  /** Every number was given out once. A number in the table waits for its one delivery; without one
      it stays there until its caller takes it out. What a caller is told the server answered, the
      server answered to that very number. */
  ghost predicate RequestsValid(next: nat, stages: map<nat, Stage>, table: set<nat>,
                                delivered: map<nat, Outcome>, responses: seq<Response>, answeredAt: map<nat, nat>,
                                known: set<nat>)
  {
    && 0 < next && (forall id: nat :: id in stages <==> 0 < id < next)
    && (forall id | id in table ::
          id in stages && !stages[id].Numbered? && !stages[id].Finished? && id !in delivered)
    && (forall id | id in stages && (stages[id].Entered? || stages[id].Waiting?) :: id in table || id in delivered)
    && (forall id | id in delivered ::
          id in stages && !stages[id].Numbered? && OwnAnswer(id, delivered[id], responses, answeredAt))
    && (forall id | id in stages && stages[id].Finished? :: OwnAnswer(id, stages[id].outcome, responses, answeredAt))
    && forall id | id in known :: id in stages && !stages[id].Numbered? && id !in table
  }

  ghost predicate OwnAnswer(id: nat, outcome: Outcome, responses: seq<Response>, answeredAt: map<nat, nat>) {
    outcome.Answered? ==>
      id in answeredAt && answeredAt[id] < |responses| && responses[answeredAt[id]] == Response(id, outcome.answer)
  }

  /** No caller is forgotten and no outcome changes. */
  predicate Settled(before: map<nat, Stage>, after: map<nat, Stage>) {
    forall id | id in before :: id in after && (before[id].Finished? ==> after[id] == before[id])
  }

  // ---------------------------------------------------------------------------------------
  // Requests of the server
  // ---------------------------------------------------------------------------------------

  datatype Decision = Accept | AcceptForSession | Decline | CancelTurn

  datatype ReplyBody = Unsupported | Decided(decision: Decision) | ToolResult(success: bool, content: Json)

  datatype Answerback = Answerback(id: RequestId, body: ReplyBody)

  /** A request of the server that waits: its identifier, its thread, and its place among the
      requests received. */
  datatype Unanswered = Unanswered(id: RequestId, thread: Thread, place: nat)

  datatype Status = WithApproval(approval: nat) | WithTool(call: CallId) | Owed | Replied(reply: nat) | Ignored

  /** The requests received and what has become of each, the replies written and what each answers, the
      two tables of waiting requests, and the replies still to be written. */
  datatype Ledger = Ledger(
    received: seq<RequestId>, status: seq<Status>,
    replies: seq<Answerback>, replyTo: seq<nat>,
    approvals: map<nat, Unanswered>, nextApproval: nat, toolCalls: map<CallId, Unanswered>,
    owed: map<nat, Answerback>)

  ghost predicate IsEntry(l: Ledger, entry: Unanswered, status: Status) {
    entry.place < |l.received| && entry.place < |l.status| && l.status[entry.place] == status
    && l.received[entry.place] == entry.id
  }

  /** A waiting entry stands for the one request it came from, a reply answers the one request it
      names, and a request whose answer is owed or written has no entry. */
  ghost predicate LedgerValid(l: Ledger) {
    && |l.status| == |l.received| && |l.replyTo| == |l.replies|
    && (forall i | 0 <= i < |l.replies| ::
          && l.replyTo[i] < |l.received| && l.status[l.replyTo[i]] == Replied(i)
          && l.replies[i].id == l.received[l.replyTo[i]])
    && (forall a | a in l.approvals :: a < l.nextApproval && IsEntry(l, l.approvals[a], WithApproval(a)))
    && (forall c | c in l.toolCalls :: IsEntry(l, l.toolCalls[c], WithTool(c)))
    && forall p | p in l.owed :: p < |l.received| && l.status[p] == Owed && l.owed[p].id == l.received[p]
  }

  /** The request received last waits to be entered. */
  predicate Newest(l: Ledger) {
    l.received != [] && |l.status| == |l.received| && l.status[|l.status| - 1] == Ignored
  }

  function Replying(l: Ledger, place: nat, body: ReplyBody): Ledger
    requires place < |l.received| && |l.status| == |l.received|
  {
    l.(status := l.status[place := Replied(|l.replies|)],
       replies := l.replies + [Answerback(l.received[place], body)],
       replyTo := l.replyTo + [place])
  }

  function Owing(l: Ledger, place: nat, body: ReplyBody): Ledger
    requires place < |l.received| && |l.status| == |l.received|
  {
    l.(status := l.status[place := Owed], owed := l.owed[place := Answerback(l.received[place], body)])
  }

  function Receiving(l: Ledger, id: RequestId): Ledger {
    l.(received := l.received + [id], status := l.status + [Ignored])
  }

  /** A request that has no entry and no answer is answered. */
  lemma ReplyOne(l: Ledger, place: nat, body: ReplyBody)
    requires LedgerValid(l) && place < |l.received| && !l.status[place].Replied? && place !in l.owed
    requires forall a | a in l.approvals :: l.approvals[a].place != place
    requires forall c | c in l.toolCalls :: l.toolCalls[c].place != place
    ensures LedgerValid(Replying(l, place, body))
  {
    assert forall a | a in l.approvals :: IsEntry(l, l.approvals[a], WithApproval(a));
    assert forall c | c in l.toolCalls :: IsEntry(l, l.toolCalls[c], WithTool(c));
  }

  /** Its answer can also be promised first. */
  lemma OweOne(l: Ledger, place: nat, body: ReplyBody)
    requires LedgerValid(l) && place < |l.received| && !l.status[place].Replied?
    requires forall a | a in l.approvals :: l.approvals[a].place != place
    requires forall c | c in l.toolCalls :: l.toolCalls[c].place != place
    ensures LedgerValid(Owing(l, place, body))
  {
    assert forall a | a in l.approvals :: IsEntry(l, l.approvals[a], WithApproval(a));
    assert forall c | c in l.toolCalls :: IsEntry(l, l.toolCalls[c], WithTool(c));
  }

  /** A promised answer is written, or not. */
  lemma WriteOne(l: Ledger, place: nat)
    requires LedgerValid(l) && place in l.owed
    ensures var less := l.(owed := l.owed - {place});
            && place < |l.received| == |l.status| && l.received[place] == l.owed[place].id
            && LedgerValid(less) && LedgerValid(Replying(less, place, l.owed[place].body))
            && (Newest(l) ==> Newest(less) && Newest(Replying(less, place, l.owed[place].body)))
  {
    var less := l.(owed := l.owed - {place});
    OwedHasNoEntry(l, place);
    OweNoMore(l, place);
    hide LedgerValid;
    ReplyOne(less, place, l.owed[place].body);
  }

  lemma OwedHasNoEntry(l: Ledger, place: nat)
    requires LedgerValid(l) && place in l.owed
    ensures place < |l.received| == |l.status| && l.received[place] == l.owed[place].id && l.status[place] == Owed
    ensures forall a | a in l.approvals :: l.approvals[a].place != place
    ensures forall c | c in l.toolCalls :: l.toolCalls[c].place != place
  {
    assert forall a | a in l.approvals :: IsEntry(l, l.approvals[a], WithApproval(a));
    assert forall c | c in l.toolCalls :: IsEntry(l, l.toolCalls[c], WithTool(c));
  }

  lemma OweNoMore(l: Ledger, place: nat)
    requires LedgerValid(l)
    ensures LedgerValid(l.(owed := l.owed - {place}))
  {
    assert forall a | a in l.approvals :: IsEntry(l, l.approvals[a], WithApproval(a));
    assert forall c | c in l.toolCalls :: IsEntry(l, l.toolCalls[c], WithTool(c));
  }

  /** A request that has just come has neither. */
  lemma ReceiveOne(l: Ledger, id: RequestId)
    requires LedgerValid(l)
    ensures LedgerValid(Receiving(l, id)) && Newest(Receiving(l, id))
    ensures forall a | a in l.approvals :: l.approvals[a].place < |l.received|
    ensures forall c | c in l.toolCalls :: l.toolCalls[c].place < |l.received|
    ensures |l.received| !in l.owed
  {
    assert forall a | a in l.approvals :: IsEntry(l, l.approvals[a], WithApproval(a));
    assert forall c | c in l.toolCalls :: IsEntry(l, l.toolCalls[c], WithTool(c));
  }

  lemma AnswerAtOnce(l: Ledger, id: RequestId, body: ReplyBody)
    requires LedgerValid(l)
    ensures LedgerValid(Replying(Receiving(l, id), |l.received|, body))
  {
    ReceiveOne(l, id);
    hide LedgerValid;
    ReplyOne(Receiving(l, id), |l.received|, body);
  }

  /** Fewer entries are still valid. */
  lemma FewerEntries(l: Ledger, approvals: map<nat, Unanswered>, toolCalls: map<CallId, Unanswered>)
    requires LedgerValid(l)
    requires forall a | a in approvals :: a in l.approvals && approvals[a] == l.approvals[a]
    requires forall c | c in toolCalls :: c in l.toolCalls && toolCalls[c] == l.toolCalls[c]
    ensures LedgerValid(l.(approvals := approvals, toolCalls := toolCalls))
    ensures Newest(l) ==> Newest(l.(approvals := approvals, toolCalls := toolCalls))
  {
    assert forall a | a in approvals :: IsEntry(l, l.approvals[a], WithApproval(a));
    assert forall c | c in toolCalls :: IsEntry(l, l.toolCalls[c], WithTool(c));
  }

  /** No two entries share a request, and no entry's request has been answered. */
  lemma OneEntryEach(l: Ledger, a: nat, c: CallId)
    requires LedgerValid(l)
    ensures |l.status| == |l.received|
    ensures a in l.approvals ==>
              var place := l.approvals[a].place;
              && place < |l.received| && l.status[place] == WithApproval(a) && place !in l.owed
              && l.received[place] == l.approvals[a].id
              && (forall b | b in l.approvals && b != a :: l.approvals[b].place != place)
              && (forall d | d in l.toolCalls :: l.toolCalls[d].place != place)
    ensures c in l.toolCalls ==>
              var place := l.toolCalls[c].place;
              && place < |l.received| && l.status[place] == WithTool(c) && place !in l.owed
              && l.received[place] == l.toolCalls[c].id
              && (forall d | d in l.toolCalls && d != c :: l.toolCalls[d].place != place)
              && (forall b | b in l.approvals :: l.approvals[b].place != place)
  {
    assert forall b | b in l.approvals :: IsEntry(l, l.approvals[b], WithApproval(b));
    assert forall d | d in l.toolCalls :: IsEntry(l, l.toolCalls[d], WithTool(d));
  }

  /** An entry is taken out for an answer. */
  lemma AnswerApproval(l: Ledger, a: nat, body: ReplyBody)
    requires LedgerValid(l) && a in l.approvals
    ensures var less := l.(approvals := l.approvals - {a});
            && l.approvals[a].place < |l.received| == |l.status|
            && l.received[l.approvals[a].place] == l.approvals[a].id && l.approvals[a].place !in l.owed
            && LedgerValid(Owing(less, l.approvals[a].place, body))
            && (Newest(l) ==> Newest(Owing(less, l.approvals[a].place, body)))
  {
    hide LedgerValid, IsEntry;
    OneEntryEach(l, a, 0);
    FewerEntries(l, l.approvals - {a}, l.toolCalls);
    var less := l.(approvals := l.approvals - {a});
    OweOne(less, l.approvals[a].place, body);
  }

  lemma AnswerTool(l: Ledger, c: CallId, body: ReplyBody)
    requires LedgerValid(l) && c in l.toolCalls
    ensures var less := l.(toolCalls := l.toolCalls - {c});
            && l.toolCalls[c].place < |l.received| == |l.status|
            && l.received[l.toolCalls[c].place] == l.toolCalls[c].id && l.toolCalls[c].place !in l.owed
            && LedgerValid(Owing(less, l.toolCalls[c].place, body))
            && (Newest(l) ==> Newest(Owing(less, l.toolCalls[c].place, body)))
  {
    hide LedgerValid, IsEntry;
    OneEntryEach(l, 0, c);
    FewerEntries(l, l.approvals, l.toolCalls - {c});
    var less := l.(toolCalls := l.toolCalls - {c});
    OweOne(less, l.toolCalls[c].place, body);
  }

  function NewestEntry(l: Ledger, thread: Thread): Unanswered
    requires l.received != []
  {
    Unanswered(l.received[|l.received| - 1], thread, |l.received| - 1)
  }

  function EnteringTool(l: Ledger, thread: Thread, c: CallId): Ledger
    requires Newest(l)
  {
    l.(status := l.status[|l.status| - 1 := WithTool(c)], toolCalls := l.toolCalls[c := NewestEntry(l, thread)])
  }

  function EnteringApproval(l: Ledger, thread: Thread): Ledger
    requires Newest(l)
  {
    l.(status := l.status[|l.status| - 1 := WithApproval(l.nextApproval)],
       approvals := l.approvals[l.nextApproval := NewestEntry(l, thread)],
       nextApproval := l.nextApproval + 1)
  }

  /** The newest request has no entry and no answer, so its status can change. */
  lemma MarkNewest(l: Ledger, status: Status)
    requires LedgerValid(l) && Newest(l) && !status.Replied? && !status.Owed?
    ensures LedgerValid(l.(status := l.status[|l.status| - 1 := status]))
  {
    assert forall a | a in l.approvals :: IsEntry(l, l.approvals[a], WithApproval(a));
    assert forall d | d in l.toolCalls :: IsEntry(l, l.toolCalls[d], WithTool(d));
  }

  /** It gets an entry, in place of an older one of the same call. */
  lemma EnterTool(l: Ledger, thread: Thread, c: CallId)
    requires LedgerValid(l) && Newest(l)
    ensures LedgerValid(EnteringTool(l, thread, c))
  {
    MarkNewest(l, WithTool(c));
    var m := l.(status := l.status[|l.status| - 1 := WithTool(c)]);
    AddTool(m, NewestEntry(l, thread), c);
  }

  lemma AddTool(l: Ledger, entry: Unanswered, c: CallId)
    requires LedgerValid(l) && IsEntry(l, entry, WithTool(c))
    ensures LedgerValid(l.(toolCalls := l.toolCalls[c := entry]))
  {
    assert forall a | a in l.approvals :: IsEntry(l, l.approvals[a], WithApproval(a));
    assert forall d | d in l.toolCalls :: IsEntry(l, l.toolCalls[d], WithTool(d));
  }

  lemma EnteringToolIs(l: Ledger, thread: Thread, c: CallId)
    requires Newest(l)
    ensures |l.status| == |l.received| && l.received != []
    ensures var n, entry := |l.status| - 1, Unanswered(l.received[|l.received| - 1], thread, |l.received| - 1);
            EnteringTool(l, thread, c)
            == Ledger(l.received, l.status[n := WithTool(c)], l.replies, l.replyTo, l.approvals, l.nextApproval,
                      l.toolCalls[c := entry], l.owed)
  {
  }

  lemma EnteringIs(l: Ledger, thread: Thread)
    requires Newest(l)
    ensures |l.status| == |l.received| && l.received != []
    ensures var n, entry := |l.status| - 1, Unanswered(l.received[|l.received| - 1], thread, |l.received| - 1);
            EnteringApproval(l, thread)
            == Ledger(l.received, l.status[n := WithApproval(l.nextApproval)], l.replies, l.replyTo,
                      l.approvals[l.nextApproval := entry], l.nextApproval + 1, l.toolCalls, l.owed)
  {
  }

  lemma EnterApproval(l: Ledger, thread: Thread)
    requires LedgerValid(l) && Newest(l)
    ensures LedgerValid(EnteringApproval(l, thread))
  {
    MarkNewest(l, WithApproval(l.nextApproval));
    var m := l.(status := l.status[|l.status| - 1 := WithApproval(l.nextApproval)]);
    AddApproval(m, NewestEntry(l, thread));
  }

  lemma AddApproval(l: Ledger, entry: Unanswered)
    requires LedgerValid(l) && IsEntry(l, entry, WithApproval(l.nextApproval))
    ensures LedgerValid(l.(approvals := l.approvals[l.nextApproval := entry], nextApproval := l.nextApproval + 1))
  {
    assert forall a | a in l.approvals :: IsEntry(l, l.approvals[a], WithApproval(a));
    assert forall d | d in l.toolCalls :: IsEntry(l, l.toolCalls[d], WithTool(d));
  }

  /** The waiting requests of other threads and with other identifiers. */
  function Others(entries: map<nat, Unanswered>, thread: Option<Thread>, request: Option<RequestId>)
    : (r: map<nat, Unanswered>)
    ensures forall k | k in r :: k in entries && r[k] == entries[k] && Some(r[k].thread) != thread
    ensures forall k :: k in r <==>
              && k in entries
              && (thread.None? || entries[k].thread != thread.value)
              && (request.None? || entries[k].id != request.value)
  {
    map k | k in entries && thread != Some(entries[k].thread) && request != Some(entries[k].id) :: entries[k]
  }

  // ---------------------------------------------------------------------------------------
  // Routes
  // ---------------------------------------------------------------------------------------

  datatype ProviderEvent =
    | Completed
    | Cancelled
    | Failed(problem: Problem)
    | ConversationStarted(thread: Thread)
    | ToolCall(call: CallId, name: Json)
    | ApprovalRequired(approval: nat)
    | OtherEvent(kind: nat)

  predicate IsTerminal(event: ProviderEvent) {
    event.Completed? || event.Cancelled? || event.Failed?
  }

  /** The receiving end of a run's events. */
  datatype Channel = Channel(open: bool, events: seq<ProviderEvent>)

  datatype Route = Route(thread: Thread, channel: nat, lastError: Option<Problem>)

  /** A run that was routed and has not been announced yet. */
  datatype Registration = Registration(o: Operation, thread: Thread)

  datatype Method = CommandApproval | FileApproval | ToolCallMethod | OtherMethod

  /** What the reading task does after the events of a notification. */
  datatype Closing = Nothing | ForRequest(request: Option<RequestId>) | ForTurn(o: Operation, thread: Thread)

  /** Where the reading task stands: it handles one message at a time, taking one lock or sending one
      event at a step. */
  datatype Reader =
    | Idle
    | Entering(what: Method, thread: Thread, call: CallId, name: Json, channel: nat)
    | Sending(channel: nat, rest: seq<ProviderEvent>, closing: Closing)
    | Removing(channel: nat, o: Operation, ofThread: Thread)
    | DroppingApprovals(threads: Option<Thread>, request: Option<RequestId>)
    | DroppingCalls(threads: Option<Thread>, request: Option<RequestId>)
    | Stopped

  /** The routes, the channels, and who has something to send on them: registrations, the failure of
      the client, and the reading task. `contested` holds the channels on which a terminal event was
      sent, or the client's failure was about to send one, while another task was not done. */
  datatype Board = Board(
    routes: map<Operation, Route>, channels: seq<Channel>,
    announcing: map<nat, Registration>, toFail: set<nat>, reader: Reader,
    contested: set<nat>, drained: set<nat>)

  predicate NoTerminal(events: seq<ProviderEvent>) {
    forall event | event in events :: !IsTerminal(event)
  }

  /** Nothing follows a terminal event. */
  predicate Proper(events: seq<ProviderEvent>) {
    events == [] || NoTerminal(events[..|events| - 1])
  }

  predicate ReaderSends(reader: Reader, i: nat) {
    (reader.Sending? || reader.Entering?) && reader.channel == i
  }

  /** Some task still has an event to send on a channel. */
  predicate ToSend(b: Board, i: nat) {
    i in b.announcing || i in b.toFail || ReaderSends(b.reader, i)
  }

  predicate ReaderValid(b: Board) {
    match b.reader
    case Entering(_, _, _, _, i) => i < |b.channels|
    case Sending(i, rest, closing) =>
      && i < |b.channels| && rest != []
      && (if closing.ForTurn? then |rest| == 1 && IsTerminal(rest[0]) else NoTerminal(rest))
      && (closing.ForTurn? ==> forall p | p in b.routes && b.routes[p].channel == i :: p == closing.o)
    case Removing(i, o, _) =>
      && i < |b.channels| && (b.channels[i].open ==> !NoTerminal(b.channels[i].events))
      && forall p | p in b.routes && b.routes[p].channel == i :: p == o
    case _ => true
  }

  /** On a channel that is not contested nothing follows a terminal event, nothing is left to send
      after it, and its route goes when the reading task has done its part. */
  ghost predicate Uncontested(b: Board, i: nat)
    requires i < |b.channels|
  {
    && Proper(b.channels[i].events)
    && (!NoTerminal(b.channels[i].events) ==>
          && !ToSend(b, i)
          && forall p | p in b.routes && b.routes[p].channel == i :: b.reader.Removing? && b.reader.channel == i)
  }

  /** On a contested channel that is open something follows a terminal event, or will. */
  ghost predicate Contested(b: Board, i: nat)
    requires i < |b.channels|
  {
    b.channels[i].open ==> !NoTerminal(b.channels[i].events) && (ToSend(b, i) || !Proper(b.channels[i].events))
  }

  /** A channel taken over by the failure of the client is still to be told, or has been. */
  ghost predicate ChannelValid(b: Board, i: nat)
    requires i < |b.channels|
  {
    && (if i in b.contested then Contested(b, i) else Uncontested(b, i))
    && (i in b.drained ==> i in b.toFail || !b.channels[i].open || !NoTerminal(b.channels[i].events))
  }

  /** Every route has its own channel, and the sets speak of channels there are. */
  ghost predicate Indexed(b: Board) {
    && (forall o | o in b.routes :: b.routes[o].channel < |b.channels| && b.routes[o].channel !in b.toFail)
    && (forall o, p | o in b.routes && p in b.routes && o != p :: b.routes[o].channel != b.routes[p].channel)
    && (forall i | i in b.announcing :: i < |b.channels|)
    && (forall i | i in b.toFail :: i < |b.channels|)
    && (forall i | i in b.contested :: i < |b.channels|)
    && forall i | i in b.drained :: i < |b.channels|
  }

  ghost predicate BoardValid(b: Board) {
    Indexed(b) && ReaderValid(b) && forall i: nat | i < |b.channels| :: ChannelValid(b, i)
  }

  function SendOn(channel: Channel, event: ProviderEvent): Channel {
    if channel.open then channel.(events := channel.events + [event]) else channel
  }

  function SendingOn(b: Board, i: nat, event: ProviderEvent): Board
    requires i < |b.channels|
  {
    b.(channels := b.channels[i := SendOn(b.channels[i], event)])
  }

  lemma Appended(events: seq<ProviderEvent>, event: ProviderEvent)
    ensures NoTerminal(events + [event]) <==> NoTerminal(events) && !IsTerminal(event)
    ensures Proper(events + [event]) <==> NoTerminal(events)
    ensures NoTerminal(events) ==> Proper(events)
  {
    assert (events + [event])[..|events|] == events;
    assert event in events + [event] && forall e | e in events :: e in events + [event];
  }

  /** A run is routed on a channel of its own, to be announced. */
  function Inserted(b: Board, o: Operation, thread: Thread, open: bool): Board {
    var more := b.(channels := b.channels + [Channel(open, [])]);
    if o in b.routes then more
    else more.(routes := b.routes[o := Route(thread, |b.channels|, None)],
               announcing := b.announcing[|b.channels| := Registration(o, thread)])
  }

  lemma WhatIsInserted(b: Board, o: Operation, thread: Thread, open: bool)
    ensures var d, n := Inserted(b, o, thread, open), |b.channels|;
            && d == b.(channels := b.channels + [Channel(open, [])], routes := d.routes, announcing := d.announcing)
            && (o in b.routes ==> d.routes == b.routes && d.announcing == b.announcing)
            && (o !in b.routes ==>
                  && d.routes == b.routes[o := Route(thread, n, None)]
                  && d.announcing == b.announcing[n := Registration(o, thread)])
  {
  }

  lemma InsertOne(b: Board, o: Operation, thread: Thread, open: bool)
    requires BoardValid(b)
    ensures BoardValid(Inserted(b, o, thread, open))
  {
    var d := Inserted(b, o, thread, open);
    forall j: nat | j < |d.channels|
      ensures ChannelValid(d, j)
    {
      assert j < |b.channels| ==> ChannelValid(b, j);
    }
    hide ChannelValid, NoTerminal, Proper;
  }

  lemma RemoveOne(b: Board, o: Operation)
    requires BoardValid(b)
    ensures BoardValid(b.(routes := b.routes - {o}))
  {
    var d := b.(routes := b.routes - {o});
    hide NoTerminal, Proper;
    forall j: nat | j < |d.channels|
      ensures ChannelValid(d, j)
    {
      assert ChannelValid(b, j);
    }
    hide ChannelValid;
  }

  lemma CloseOne(b: Board, i: nat)
    requires BoardValid(b) && i < |b.channels|
    ensures BoardValid(b.(channels := b.channels[i := b.channels[i].(open := false)]))
  {
    var d := b.(channels := b.channels[i := b.channels[i].(open := false)]);
    hide NoTerminal, Proper;
    forall j: nat | j < |d.channels|
      ensures ChannelValid(d, j)
    {
      assert ChannelValid(b, j);
    }
    hide ChannelValid;
  }

  /** The announcement of a run that was routed before. When its receiver is gone the route of its
      operation goes too. */
  function Announced(b: Board, i: nat): Board
    requires i in b.announcing && i < |b.channels|
  {
    var sent := SendingOn(b, i, ConversationStarted(b.announcing[i].thread));
    sent.(announcing := b.announcing - {i},
          routes := if b.channels[i].open then b.routes else b.routes - {b.announcing[i].o})
  }

  lemma WhatIsAnnounced(b: Board, i: nat)
    requires i in b.announcing && i < |b.channels|
    ensures var d, channel := Announced(b, i), b.channels[i];
            && d == b.(channels := d.channels, routes := d.routes, announcing := b.announcing - {i})
            && (channel.open ==>
                  && d.routes == b.routes
                  && d.channels
                     == b.channels[i := Channel(true, channel.events + [ConversationStarted(b.announcing[i].thread)])])
            && (!channel.open ==> d.channels == b.channels && d.routes == b.routes - {b.announcing[i].o})
  {
  }

  lemma AnnounceOne(b: Board, i: nat)
    requires BoardValid(b) && i in b.announcing
    ensures i < |b.channels| && BoardValid(Announced(b, i))
  {
    var d := Announced(b, i);
    forall j: nat | j < |d.channels|
      ensures ChannelValid(d, j)
    {
      AnnounceChannel(b, i, j);
    }
    AnnounceReader(b, i);
    hide ChannelValid, NoTerminal, ReaderValid;
  }

  lemma AnnounceReader(b: Board, i: nat)
    requires BoardValid(b) && i in b.announcing
    ensures i < |b.channels| && ReaderValid(Announced(b, i))
  {
    hide ChannelValid, Proper;
    Appended(b.channels[i].events, ConversationStarted(b.announcing[i].thread));
  }

  lemma AnnounceChannel(b: Board, i: nat, j: nat)
    requires BoardValid(b) && i in b.announcing && j < |b.channels|
    ensures i < |b.channels| && ChannelValid(Announced(b, i), j)
  {
    assert ChannelValid(b, j);
    Appended(b.channels[i].events, ConversationStarted(b.announcing[i].thread));
    hide NoTerminal, Proper, BoardValid, ReaderValid;
  }

  /** The failure of the client takes over every route. */
  function Drained(b: Board): Board {
    var taken := set o | o in b.routes :: b.routes[o].channel;
    b.(routes := map[], toFail := taken, drained := taken,
       contested := b.contested + if b.reader.Removing? && b.reader.channel in taken then {b.reader.channel} else {})
  }

  lemma WhatIsDrained(b: Board)
    ensures var d := Drained(b);
            && d == b.(routes := map[], toFail := d.toFail, drained := d.toFail, contested := d.contested)
            && forall i :: i in d.toFail <==> exists o | o in b.routes :: b.routes[o].channel == i
  {
  }

  lemma DrainAll(b: Board)
    requires BoardValid(b) && b.toFail == {} && b.drained == {}
    ensures BoardValid(Drained(b))
  {
    hide NoTerminal, Proper;
    var d := Drained(b);
    forall j: nat | j < |d.channels|
      ensures ChannelValid(d, j)
    {
      assert ChannelValid(b, j);
      assert j in d.toFail ==> exists o | o in b.routes :: b.routes[o].channel == j;
    }
    hide ChannelValid;
  }

  /** The failure of the client tells one of the runs it has taken over. */
  function Failing(b: Board, i: nat, cause: Problem): Board
    requires i < |b.channels|
  {
    SendingOn(b, i, Failed(cause)).(
      toFail := b.toFail - {i},
      contested := b.contested
                   + if b.channels[i].open && (i in b.announcing || ReaderSends(b.reader, i)) then {i} else {})
  }

  lemma WhatIsFailed(b: Board, i: nat, cause: Problem)
    requires i < |b.channels|
    ensures var d, channel := Failing(b, i, cause), b.channels[i];
            && d == b.(channels := d.channels, toFail := b.toFail - {i}, contested := d.contested)
            && d.channels == if channel.open then b.channels[i := Channel(true, channel.events + [Failed(cause)])]
                             else b.channels
  {
  }

  lemma FailOne(b: Board, i: nat, cause: Problem)
    requires BoardValid(b) && i in b.toFail
    ensures i < |b.channels| && BoardValid(Failing(b, i, cause))
  {
    var d := Failing(b, i, cause);
    forall j: nat | j < |d.channels|
      ensures ChannelValid(d, j)
    {
      FailChannel(b, i, j, cause);
    }
    Appended(b.channels[i].events, Failed(cause));
    hide ChannelValid, NoTerminal, Proper;
  }

  lemma FailChannel(b: Board, i: nat, j: nat, cause: Problem)
    requires BoardValid(b) && i in b.toFail && j < |b.channels|
    ensures i < |b.channels| && ChannelValid(Failing(b, i, cause), j)
  {
    assert ChannelValid(b, j);
    Appended(b.channels[i].events, Failed(cause));
    hide NoTerminal, Proper, BoardValid, ReaderValid;
  }

  /** Where the reading task goes on after an event. */
  function NextReader(channel: nat, rest: seq<ProviderEvent>, closing: Closing): Reader {
    if rest != [] then Sending(channel, rest, closing)
    else match closing
      case Nothing => Idle
      case ForRequest(request) => DroppingApprovals(None, request)
      case ForTurn(o, thread) => Removing(channel, o, thread)
  }

  /** The reading task sends its next event to a receiver that is there. */
  function ReaderSent(b: Board): Board
    requires b.reader.Sending? && b.reader.channel < |b.channels| && b.reader.rest != []
  {
    var i, event := b.reader.channel, b.reader.rest[0];
    SendingOn(b, i, event).(
      reader := NextReader(i, b.reader.rest[1..], b.reader.closing),
      contested := b.contested + if IsTerminal(event) && (i in b.announcing || i in b.toFail) then {i} else {})
  }

  /** What that comes to: the event is the last on its channel, and when it was the last to send the reading
      task goes on with what follows the notification. */
  lemma WhatIsSent(b: Board)
    requires b.reader.Sending? && b.reader.channel < |b.channels| && b.reader.rest != []
    requires b.channels[b.reader.channel].open
    ensures var i, rest, d := b.reader.channel, b.reader.rest, ReaderSent(b);
            && d.channels == b.channels[i := Channel(true, b.channels[i].events + [rest[0]])]
            && d.routes == b.routes && d.announcing == b.announcing && d.toFail == b.toFail
            && (|rest| > 1 ==> d.reader == Sending(i, rest[1..], b.reader.closing))
            && (|rest| == 1 ==>
                  d.reader == match b.reader.closing
                    case ForTurn(o, thread) => Removing(i, o, thread)
                    case ForRequest(request) => DroppingApprovals(None, request)
                    case Nothing => Idle)
  {
  }

  lemma SendNext(b: Board)
    requires BoardValid(b) && b.reader.Sending?
    ensures b.reader.channel < |b.channels| && b.reader.rest != []
    ensures b.channels[b.reader.channel].open ==> BoardValid(ReaderSent(b))
  {
    if b.channels[b.reader.channel].open {
      var d := ReaderSent(b);
      SendReader(b);
      forall j: nat | j < |d.channels|
        ensures ChannelValid(d, j)
      {
        SendChannel(b, j);
      }
      hide ChannelValid, NoTerminal, Proper, ReaderValid, NextReader;
    }
  }

  lemma SendReader(b: Board)
    requires Indexed(b) && ReaderValid(b) && b.reader.Sending? && b.channels[b.reader.channel].open
    ensures ReaderValid(ReaderSent(b))
    ensures IsTerminal(b.reader.rest[0]) <==> b.reader.closing.ForTurn?
    ensures b.reader.closing.ForTurn? ==>
            ReaderSent(b).reader == Removing(b.reader.channel, b.reader.closing.o, b.reader.closing.thread)
    ensures !b.reader.closing.ForTurn? ==> !ReaderSent(b).reader.Removing? && !ReaderSent(b).reader.Entering?
    ensures ReaderSent(b).reader.Sending? ==> ReaderSent(b).reader.channel == b.reader.channel
  {
    var event, rest := b.reader.rest[0], b.reader.rest[1..];
    Appended(b.channels[b.reader.channel].events, event);
    assert event in b.reader.rest && forall e | e in rest :: e in b.reader.rest;
    assert NoTerminal(b.reader.rest) ==> NoTerminal(rest) && !IsTerminal(event);
    assert |b.reader.rest| == 1 ==> rest == [];
    hide Proper;
  }

  lemma SendChannel(b: Board, j: nat)
    requires BoardValid(b) && b.reader.Sending? && b.channels[b.reader.channel].open && j < |b.channels|
    ensures ChannelValid(ReaderSent(b), j)
  {
    assert ChannelValid(b, j);
    Appended(b.channels[b.reader.channel].events, b.reader.rest[0]);
    SendReader(b);
    assert b.reader.closing.ForTurn? ==>
             forall p | p in b.routes && b.routes[p].channel == b.reader.channel :: p == b.reader.closing.o;
    hide NoTerminal, Proper, BoardValid, ReaderValid, NextReader;
    if j == b.reader.channel {
      SendHere(b);
    }
  }

  lemma SendHere(b: Board)
    requires b.reader.Sending? && b.reader.channel < |b.channels| && b.reader.rest != []
    requires var i, event, d := b.reader.channel, b.reader.rest[0], ReaderSent(b);
             && b.channels[i].open && ChannelValid(b, i)
             && (IsTerminal(event) ==> d.reader.Removing? && d.reader.channel == i)
    ensures ChannelValid(ReaderSent(b), b.reader.channel)
  {
    Appended(b.channels[b.reader.channel].events, b.reader.rest[0]);
    hide NoTerminal, Proper, NextReader;
  }

  /** Any step of the reading task that sends nothing: a channel stays as it is when no task gets or
      loses something to send on it, or when its receiver is gone. */
  lemma MoveBoard(b: Board, d: Board)
    requires BoardValid(b) && d == b.(reader := d.reader, routes := d.routes)
    requires d.routes == b.routes || (b.reader.Removing? && d.routes == b.routes - {b.reader.o})
    requires ReaderValid(d)
    requires forall i: nat | i < |b.channels| && ReaderSends(b.reader, i) ::
               ReaderSends(d.reader, i) || !b.channels[i].open
    requires forall i: nat | i < |b.channels| && ReaderSends(d.reader, i) ::
               ReaderSends(b.reader, i)
               || (!b.reader.Removing? && exists o | o in b.routes :: b.routes[o].channel == i)
    requires b.reader.Removing? ==> d.reader == b.reader || b.reader.o !in d.routes
    requires b.reader.Removing? ==> !ToSendByReader(d.reader)
    ensures BoardValid(d)
  {
    forall j: nat | j < |d.channels|
      ensures ChannelValid(d, j)
    {
      assert ChannelValid(b, j);
      hide NoTerminal, Proper;
    }
    hide ChannelValid, NoTerminal, Proper;
  }

  predicate ToSendByReader(reader: Reader) {
    reader.Sending? || reader.Entering?
  }

  lemma NoteOne(b: Board, o: Operation, problem: Problem)
    requires BoardValid(b) && o in b.routes
    ensures BoardValid(b.(routes := b.routes[o := b.routes[o].(lastError := Some(problem))]))
  {
    var d := b.(routes := b.routes[o := b.routes[o].(lastError := Some(problem))]);
    hide NoTerminal, Proper;
    forall j: nat | j < |d.channels|
      ensures ChannelValid(d, j)
    {
      assert ChannelValid(b, j);
    }
    hide ChannelValid;
  }

  /** A reader whose channel is gone, or that has nothing to send, can stop. */
  lemma ReaderStops(b: Board)
    requires BoardValid(b) && (b.reader.Idle? || (b.reader.Sending? && !b.channels[b.reader.channel].open))
    ensures BoardValid(b.(reader := Stopped))
  {
    hide ChannelValid, NoTerminal, Proper;
    MoveBoard(b, b.(reader := Stopped));
  }

  lemma ReaderLeaves(b: Board, reader: Reader)
    requires BoardValid(b) && !ToSendByReader(b.reader) && !ToSendByReader(reader) && !reader.Removing?
    ensures b.reader.Removing? ==> BoardValid(b.(reader := reader, routes := b.routes - {b.reader.o}))
    ensures !b.reader.Removing? ==> BoardValid(b.(reader := reader))
  {
    hide ChannelValid, NoTerminal, Proper;
    if b.reader.Removing? {
      MoveBoard(b, b.(reader := reader, routes := b.routes - {b.reader.o}));
    } else {
      MoveBoard(b, b.(reader := reader));
    }
  }

  lemma LookUp(b: Board, o: Operation, reader: Reader)
    requires BoardValid(b) && b.reader.Idle? && o in b.routes
    requires match reader
             case Entering(_, _, _, _, i) => i == b.routes[o].channel
             case Sending(i, rest, closing) =>
               && i == b.routes[o].channel && rest != []
               && (if closing.ForTurn? then closing.o == o && |rest| == 1 && IsTerminal(rest[0]) else NoTerminal(rest))
             case Removing(_, _, _) => false
             case _ => true
    ensures BoardValid(b.(reader := reader))
  {
    hide ChannelValid, NoTerminal, Proper;
    MoveBoard(b, b.(reader := reader));
  }

  lemma EnteredNext(b: Board, event: ProviderEvent)
    requires BoardValid(b) && b.reader.Entering? && !IsTerminal(event)
    ensures BoardValid(b.(reader := Sending(b.reader.channel, [event], Nothing)))
  {
    assert NoTerminal([event]);
    hide ChannelValid, NoTerminal, Proper;
    MoveBoard(b, b.(reader := Sending(b.reader.channel, [event], Nothing)));
  }
}
