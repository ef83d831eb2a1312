/**
 One streamed run of an OpenAI-compatible provider: its events, its tool calls, and the
 continuation requests that carry their results.
 */
module ToolLoop {
  import opened Wrappers
  import opened ChatCalls

  type Operation = nat
  type Json = nat

  datatype Style = Responses | Chat

  datatype Problem =
    | EventTooLong
    | BadData
    | Disconnected
    | EndedEarly
    | NoResponseId
    | MalformedFunctionCall
    | ResponseFailure
    | RequestFailed
    | TooManyToolCalls
    | RepeatedCall
    | ReceiverClosed
    | BadChatCalls(error: ChatError)

  datatype ProviderEvent =
    | Completed
    | Cancelled
    | Failed(problem: Problem)
    | ConversationStarted(id: Text)
    | ToolCallEvent(call: ToolCall<Json>)
    | ContentDelta(text: Text)
    | Usage
    | Activity

  predicate IsTerminal(event: ProviderEvent) {
    event.Completed? || event.Cancelled? || event.Failed?
  }

  // ---------------------------------------------------------------------------------------
  // Stream data
  // ---------------------------------------------------------------------------------------

  /** A JSON value as the responses style reads it. */
  datatype ResponseData =
    | Created(id: Option<Text>)
    | TextDelta(text: Option<Text>)
    | ReasoningOrArguments
    | FunctionCall(call: Option<ToolCall<Json>>)
    | ResponseCompleted(usage: bool)
    | ResponseFailed
    | Unknown

  datatype FinishReason = NoReason | ToolCallsReason | OtherReason

  /** A JSON value as the chat style reads it. */
  datatype ChatData = ChatData(id: Option<Text>, text: Option<Text>, usage: bool, finish: FinishReason,
                               deltas: seq<Delta>)

  datatype Data = Done | NotJson | Value(responses: ResponseData, chat: ChatData)

  /** The events a run passes on as they are. */
  predicate IsPlain(event: ProviderEvent) {
    !IsTerminal(event) && !event.ConversationStarted? && !event.ToolCallEvent?
  }

  /** Only the last event of a value can end a response or forward a call, and none is a cancellation. */
  predicate OnlyLastEnds(events: seq<ProviderEvent>) {
    && (forall i | 0 <= i < |events| - 1 :: IsPlain(events[i]) || events[i].ConversationStarted?)
    && Cancelled !in events
  }

  function NormalizeResponses(data: ResponseData): seq<ProviderEvent> {
    match data
    case Created(Some(id)) => [ConversationStarted(id)]
    case TextDelta(Some(text)) => [ContentDelta(text)]
    case ReasoningOrArguments => [Activity]
    case FunctionCall(Some(call)) => [ToolCallEvent(call)]
    case FunctionCall(None) => [Failed(MalformedFunctionCall)]
    case ResponseCompleted(usage) => if usage then [Usage, Completed] else [Completed]
    case ResponseFailed => [Failed(ResponseFailure)]
    case _ => []
  }

  function NormalizeChat(data: ChatData): seq<ProviderEvent> {
    (if data.id.Some? then [ConversationStarted(data.id.value)] else [])
    + (if data.text.Some? then [ContentDelta(data.text.value)] else [])
    + (if data.usage then [Usage] else [])
    + (if data.finish.NoReason? then [] else [Completed])
  }

  function Normalize(style: Style, responses: ResponseData, chat: ChatData): seq<ProviderEvent> {
    match style case Responses => NormalizeResponses(responses) case Chat => NormalizeChat(chat)
  }

  /** Normalization forwards no tool call in the chat style. */
  lemma NormalizedShape(style: Style, responses: ResponseData, chat: ChatData)
    ensures OnlyLastEnds(Normalize(style, responses, chat))
    ensures style.Chat? ==> forall event | event in Normalize(style, responses, chat) :: !event.ToolCallEvent?
  {
  }

  // ---------------------------------------------------------------------------------------
  // Requests
  // ---------------------------------------------------------------------------------------

  datatype Output = Output(success: bool, content: Text)

  datatype CallOutput = CallOutput(call: Text, output: Output)

  datatype Message = User | Assistant(calls: seq<ChatCall>) | Tool(result: CallOutput)

  datatype Body =
    | ResponsesBody(previous: Text, outputs: seq<CallOutput>)
    | ChatBody(messages: seq<Message>)

  function CallIds(calls: seq<ChatCall>): (ids: seq<Text>)
    ensures |ids| == |calls| && forall i | 0 <= i < |calls| :: ids[i] == calls[i].id
  {
    seq(|calls|, i requires 0 <= i < |calls| => calls[i].id)
  }

  /** The results still owed in a conversation; none if it is out of order. Only an assistant
      message asks for results, only when none is owed, and they come in the order asked for. */
  function Owed(messages: seq<Message>): Option<seq<Text>> {
    if messages == [] then Some([])
    else
      match Owed(messages[..|messages| - 1])
      case None => None
      case Some(owed) =>
        match messages[|messages| - 1]
        case User => if owed == [] then Some([]) else None
        case Assistant(calls) => if owed == [] then Some(CallIds(calls)) else None
        case Tool(result) => if owed != [] && owed[0] == result.call then Some(owed[1..]) else None
  }

  /** The results in a conversation. */
  function ToolOutputs(messages: seq<Message>): seq<CallOutput> {
    if messages == [] then []
    else
      var last := messages[|messages| - 1];
      ToolOutputs(messages[..|messages| - 1]) + if last.Tool? then [last.result] else []
  }

  /** The results in a list of continuations of the responses style. */
  function ResponsesOutputs(requests: seq<Body>): seq<CallOutput> {
    if requests == [] then []
    else
      var last := requests[|requests| - 1];
      ResponsesOutputs(requests[..|requests| - 1]) + if last.ResponsesBody? then last.outputs else []
  }

  lemma {:induction false} OwedBefore(messages: seq<Message>, n: nat)
    requires Owed(messages).Some? && n <= |messages|
    ensures Owed(messages[..n]).Some?
  {
    if n < |messages| {
      assert messages[..|messages| - 1][..n] == messages[..n];
      OwedBefore(messages[..|messages| - 1], n);
    } else {
      assert messages[..n] == messages;
    }
  }

  /** After some messages a turn of calls owes the rest of its results. */
  lemma {:induction false} OwedAfter(messages: seq<Message>, p: nat, n: nat)
    requires Owed(messages).Some? && p + n < |messages| && messages[p].Assistant? && n <= |messages[p].calls|
    ensures Owed(messages[..p + 1 + n]) == Some(CallIds(messages[p].calls)[n..])
    decreases n
  {
    var so := messages[..p + 1 + n];
    OwedBefore(messages, p + 1 + n);
    assert so[..|so| - 1] == messages[..p + n];
    if n > 0 {
      OwedAfter(messages, p, n - 1);
      assert so[..|so| - 1] == messages[..p + 1 + (n - 1)];
    }
  }

  /** In an ordered conversation each assistant message is followed by the results of its calls,
      all of them and in order. */
  lemma ConversationInOrder(messages: seq<Message>, p: nat, k: nat)
    requires Owed(messages) == Some([]) && p < |messages| && messages[p].Assistant? && k < |messages[p].calls|
    ensures p + 1 + k < |messages|
    ensures messages[p + 1 + k].Tool? && messages[p + 1 + k].result.call == messages[p].calls[k].id
  {
    assert messages[..|messages|] == messages;
    hide Owed, CallIds;
    if |messages| - p - 1 <= k {
      OwedAfter(messages, p, |messages| - p - 1);
    } else {
      OwedAfter(messages, p, k);
      OwedBefore(messages, p + 2 + k);
      var so := messages[..p + 2 + k];
      assert so[..|so| - 1] == messages[..p + 1 + k];
      OnlyAnswers(so, CallIds(messages[p].calls)[k..]);
    }
  }

  /** While results are owed only the next of them can follow. */
  lemma OnlyAnswers(messages: seq<Message>, owed: seq<Text>)
    requires messages != [] && Owed(messages).Some? && Owed(messages[..|messages| - 1]) == Some(owed) && owed != []
    ensures messages[|messages| - 1].Tool? && messages[|messages| - 1].result.call == owed[0]
  {
  }

  function ToolMessages(outputs: seq<CallOutput>): (messages: seq<Message>)
    ensures |messages| == |outputs| && forall i | 0 <= i < |outputs| :: messages[i] == Tool(outputs[i])
  {
    seq(|outputs|, i requires 0 <= i < |outputs| => Tool(outputs[i]))
  }

  lemma {:induction false} AnswerAll(messages: seq<Message>, outputs: seq<CallOutput>, ids: seq<Text>)
    requires Owed(messages) == Some(ids)
    requires |outputs| <= |ids| && forall i | 0 <= i < |outputs| :: outputs[i].call == ids[i]
    ensures Owed(messages + ToolMessages(outputs)) == Some(ids[|outputs|..])
    ensures ToolOutputs(messages + ToolMessages(outputs)) == ToolOutputs(messages) + outputs
    decreases |outputs|
  {
    if outputs == [] {
      assert messages + ToolMessages(outputs) == messages;
    } else {
      var earlier, last := outputs[..|outputs| - 1], outputs[|outputs| - 1];
      AnswerAll(messages, earlier, ids);
      AnswerLast(messages + ToolMessages(earlier), last, ids[|earlier|..]);
      LastApart(messages, outputs);
      hide Owed, ToolOutputs, ToolMessages;
      LastApartFrom(ToolOutputs(messages), outputs);
    }
  }

  lemma LastApart(messages: seq<Message>, outputs: seq<CallOutput>)
    requires outputs != []
    ensures var n := |outputs| - 1;
            messages + ToolMessages(outputs) == messages + ToolMessages(outputs[..n]) + [Tool(outputs[n])]
  {
  }

  lemma LastApartFrom(before: seq<CallOutput>, outputs: seq<CallOutput>)
    requires outputs != []
    ensures var n := |outputs| - 1; before + outputs[..n] + [outputs[n]] == before + outputs
  {
  }

  lemma AnswerLast(messages: seq<Message>, result: CallOutput, ids: seq<Text>)
    requires Owed(messages) == Some(ids) && ids != [] && ids[0] == result.call
    ensures Owed(messages + [Tool(result)]) == Some(ids[1..])
    ensures ToolOutputs(messages + [Tool(result)]) == ToolOutputs(messages) + [result]
  {
    assert (messages + [Tool(result)])[..|messages|] == messages;
  }

  /** An assistant message followed by the results of its calls keeps a conversation in order. */
  lemma RoundInOrder(messages: seq<Message>, calls: seq<ChatCall>, outputs: seq<CallOutput>)
    requires Owed(messages) == Some([])
    requires |outputs| == |calls| && forall i | 0 <= i < |calls| :: outputs[i].call == calls[i].id
    ensures var next := messages + [Assistant(calls)] + ToolMessages(outputs);
            Owed(next) == Some([]) && ToolOutputs(next) == ToolOutputs(messages) + outputs
  {
    var asked := messages + [Assistant(calls)];
    assert asked[..|messages|] == messages;
    assert ToolOutputs(asked) == ToolOutputs(messages);
    AnswerAll(asked, outputs, CallIds(calls));
    assert CallIds(calls)[|outputs|..] == [];
  }

  // ---------------------------------------------------------------------------------------
  // Events seen
  // ---------------------------------------------------------------------------------------

  predicate NoTerminal(events: seq<ProviderEvent>) {
    forall event | event in events :: !IsTerminal(event)
  }

  /** A run has ended for its receiver: one terminal event, in last place, or the receiver left. */
  predicate Ended(emitted: seq<ProviderEvent>, open: bool) {
    if emitted != [] && IsTerminal(emitted[|emitted| - 1]) then NoTerminal(emitted[..|emitted| - 1])
    else NoTerminal(emitted) && !open
  }

  /** No event before the last is terminal, and while the receiver is there the last one is. */
  lemma WhatAnEndIs(emitted: seq<ProviderEvent>, open: bool, i: nat)
    ensures NoTerminal(emitted) && i < |emitted| ==>
              !emitted[i].Completed? && !emitted[i].Cancelled? && !emitted[i].Failed?
    ensures Ended(emitted, open) && i + 1 < |emitted| ==>
              !emitted[i].Completed? && !emitted[i].Cancelled? && !emitted[i].Failed?
    ensures Ended(emitted, open) && open ==>
              && emitted != []
              && var last := emitted[|emitted| - 1]; last.Completed? || last.Cancelled? || last.Failed?
  {
    assert i < |emitted| ==> emitted[i] in emitted;
    assert i + 1 < |emitted| ==> emitted[i] in emitted[..|emitted| - 1];
  }

  function Starts(events: seq<ProviderEvent>): nat {
    if events == [] then 0
    else Starts(events[..|events| - 1]) + if events[|events| - 1].ConversationStarted? then 1 else 0
  }

  /** The calls forwarded, whole. */
  function CallsIn(events: seq<ProviderEvent>): seq<ToolCall<Json>> {
    if events == [] then []
    else
      var last := events[|events| - 1];
      CallsIn(events[..|events| - 1]) + if last.ToolCallEvent? then [last.call] else []
  }

  function Plain(events: seq<ProviderEvent>): seq<ProviderEvent> {
    if events == [] then []
    else
      var last := events[|events| - 1];
      Plain(events[..|events| - 1]) + if IsPlain(last) then [last] else []
  }

  lemma {:induction false} PlainConcat(a: seq<ProviderEvent>, b: seq<ProviderEvent>)
    ensures Plain(a + b) == Plain(a) + Plain(b)
  {
    if b == [] {
      assert a + b == a;
    } else {
      assert (a + b)[..|a + b| - 1] == a + b[..|b| - 1];
      PlainConcat(a, b[..|b| - 1]);
    }
  }

  lemma NoPlain()
    ensures Plain([]) == []
  {
  }

  lemma PlainOne(event: ProviderEvent)
    ensures Plain([event]) == if IsPlain(event) then [event] else []
  {
    assert [event][..0] == [];
  }

  lemma EmitOne(events: seq<ProviderEvent>, event: ProviderEvent)
    ensures Starts(events + [event]) == Starts(events) + if event.ConversationStarted? then 1 else 0
    ensures CallsIn(events + [event])
            == if event.ToolCallEvent? then CallsIn(events) + [event.call] else CallsIn(events)
    ensures NoTerminal(events) && !IsTerminal(event) ==> NoTerminal(events + [event])
    ensures NoTerminal(events) && IsTerminal(event) ==> Ended(events + [event], true) && Ended(events + [event], false)
    ensures NoTerminal(events) ==> Ended(events, false)
  {
    assert (events + [event])[..|events|] == events;
    assert NoTerminal(events) && events != [] ==> events[|events| - 1] in events;
  }

  // ---------------------------------------------------------------------------------------
  // Registered calls
  // ---------------------------------------------------------------------------------------

  /** An entry of the shared table: a registration of this run, by its number, or one of another. */
  datatype Owner = Own(slot: nat) | Other(operation: Operation)

  /** Every registered call of the run is answered or waits in the table, and the table holds no
      other call of the run. */
  ghost predicate Registry(pending: map<Text, Owner>, answers: map<nat, Output>, registered: seq<Text>) {
    && (forall call | call in pending && pending[call].Own? ::
          && pending[call].slot < |registered|
          && registered[pending[call].slot] == call
          && pending[call].slot !in answers)
    && (forall slot | slot in answers :: slot < |registered|)
    && forall slot: nat | slot < |registered| && slot !in answers ::
         registered[slot] in pending && pending[registered[slot]] == Own(slot)
  }

  lemma RegisterOne(pending: map<Text, Owner>, answers: map<nat, Output>, registered: seq<Text>, call: Text)
    requires Registry(pending, answers, registered) && call !in pending
    ensures Registry(pending[call := Own(|registered|)], answers, registered + [call])
  {
  }

  lemma AnswerOne(pending: map<Text, Owner>, answers: map<nat, Output>, registered: seq<Text>, call: Text,
                  output: Output)
    requires Registry(pending, answers, registered) && call in pending
    ensures pending[call].Own? ==> Registry(pending - {call}, answers[pending[call].slot := output], registered)
    ensures pending[call].Other? ==> Registry(pending - {call}, answers, registered)
  {
  }

  /** The result that was given for a registered call. */
  ghost predicate ResultOf(output: CallOutput, slot: nat, registered: seq<Text>, answers: map<nat, Output>) {
    slot < |registered| && slot in answers && output == CallOutput(registered[slot], answers[slot])
  }

  /** Results paired with the calls they were given for, in the order the calls were registered. */
  ghost predicate Paired(outputs: seq<CallOutput>, from: nat, registered: seq<Text>, answers: map<nat, Output>) {
    forall i | 0 <= i < |outputs| :: ResultOf(outputs[i], from + i, registered, answers)
  }

  // ---------------------------------------------------------------------------------------
  // The run
  // ---------------------------------------------------------------------------------------

  datatype Ticket = Ticket(call: Text, slot: nat)

  /** What happens next: an action of another task, or the branch the run takes. */
  datatype Moment =
    | CancelRequest
    | DuplicateStart
    | ReceiverDrops
    | Resolve(call: Text, output: Output)
    | OtherForwards(call: Text, other: Operation)
    | OtherEnds(ended: Operation)
    | NoticeCancel
    | Datum(data: Data)
    | Overflow
    | StreamBroken
    | StreamEnd
    | ResultArrives
    | Reply(ok: bool)

  datatype Outcome =
    | ContinueResponses(previous: Text)
    | ContinueChat(calls: seq<ChatCall>)
    | Finished
    | Unfinished

  /** The calls of the round under way: those registered after the results already sent. */
  ghost predicate Round(calls: seq<Ticket>, sent: nat, registered: seq<Text>) {
    && |calls| <= MAX_TOOL_CALLS && sent + |calls| == |registered|
    && forall i | 0 <= i < |calls| :: calls[i] == Ticket(registered[sent + i], sent + i)
  }

  /** The continuations carry the results sent; a chat conversation is in order in each of them. */
  ghost predicate Carried(style: Style, requests: seq<Body>, messages: seq<Message>, sent: seq<CallOutput>) {
    match style
    case Responses =>
      ResponsesOutputs(requests) == sent && forall body | body in requests :: body.ResponsesBody?
    case Chat =>
      && Owed(messages) == Some([]) && ToolOutputs(messages) == sent
      && (forall body | body in requests :: body.ChatBody? && Owed(body.messages) == Some([]))
      && (requests != [] ==> requests[|requests| - 1] == ChatBody(messages))
  }

  /** While the receiver is there it has seen every registered call, in order. */
  predicate CallsShown(emitted: seq<ProviderEvent>, open: bool, registered: seq<Text>, named: seq<ToolCall<Json>>) {
    && CallsIn(emitted) <= named && (open ==> CallsIn(emitted) == named)
    && |named| == |registered| && forall i | 0 <= i < |named| :: named[i].id == registered[i]
  }

  /** Calls are registered as they are named, in order; all of them, unless something stops it. */
  predicate Added(before: seq<ToolCall<Json>>, after: seq<ToolCall<Json>>, calls: seq<ToolCall<Json>>, all: bool) {
    before <= after <= before + calls && (all ==> after == before + calls)
  }

  /** Of the calls registered every one has been forwarded, whole and in order, while the receiver is there. */
  lemma WhatIsForwarded(emitted: seq<ProviderEvent>, open: bool, registered: seq<Text>, named: seq<ToolCall<Json>>,
                        before: seq<ToolCall<Json>>, calls: seq<ToolCall<Json>>, all: bool, i: nat)
    requires CallsShown(emitted, open, registered, named) && Added(before, named, calls, all)
    ensures open ==> CallsIn(emitted) == named
    ensures |named| == |registered| && (i < |named| ==> named[i].id == registered[i])
    ensures before <= named && |named| <= |before| + |calls| && (all ==> named == before + calls)
    ensures |before| <= i < |named| ==> named[i] == calls[i - |before|]
  {
    assert i < |named| ==> named[i] == (before + calls)[i];
  }

  /** In the responses style the requests carry the results sent; in the chat style each carries a conversation
      in order, and the last one all results. */
  lemma WhatIsCarried(style: Style, requests: seq<Body>, messages: seq<Message>, sent: seq<CallOutput>, i: nat)
    requires Carried(style, requests, messages, sent)
    ensures style.Responses? ==> ResponsesOutputs(requests) == sent
    ensures style.Responses? && i < |requests| ==> requests[i].ResponsesBody?
    ensures style.Chat? ==> Owed(messages) == Some([]) && ToolOutputs(messages) == sent
    ensures style.Chat? && i < |requests| ==> requests[i].ChatBody? && Owed(requests[i].messages) == Some([])
    ensures style.Chat? && i + 1 == |requests| ==> requests[i] == ChatBody(messages)
  {
    assert i < |requests| ==> requests[i] in requests;
  }

  /** The calls a moment of a response names: the one of an event, or those of the slots that are
      finished, with what was received before. */
  function NamedBy(style: Style, parse: Text -> Option<Json>, before: seq<Delta>, moment: Moment)
    : seq<ToolCall<Json>>
  {
    match moment
    case Datum(Value(responses, chat)) =>
      if style.Responses? then CallsIn(NormalizeResponses(responses))
      else if chat.finish.ToolCallsReason? && FirstRefusal(before, chat.deltas).None? then
        FinishedCalls(Slots(before + chat.deltas), parse)
      else []
    case _ => []
  }

  function FinishedCalls(calls: seq<ChatCall>, parse: Text -> Option<Json>): seq<ToolCall<Json>> {
    match FinishChatCalls(calls, parse) case Ok(finished) => finished case Err(_) => []
  }

  /** Each call is named whole: the one the responses style's value carries, or a slot's id and name with
      its arguments parsed. */
  lemma NamedWhole(style: Style, parse: Text -> Option<Json>, before: seq<Delta>, responses: ResponseData,
                   chat: ChatData)
    ensures var named := NamedBy(style, parse, before, Datum(Value(responses, chat)));
            var slots := Slots(before + chat.deltas);
            && (style.Responses? ==>
                  named == match responses case FunctionCall(Some(call)) => [call] case _ => [])
            && (style.Chat? && named != [] ==>
                  && chat.finish.ToolCallsReason? && |named| == |slots|
                  && forall i | 0 <= i < |named| ::
                       && parse(slots[i].arguments).Some?
                       && named[i] == ToolCall(slots[i].id, slots[i].name, parse(slots[i].arguments).value))
  {
    CallOfResponse(responses);
    hide CallsIn, NormalizeResponses, FirstRefusal;
  }

  lemma CallOfResponse(responses: ResponseData)
    ensures CallsIn(NormalizeResponses(responses))
            == match responses case FunctionCall(Some(call)) => [call] case _ => []
  {
    forall event: ProviderEvent
      ensures CallsIn([event]) == if event.ToolCallEvent? then [event.call] else []
    {
      assert [event][..0] == [];
    }
    if responses == ResponseCompleted(true) {
      assert [Usage, Completed][..1] == [Usage];
    }
  }

  /** What the values of each style come to. */
  lemma WhatResponsesMean(responses: ResponseData, chat: ChatData)
    ensures Normalize(Responses, responses, chat) == match responses
              case Created(id) => if id.Some? then [ConversationStarted(id.value)] else []
              case TextDelta(text) => if text.Some? then [ContentDelta(text.value)] else []
              case ReasoningOrArguments => [Activity]
              case FunctionCall(call) =>
                if call.Some? then [ToolCallEvent(call.value)] else [Failed(MalformedFunctionCall)]
              case ResponseCompleted(usage) => if usage then [Usage, Completed] else [Completed]
              case ResponseFailed => [Failed(ResponseFailure)]
              case Unknown => []
  {
  }

  lemma WhatChatValuesMean(responses: ResponseData, chat: ChatData)
    ensures var events := Normalize(Chat, responses, chat);
            && (forall id :: ConversationStarted(id) in events <==> chat.id == Some(id))
            && (forall text :: ContentDelta(text) in events <==> chat.text == Some(text))
            && (Usage in events <==> chat.usage) && (Completed in events <==> !chat.finish.NoReason?)
            && (forall event | event in events && IsTerminal(event) :: event == Completed)
            && |events| == (if chat.id.Some? then 1 else 0) + (if chat.text.Some? then 1 else 0)
                           + (if chat.usage then 1 else 0) + (if chat.finish.NoReason? then 0 else 1)
            && (chat.id.Some? ==> events[0] == ConversationStarted(chat.id.value))
            && (!chat.finish.NoReason? ==> events[|events| - 1] == Completed)
  {
  }

  /** The moments that a response does not outlive. */
  lemma WhatEndsResponses(style: Style, moment: Moment)
    ensures EndsResponse(style, moment) <==> match moment
              case Datum(Value(responses, chat)) =>
                if style.Responses? then
                  responses.ResponseCompleted? || responses.ResponseFailed? || responses == FunctionCall(None)
                else !chat.finish.NoReason?
              case Datum(Done) | Datum(NotJson) | Overflow | StreamBroken | StreamEnd => true
              case _ => false
  {
    if moment.Datum? && moment.data.Value? {
      if style.Responses? {
        WhatResponsesMean(moment.data.responses, moment.data.chat);
      } else {
        WhatChatValuesMean(moment.data.responses, moment.data.chat);
      }
      hide Normalize;
      var events := Normalize(style, moment.data.responses, moment.data.chat);
      NormalizedShape(style, moment.data.responses, moment.data.chat);
      if style.Responses? && events != [] {
        assert events[|events| - 1] in events;
      }
    }
  }

  predicate EndsResponse(style: Style, moment: Moment) {
    match moment
    case Datum(Value(responses, chat)) => exists event | event in Normalize(style, responses, chat) :: IsTerminal(event)
    case Datum(_) => true
    case Overflow => true
    case StreamBroken => true
    case StreamEnd => true
    case _ => false
  }

  /** The last event of a run tells what ended it. */
  predicate Explains(moment: Moment, event: ProviderEvent) {
    match moment
    case NoticeCancel => event == Cancelled
    case Datum(Done) => event == Completed
    case Datum(NotJson) => event == Failed(BadData)
    case Datum(Value(_, _)) => event.Completed? || event.Failed?
    case Overflow => event == Failed(EventTooLong)
    case StreamBroken => event == Failed(Disconnected)
    case StreamEnd => event == Failed(EndedEarly)
    case Reply(ok) => !ok && event == Failed(RequestFailed)
    case _ => false
  }

  /** The events a moment of the stream stands for. */
  function EventsOf(style: Style, moment: Moment): seq<ProviderEvent> {
    match moment
    case Datum(Value(responses, chat)) => Normalize(style, responses, chat)
    case _ => []
  }

  /** The tool-call fragments of a moment. */
  function DeltasOf(style: Style, moment: Moment): seq<Delta> {
    match moment
    case Datum(Value(_, chat)) => if style.Chat? then chat.deltas else []
    case _ => []
  }

  /** A chat value whose events are not looked at: it finishes the tool calls, or one of its fragments
      is refused after those received before. */
  predicate Drops(style: Style, before: seq<Delta>, moment: Moment) {
    && style.Chat? && moment.Datum? && moment.data.Value?
    && (moment.data.chat.finish.ToolCallsReason? || FirstRefusal(before, moment.data.chat.deltas).Some?)
  }

  /** The events of a moment that are looked at. */
  function Heard(style: Style, before: seq<Delta>, moment: Moment): seq<ProviderEvent> {
    if Drops(style, before, moment) then [] else EventsOf(style, moment)
  }

  function StreamDeltas(style: Style, script: seq<Moment>, from: nat, until: nat): seq<Delta> {
    if until <= from || |script| < until then []
    else StreamDeltas(style, script, from, until - 1) + DeltasOf(style, script[until - 1])
  }

  /** The events of a response that are looked at. */
  function StreamEvents(style: Style, script: seq<Moment>, from: nat, until: nat): seq<ProviderEvent> {
    if until <= from || |script| < until then []
    else
      StreamEvents(style, script, from, until - 1)
      + Heard(style, StreamDeltas(style, script, from, until - 1), script[until - 1])
  }

  /** All plain events of a value are passed on, except those of a chat value that drops some. */
  lemma WhatIsDropped(style: Style, before: seq<Delta>, responses: ResponseData, chat: ChatData)
    ensures var moment := Datum(Value(responses, chat));
            Plain(Heard(style, before, moment)) == Plain(EventsOf(style, moment))
            <==> !Drops(style, before, moment) || (chat.text.None? && !chat.usage)
  {
    var moment := Datum(Value(responses, chat));
    if Drops(style, before, moment) {
      ChatPlain(chat);
      NoPlain();
    }
  }

  function TextOr(text: Option<Text>): Text {
    match text case Some(t) => t case None => []
  }

  /** A list of at most one event. */
  function OneIf(there: bool, event: ProviderEvent): seq<ProviderEvent> {
    if there then [event] else []
  }

  lemma PlainIf(there: bool, event: ProviderEvent)
    ensures Plain(OneIf(there, event)) == OneIf(there && IsPlain(event), event)
  {
    PlainOne(event);
    NoPlain();
  }

  lemma ChatPlain(chat: ChatData)
    ensures Plain(NormalizeChat(chat)) ==
            OneIf(chat.text.Some?, ContentDelta(TextOr(chat.text))) + OneIf(chat.usage, Usage)
  {
    var start := OneIf(chat.id.Some?, ConversationStarted(TextOr(chat.id)));
    var text := OneIf(chat.text.Some?, ContentDelta(TextOr(chat.text)));
    var usage, end := OneIf(chat.usage, Usage), OneIf(!chat.finish.NoReason?, Completed);
    assert NormalizeChat(chat) == start + text + usage + end;
    PlainIf(chat.id.Some?, ConversationStarted(TextOr(chat.id)));
    PlainIf(chat.text.Some?, ContentDelta(TextOr(chat.text)));
    PlainIf(chat.usage, Usage);
    PlainIf(!chat.finish.NoReason?, Completed);
    hide Plain, NormalizeChat;
    PlainConcat(start + text + usage, end);
    PlainConcat(start + text, usage);
    PlainConcat(start, text);
    assert Plain(start) == [] && Plain(end) == [];
    hide OneIf;
    assert [] + Plain(text) + Plain(usage) + [] == Plain(text) + Plain(usage);
  }

  /** Text in a chat value that finishes tool calls is lost. */
  lemma FinishingTextIsLost(text: Text, delta: Delta)
    ensures var moment := Datum(Value(Unknown, ChatData(None, Some(text), false, ToolCallsReason, [delta])));
            && Plain(EventsOf(Chat, moment)) == [ContentDelta(text)]
            && Plain(Heard(Chat, [], moment)) == []
  {
    ChatPlain(ChatData(None, Some(text), false, ToolCallsReason, [delta]));
    NoPlain();
  }

  /** Another task asks the run to stop: a cancellation, or a start of the same operation, which is
      refused but takes the run's cancel sender away. */
  predicate Asks(moment: Moment) {
    moment.CancelRequest? || moment.DuplicateStart?
  }

  predicate Asked(script: seq<Moment>, n: nat) {
    exists i | 0 <= i < n && i < |script| :: Asks(script[i])
  }

  /** The run looks at its cancel signal after it was asked to stop. */
  predicate Noticed(script: seq<Moment>, i: nat) {
    i < |script| && script[i].NoticeCancel? && Asked(script, i)
  }

  predicate Unnoticed(script: seq<Moment>, from: nat, until: int) {
    forall i | from <= i < until :: !Noticed(script, i)
  }

  lemma AskedOneMore(script: seq<Moment>, from: nat, n: nat)
    requires from <= n < |script|
    ensures Asked(script, n + 1) <==> Asked(script, n) || Asks(script[n])
    ensures Noticed(script, n) <==> script[n].NoticeCancel? && Asked(script, n)
    ensures Unnoticed(script, from, n + 1) <==> Unnoticed(script, from, n) && !Noticed(script, n)
  {
  }

  class StreamRun {
    const style: Style
    const operation: Operation
    const parse: Text -> Option<Json>
    // Shared with other tasks.
    var pending: map<Text, Owner>
    var answers: map<nat, Output>
    var cancelled: bool
    var receiverOpen: bool
    // The run's own.
    var emitted: seq<ProviderEvent>
    var requests: seq<Body>
    var started: bool
    var calls: seq<Ticket>
    var messages: seq<Message>
    // The result channels created so far, each by the call it was created for.
    var registered: seq<Text>
    ghost var named: seq<ToolCall<Json>>
    ghost var sent: seq<CallOutput>

    ghost predicate Valid()
      reads this`pending, this`answers, this`receiverOpen, this`emitted, this`requests,
            this`started, this`calls, this`messages, this`registered, this`named, this`sent
    {
      && Registry(pending, answers, registered)
      && Paired(sent, 0, registered, answers)
      && Round(calls, |sent|, registered)
      && Carried(style, requests, messages, sent)
      && Starts(emitted) <= (if started then 1 else 0)
      && CallsShown(emitted, receiverOpen, registered, named)
    }

    constructor (style: Style, operation: Operation, parse: Text -> Option<Json>, pending: map<Text, Owner>)
      requires forall call | call in pending :: pending[call].Other? && pending[call].operation != operation
      ensures Valid() && NoTerminal(emitted) && receiverOpen && !cancelled
      ensures calls == [] && emitted == [] && named == []
      ensures this.style == style && this.operation == operation && this.parse == parse && this.pending == pending
    {
      this.style := style;
      this.operation := operation;
      this.parse := parse;
      this.pending := pending;
      answers := map[];
      cancelled := false;
      receiverOpen := true;
      emitted := [];
      requests := [];
      started := false;
      calls := [];
      messages := if style.Chat? then [User] else [];
      registered := [];
      named := [];
      sent := [];
      new;
      assert [User][..0] == [];
    }

    method Send(event: ProviderEvent) returns (ok: bool)
      modifies this`emitted
      ensures ok == receiverOpen
      ensures emitted == if ok then old(emitted) + [event] else old(emitted)
    {
      ok := receiverOpen;
      if ok {
        emitted := emitted + [event];
      }
    }

    /** The last event of a run. */
    method SendLast(event: ProviderEvent)
      requires Valid() && NoTerminal(emitted) && IsTerminal(event)
      modifies this`emitted
      ensures Valid() && Ended(emitted, receiverOpen) && Stopped(Finished)
      ensures emitted == if receiverOpen then old(emitted) + [event] else old(emitted)
      ensures Plain(emitted) == Plain(old(emitted))
    {
      PlainReactions(emitted, event);
      PlainOne(event);
      LastOne(emitted, receiverOpen, registered, event);
      hide Starts, CallsIn, NoTerminal, Registry, Paired, Round, Carried, Ended;
      var _ := Send(event);
    }

    /** Sends an event that is neither terminal nor a tool call. */
    method Pass(event: ProviderEvent) returns (ok: bool)
      requires Valid() && NoTerminal(emitted)
      requires !IsTerminal(event) && !event.ToolCallEvent? && !event.ConversationStarted?
      modifies this`emitted
      ensures Valid() && NoTerminal(emitted) && ok == receiverOpen
      ensures !ok ==> Ended(emitted, receiverOpen)
      ensures emitted == if ok then old(emitted) + [event] else old(emitted)
    {
      EmitOne(emitted, event);
      hide Starts, CallsIn, NoTerminal, Registry, Paired, Round, Carried, Ended;
      ok := Send(event);
    }

    /** Announces the conversation the first time it is named. */
    method StartConversation(event: ProviderEvent) returns (ok: bool)
      requires Valid() && NoTerminal(emitted) && event.ConversationStarted?
      modifies this`emitted, this`started
      ensures Valid() && NoTerminal(emitted) && started && ok == (old(started) || receiverOpen)
      ensures !ok ==> Ended(emitted, receiverOpen)
      ensures emitted == if old(started) || !receiverOpen then old(emitted) else old(emitted) + [event]
    {
      EmitOne(emitted, event);
      hide Starts, CallsIn, NoTerminal, Registry, Paired, Round, Carried, Ended;
      ok := true;
      if !started {
        started := true;
        ok := Send(event);
      }
    }

    /** Registers a call and announces it, unless there are too many or one of that identifier
        still waits. */
    method RegisterToolCall(call: ToolCall<Json>) returns (error: Option<Problem>)
      requires Valid() && NoTerminal(emitted)
      modifies this`pending, this`calls, this`emitted, this`registered, this`named
      ensures Valid() && NoTerminal(emitted)
      ensures Plain(emitted) == Plain(old(emitted))
      ensures error == if |old(calls)| >= MAX_TOOL_CALLS then Some(TooManyToolCalls)
                       else if call.id in old(pending) then Some(RepeatedCall)
                       else if receiverOpen then None
                       else Some(ReceiverClosed)
      ensures |old(calls)| >= MAX_TOOL_CALLS || call.id in old(pending) ==>
                emitted == old(emitted) && calls == old(calls) && named == old(named) && pending == old(pending)
      ensures |old(calls)| < MAX_TOOL_CALLS && call.id !in old(pending) ==>
                && named == old(named) + [call]
                && pending == old(pending)[call.id := Own(|old(registered)|)]
                && calls == old(calls) + [Ticket(call.id, |old(registered)|)]
                && emitted == (if receiverOpen then old(emitted) + [ToolCallEvent(call)] else old(emitted))
    {
      hide *;
      if |calls| >= MAX_TOOL_CALLS {
        return Some(TooManyToolCalls);
      }
      if call.id in pending {
        return Some(RepeatedCall);
      }
      Enter(call);
      return if receiverOpen then None else Some(ReceiverClosed);
    }

    /** A call enters the shared table and the round, and is announced. */
    method Enter(call: ToolCall<Json>)
      requires Valid() && NoTerminal(emitted) && |calls| < MAX_TOOL_CALLS && call.id !in pending
      modifies this`pending, this`calls, this`emitted, this`registered, this`named
      ensures Valid() && NoTerminal(emitted) && Plain(emitted) == Plain(old(emitted))
      ensures named == old(named) + [call] && calls == old(calls) + [Ticket(call.id, |old(registered)|)]
      ensures pending == old(pending)[call.id := Own(|old(registered)|)]
      ensures emitted == if receiverOpen then old(emitted) + [ToolCallEvent(call)] else old(emitted)
    {
      ghost var after := if receiverOpen then emitted + [ToolCallEvent(call)] else emitted;
      RegisterOne(pending, answers, registered, call.id);
      RegisterMore(calls, sent, registered, answers, call.id);
      AnnounceOne(emitted, after, receiverOpen, registered, named, call);
      hide Starts, CallsIn, NoTerminal, Registry, Carried, Paired, Round, CallsShown, Plain;
      pending := pending[call.id := Own(|registered|)];
      calls := calls + [Ticket(call.id, |registered|)];
      registered := registered + [call.id];
      named := named + [call];
      var _ := Send(ToolCallEvent(call));
      assert emitted == after;
    }

    /** One normalized event. */
    method HandleEvent(event: ProviderEvent, id: Option<Text>)
      returns (outcome: Option<Outcome>, responseId: Option<Text>)
      requires Valid() && NoTerminal(emitted) && (event.ToolCallEvent? || calls != [] ==> style.Responses?)
      modifies this`pending, this`calls, this`emitted, this`registered, this`named, this`started
      ensures Valid()
      ensures responseId == if event.ConversationStarted? then Some(event.id) else id
      ensures outcome.None? ==>
                NoTerminal(emitted) && !event.Completed? && !event.Failed? && !event.Cancelled? && !IsTerminal(event)
      ensures outcome.Some? ==> Stopped(outcome.value)
      ensures outcome.Some? && outcome.value != Finished ==>
                && event.Completed? && calls != [] && id.Some? && outcome.value == ContinueResponses(id.value)
                && emitted == old(emitted)
      ensures event.Completed? && calls == [] ==> emitted == old(emitted) + (if receiverOpen then [Completed] else [])
      ensures event.Completed? && calls != [] && id.None? && receiverOpen ==>
                emitted == old(emitted) + [Failed(NoResponseId)]
      ensures event.ConversationStarted? ==>
                started && emitted == if old(started) || !receiverOpen then old(emitted) else old(emitted) + [event]
      ensures IsPlain(event) || event.Cancelled? || event.Failed? ==>
                emitted == if receiverOpen then old(emitted) + [event] else old(emitted)
      ensures event.ToolCallEvent? && receiverOpen ==>
                emitted == old(emitted) + [if |old(calls)| >= MAX_TOOL_CALLS then Failed(TooManyToolCalls)
                                           else if event.call.id in old(pending) then Failed(RepeatedCall)
                                           else event]
      ensures (IsPlain(event) || event.ConversationStarted?) && outcome.Some? ==> !receiverOpen
      ensures outcome == Some(Finished) && receiverOpen ==>
                && emitted != []
                && var last := emitted[|emitted| - 1];
                   last.Completed? || last.Failed? || (last == Cancelled && event == Cancelled)
      ensures receiverOpen ==> Plain(emitted) == Plain(old(emitted)) + Plain([event])
      ensures style.Chat? ==> calls == []
      ensures Added(old(named), named, CallsIn([event]), outcome != Some(Finished))
      ensures OthersStay(old(pending), pending, [], 0, 0)
    {
      PlainReactions(emitted, event);
      CallOf(named, event);
      EventKinds(event);
      NothingTaken(pending, [], 0, 0);
      NoneAdded(named, CallsIn([event]));
      hide *;
      outcome, responseId := None, id;
      if event.ToolCallEvent? {
        var error := HandleCall(event.call);
        if error.Some? {
          outcome := Some(Finished);
        }
      } else if event.Completed? {
        var end := HandleCompleted(id);
        outcome := Some(end);
      } else if event.Cancelled? || event.Failed? {
        SendLast(event);
        outcome := Some(Finished);
      } else {
        responseId := if event.ConversationStarted? then Some(event.id) else id;
        var ok := Report(event);
        outcome := if ok then None else Some(Finished);
      }
    }

    /** An event that neither ends the response nor calls a tool. */
    method Report(event: ProviderEvent) returns (ok: bool)
      requires Valid() && NoTerminal(emitted) && (IsPlain(event) || event.ConversationStarted?)
      modifies this`emitted, this`started
      ensures Valid() && NoTerminal(emitted) && (!ok ==> Stopped(Finished) && !receiverOpen)
      ensures IsPlain(event) ==> emitted == if receiverOpen then old(emitted) + [event] else old(emitted)
      ensures event.ConversationStarted? ==>
                started && emitted == if old(started) || !receiverOpen then old(emitted) else old(emitted) + [event]
      ensures receiverOpen ==> Plain(emitted) == Plain(old(emitted)) + Plain([event])
    {
      PlainReactions(emitted, event);
      EventKinds(event);
      hide *;
      if event.ConversationStarted? {
        ok := StartConversation(event);
      } else {
        ok := Pass(event);
      }
      HowItStops(this, []);
    }

    /** A completion: with open calls the run goes on, if the response has said who it is. */
    method HandleCompleted(id: Option<Text>) returns (outcome: Outcome)
      requires Valid() && NoTerminal(emitted) && (calls != [] ==> style.Responses?)
      modifies this`emitted
      ensures Valid() && Stopped(outcome) && Plain(emitted) == Plain(old(emitted))
      ensures outcome == if calls != [] && id.Some? then ContinueResponses(id.value) else Finished
      ensures emitted == old(emitted) + if outcome != Finished || !receiverOpen then []
                                        else [if calls == [] then Completed else Failed(NoResponseId)]
    {
      EventKinds(Completed);
      EventKinds(Failed(NoResponseId));
      hide *;
      if calls == [] {
        SendLast(Completed);
        return Finished;
      }
      if id.None? {
        SendLast(Failed(NoResponseId));
        return Finished;
      }
      HowItStops(this, id.value);
      return ContinueResponses(id.value);
    }

    /** A call of the responses style: it is registered, or its refusal ends the run. */
    method HandleCall(call: ToolCall<Json>) returns (error: Option<Problem>)
      requires Valid() && NoTerminal(emitted)
      modifies this`pending, this`calls, this`emitted, this`registered, this`named
      ensures Valid() && (if error.None? then NoTerminal(emitted) else Stopped(Finished))
      ensures error == if |old(calls)| >= MAX_TOOL_CALLS then Some(TooManyToolCalls)
                       else if call.id in old(pending) then Some(RepeatedCall)
                       else if receiverOpen then None
                       else Some(ReceiverClosed)
      ensures receiverOpen ==>
                emitted == old(emitted) + [if error.None? then ToolCallEvent(call) else Failed(error.value)]
      ensures Plain(emitted) == Plain(old(emitted))
      ensures Added(old(named), named, [call], error.None?) && OthersStay(old(pending), pending, [], 0, 0)
    {
      NothingTaken(pending, [], 0, 0);
      NoneAdded(named, [call]);
      OneAdded(named, call);
      NothingTakenBy(pending, call.id, Own(|registered|));
      hide *;
      error := RegisterToolCall(call);
      if error.Some? {
        EventKinds(Failed(error.value));
        SendLast(Failed(error.value));
      }
    }

    /** What other tasks do: ask for cancellation (or start the operation again, which also ends
        it), drop the receiver, hand in a result, change their own calls. */
    method Interfere(moment: Moment)
      requires Valid()
      modifies this`pending, this`answers, this`cancelled, this`receiverOpen
      ensures Valid()
      ensures receiverOpen ==> old(receiverOpen)
      ensures cancelled <==> old(cancelled) || Asks(moment)
      ensures Extends(answers, old(answers))
      ensures OthersStay(old(pending), pending, [moment], 0, 1)
      ensures moment.Resolve? && moment.call in old(pending) && old(pending)[moment.call].Own? ==>
                old(pending)[moment.call].slot in answers && answers[old(pending)[moment.call].slot] == moment.output
    {
      hide Carried, Round, CallsIn, Starts;
      NothingTaken(pending, [moment], 0, 1);
      assert [moment][0] == moment;
      match moment {
        case CancelRequest =>
          cancelled := true;
        case DuplicateStart =>
          cancelled := true;
        case ReceiverDrops =>
          receiverOpen := false;
        case Resolve(call, output) =>
          TakeResult(call, output);
        case OtherForwards(call, other) =>
          if call !in pending {
            pending := pending[call := Other(other)];
          }
        case OtherEnds(ended) =>
          pending := map call | call in pending && pending[call] != Other(ended) :: pending[call];
        case _ =>
      }
    }

    /** A result is handed in: it is for this run, for another, or for none. */
    method TakeResult(call: Text, output: Output)
      requires Valid()
      modifies this`pending, this`answers
      ensures Valid() && Extends(answers, old(answers))
      ensures pending == old(pending) - {call}
      ensures answers == if call in old(pending) && old(pending)[call].Own?
                         then old(answers)[old(pending)[call].slot := output]
                         else old(answers)
    {
      if call in pending {
        AnswerOne(pending, answers, registered, call, output);
        PairedStays(sent, 0, registered, answers, if pending[call].Own? then answers[pending[call].slot := output]
                                                  else answers);
        hide Registry, Paired, Round, Carried, CallsShown, Starts, CallsIn;
        var owner := pending[call];
        pending := pending - {call};
        if owner.Own? {
          answers := answers[owner.slot := output];
        }
      }
    }

    /** The events of one value, of which only the last may end the response: all its plain events are
        passed on. */
    method HandleEvents(events: seq<ProviderEvent>, id: Option<Text>)
      returns (outcome: Option<Outcome>, responseId: Option<Text>)
      requires Valid() && NoTerminal(emitted) && OnlyLastEnds(events)
      requires style.Chat? ==> calls == [] && forall event | event in events :: !event.ToolCallEvent?
      modifies this`pending, this`calls, this`emitted, this`registered, this`named, this`started
      ensures Valid() && (style.Chat? ==> calls == [])
      ensures outcome.None? ==> NoTerminal(emitted) && forall event | event in events :: !IsTerminal(event)
      ensures outcome.Some? ==> Stopped(outcome.value) && !outcome.value.Unfinished? && !outcome.value.ContinueChat?
      ensures outcome == Some(Finished) && receiverOpen ==>
                emitted != [] && (emitted[|emitted| - 1].Completed? || emitted[|emitted| - 1].Failed?)
      ensures receiverOpen ==> Plain(emitted) == Plain(old(emitted)) + Plain(events)
      ensures Added(old(named), named, CallsIn(events), outcome != Some(Finished))
      ensures OthersStay(old(pending), pending, [], 0, 0)
    {
      hide *;
      outcome, responseId := None, id;
      NothingPlain(emitted, events);
      NothingTaken(pending, [], 0, 0);
      NothingAdded(named, events);
      for i := 0 to |events|
        invariant outcome.None? && Valid() && NoTerminal(emitted) && (style.Chat? ==> calls == [])
        invariant forall event | event in events[..i] :: !IsTerminal(event)
        invariant receiverOpen ==> Plain(emitted) == Plain(old(emitted)) + Plain(events[..i])
        invariant Added(old(named), named, CallsIn(events[..i]), true)
        invariant OthersStay(old(pending), pending, [], 0, 0)
      {
        WhatEnds(events, i);
        assert events[i] in events && events[..i + 1] == events[..i] + [events[i]];
        PlainConcat(events[..i], [events[i]]);
        ghost var n, p := named, pending;
        outcome, responseId := HandleEvent(events[i], responseId);
        AddedOne(old(named), n, named, events, i, outcome != Some(Finished));
        TakenJoin(old(pending), p, pending, [], 0, 0, 0);
        if outcome.Some? {
          assert i + 1 == |events| ==> events[..i + 1] == events;
          OnlyLastAdds(old(named), named, events, i + 1, outcome != Some(Finished));
          return;
        }
      }
      assert events[..|events|] == events;
    }

    /** A chat value's fragments of tool calls, and the calls themselves once the provider has
        finished them. */
    method ChatToolOutcome(data: ChatData, chat: ChatAccumulator) returns (r: Result<Option<Outcome>, Problem>)
      requires Valid() && NoTerminal(emitted) && calls == [] && style.Chat? && chat.Valid()
      modifies this`pending, this`calls, this`emitted, this`registered, this`named, chat
      ensures Valid() && NoTerminal(emitted) && Plain(emitted) == Plain(old(emitted))
      ensures r.Ok? && r.value.None? <==>
                !data.finish.ToolCallsReason? && FirstRefusal(old(chat.received), data.deltas).None?
      ensures r.Ok? && r.value.None? ==> calls == [] && emitted == old(emitted)
      ensures FirstRefusal(old(chat.received), data.deltas).Some? ==> emitted == old(emitted)
      ensures r.Ok? && r.value.Some? ==>
                && data.finish.ToolCallsReason? && FinishChatCalls(chat.calls, parse).Ok?
                && r.value.value == ContinueChat(chat.calls) && Stopped(r.value.value)
      ensures r.Ok? ==> chat.Valid() && chat.received == old(chat.received) + data.deltas
      // Why it fails.
      ensures FirstRefusal(old(chat.received), data.deltas).Some? ==>
                r == Err(BadChatCalls(FirstRefusal(old(chat.received), data.deltas).value))
      ensures FirstRefusal(old(chat.received), data.deltas).None? && data.finish.ToolCallsReason? ==>
                var finished := FinishChatCalls(Slots(old(chat.received) + data.deltas), parse);
                && (finished.Err? ==> r == Err(BadChatCalls(finished.error)))
                && (finished.Ok? && r.Err? ==>
                      r.error.TooManyToolCalls? || r.error.RepeatedCall? || r.error.ReceiverClosed?)
      // The calls forwarded are the slots', each with its id, its name and its arguments parsed.
      ensures r.Ok? && r.value.Some? && receiverOpen ==> Forwarded(parse, old(emitted), emitted, chat.calls)
      ensures Added(old(named), named, NamedBy(style, parse, old(chat.received), Datum(Value(Unknown, data))), r.Ok?)
      ensures OthersStay(old(pending), pending, [], 0, 0)
    {
      ghost var names := NamedBy(style, parse, chat.received, Datum(Value(Unknown, data)));
      NothingTaken(pending, [], 0, 0);
      NoneAdded(named, names);
      ChatNames(style, parse, chat.received, Unknown, data);
      hide *;
      var refused := chat.Accumulate(data.deltas);
      SlotsHeld(chat);
      if refused.Some? {
        return Err(BadChatCalls(refused.value));
      }
      if !data.finish.ToolCallsReason? {
        return Ok(None);
      }
      SlotsAreNamed(parse, chat, old(chat.received), data);
      r := FinishRound(chat);
    }

    /** The provider has finished its calls: they are the slots', and are registered. */
    method FinishRound(chat: ChatAccumulator) returns (r: Result<Option<Outcome>, Problem>)
      requires Valid() && NoTerminal(emitted) && calls == [] && style.Chat? && chat.Valid()
      modifies this`pending, this`calls, this`emitted, this`registered, this`named
      ensures Valid() && NoTerminal(emitted) && Plain(emitted) == Plain(old(emitted))
      ensures r.Ok? ==> FinishChatCalls(chat.calls, parse).Ok?
      ensures FinishChatCalls(chat.calls, parse).Err? ==>
                r == Err(BadChatCalls(FinishChatCalls(chat.calls, parse).error))
      ensures FinishChatCalls(chat.calls, parse).Ok? && r.Err? ==>
                r.error.TooManyToolCalls? || r.error.RepeatedCall? || r.error.ReceiverClosed?
      ensures r.Ok? ==> r.value == Some(ContinueChat(chat.calls)) && Stopped(r.value.value)
      ensures r.Ok? && receiverOpen ==> Forwarded(parse, old(emitted), emitted, chat.calls)
      ensures Added(old(named), named, FinishedCalls(chat.calls, parse), r.Ok?)
      ensures OthersStay(old(pending), pending, [], 0, 0)
    {
      NothingTaken(pending, [], 0, 0);
      NoneAdded(named, FinishedCalls(chat.calls, parse));
      var finished := FinishChatCalls(chat.calls, parse);
      assert finished.Ok? ==> FinishedCalls(chat.calls, parse) == finished.value;
      hide *;
      if finished.Err? {
        return Err(BadChatCalls(finished.error));
      }
      var error := RegisterFinished(finished.value);
      if error.Some? {
        return Err(error.value);
      }
      RoundAsked(this, chat.calls, finished.value);
      if receiverOpen {
        AllForwarded(parse, old(emitted), emitted, chat.calls);
      }
      return Ok(Some(ContinueChat(chat.calls)));
    }

    /** Registers the finished calls in turn, each as it is. */
    method RegisterFinished(finished: seq<ToolCall<Json>>) returns (error: Option<Problem>)
      requires Valid() && NoTerminal(emitted) && calls == []
      modifies this`pending, this`calls, this`emitted, this`registered, this`named
      ensures Valid() && NoTerminal(emitted) && Plain(emitted) == Plain(old(emitted))
      ensures Added(old(named), named, finished, error.None?)
      ensures error.None? ==> Registers(calls, finished)
      ensures error.None? && receiverOpen ==> Announced(old(emitted), emitted, finished)
      ensures error.Some? ==> error.value.TooManyToolCalls? || error.value.RepeatedCall? || error.value.ReceiverClosed?
      ensures OthersStay(old(pending), pending, [], 0, 0)
    {
      hide Starts, CallsIn, NoTerminal, Registry, Paired, Round, Carried, CallsShown, Ended, Plain, StreamRun.Valid;
      NothingTaken(pending, [], 0, 0);
      for i := 0 to |finished|
        invariant Valid() && NoTerminal(emitted) && Plain(emitted) == Plain(old(emitted))
        invariant |calls| == i && forall k | 0 <= k < i :: calls[k].call == finished[k].id
        invariant named == old(named) + finished[..i]
        invariant receiverOpen ==>
                    && |emitted| == |old(emitted)| + i && old(emitted) <= emitted
                    && forall k | 0 <= k < i :: emitted[|old(emitted)| + k] == ToolCallEvent(finished[k])
        invariant OthersStay(old(pending), pending, [], 0, 0)
      {
        assert finished[..i + 1] == finished[..i] + [finished[i]];
        error := RegisterToolCall(finished[i]);
        if error.Some? {
          return;
        }
      }
      assert finished[..|finished|] == finished;
      return None;
    }

    ghost function AsOutside(): Outside
      reads this`emitted, this`receiverOpen, this`named, this`pending
    {
      Outside(emitted, receiverOpen, named, pending)
    }

    /** One JSON value of the stream. All its plain events are passed on unless the value drops them, and
        the calls it names are registered as they are. */
    method HandleValue(responses: ResponseData, data: ChatData, chat: ChatAccumulator, id: Option<Text>)
      returns (outcome: Option<Outcome>, responseId: Option<Text>)
      requires Valid() && NoTerminal(emitted) && chat.Valid() && (style.Chat? ==> calls == [])
      modifies this`pending, this`calls, this`emitted, this`registered, this`named, this`started, chat
      ensures Valid() && (outcome.None? ==> NoTerminal(emitted) && chat.Valid() && (style.Chat? ==> calls == []))
      ensures outcome.None? ==> chat.received == old(chat.received) + DeltasOf(style, Datum(Value(responses, data)))
      ensures outcome.None? ==> forall event | event in Normalize(style, responses, data) :: !IsTerminal(event)
      ensures outcome.Some? ==> Stopped(outcome.value) && !outcome.value.Unfinished?
      ensures outcome == Some(Finished) && receiverOpen ==>
                emitted != [] && (emitted[|emitted| - 1].Completed? || emitted[|emitted| - 1].Failed?)
      ensures Proceeds(style, parse, old(AsOutside()), AsOutside(), old(chat.received), Datum(Value(responses, data)),
                       outcome != Some(Finished))
    {
      NormalizedShape(style, responses, data);
      ValueIs(style, chat.received, responses, data);
      hide *;
      Looks(this);
      if style.Chat? {
        outcome, responseId := HandleChatValue(responses, data, chat, id);
      } else {
        ghost var before, received := AsOutside(), chat.received;
        outcome, responseId := HandleEvents(Normalize(style, responses, data), id);
        Looks(this);
        ResponseProceeds(style, parse, before, AsOutside(), received, responses, data, outcome != Some(Finished));
      }
    }

    method HandleChatValue(responses: ResponseData, data: ChatData, chat: ChatAccumulator, id: Option<Text>)
      returns (outcome: Option<Outcome>, responseId: Option<Text>)
      requires Valid() && NoTerminal(emitted) && chat.Valid() && style.Chat? && calls == []
      modifies this`pending, this`calls, this`emitted, this`registered, this`named, this`started, chat
      ensures Valid() && (outcome.None? ==> NoTerminal(emitted) && chat.Valid() && calls == [])
      ensures outcome.None? ==> chat.received == old(chat.received) + data.deltas
      ensures outcome.None? ==> forall event | event in Normalize(style, responses, data) :: !IsTerminal(event)
      ensures outcome.Some? ==> Stopped(outcome.value) && !outcome.value.Unfinished?
      ensures outcome == Some(Finished) && receiverOpen ==>
                emitted != [] && (emitted[|emitted| - 1].Completed? || emitted[|emitted| - 1].Failed?)
      ensures FirstRefusal(old(chat.received), data.deltas).Some? ==>
                && outcome == Some(Finished)
                && var problem := BadChatCalls(FirstRefusal(old(chat.received), data.deltas).value);
                   emitted == old(emitted) + if receiverOpen then [Failed(problem)] else []
      ensures Proceeds(style, parse, old(AsOutside()), AsOutside(), old(chat.received), Datum(Value(responses, data)),
                       outcome != Some(Finished))
    {
      NormalizedShape(style, responses, data);
      Endings();
      hide *;
      ghost var before, received := AsOutside(), chat.received;
      Looks(this);
      var r := ChatToolOutcome(data, chat);
      ghost var mid := AsOutside();
      Looks(this);
      if r.Err? {
        SendLast(Failed(r.error));
        Looks(this);
        DroppedProceeds(parse, before, AsOutside(), received, responses, data, false);
        return Some(Finished), id;
      }
      if r.value.Some? {
        DroppedProceeds(parse, before, AsOutside(), received, responses, data, true);
        return r.value, id;
      }
      outcome, responseId := HandleEvents(Normalize(style, responses, data), id);
      Looks(this);
      ChatProceeds(parse, before, mid, AsOutside(), received, responses, data, outcome != Some(Finished));
    }

    /** One piece of data of the stream. */
    method HandleData(data: Data, chat: ChatAccumulator, id: Option<Text>)
      returns (outcome: Option<Outcome>, responseId: Option<Text>)
      requires Valid() && NoTerminal(emitted) && chat.Valid() && (style.Chat? ==> calls == [])
      modifies this`pending, this`calls, this`emitted, this`registered, this`named, this`started, chat
      ensures Valid() && (outcome.None? ==> NoTerminal(emitted) && chat.Valid() && (style.Chat? ==> calls == []))
      ensures outcome.None? ==> chat.received == old(chat.received) + DeltasOf(style, Datum(data))
      ensures outcome.None? ==> !EndsResponse(style, Datum(data))
      ensures outcome.Some? ==> Stopped(outcome.value) && !outcome.value.Unfinished?
      ensures outcome == Some(Finished) && receiverOpen ==>
                emitted != [] && Explains(Datum(data), emitted[|emitted| - 1])
      ensures Proceeds(style, parse, old(AsOutside()), AsOutside(), old(chat.received), Datum(data),
                       outcome != Some(Finished))
    {
      hide Starts, CallsIn, NoTerminal, Registry, Paired, Round, Carried, CallsShown, Ended, StreamRun.Valid, Holds,
           Normalize, FirstRefusal, Plain, Heard, NamedBy, Proceeds, Slots, FinishedCalls;
      ghost var before, received := AsOutside(), chat.received;
      match data {
        case Done =>
          if id.Some? && calls != [] {
            NothingProceeds(style, parse, before, AsOutside(), received, Datum(data), true);
            return Some(ContinueResponses(id.value)), id;
          }
          SendLast(Completed);
          NothingProceeds(style, parse, before, AsOutside(), received, Datum(data), false);
          return Some(Finished), id;
        case NotJson =>
          SendLast(Failed(BadData));
          NothingProceeds(style, parse, before, AsOutside(), received, Datum(data), false);
          return Some(Finished), id;
        case Value(responses, value) =>
          outcome, responseId := HandleValue(responses, value, chat, id);
      }
    }

    /** One moment of a response: a cancellation, a piece of data, an end of the stream, or an action
        of another task. */
    method HandleMoment(moment: Moment, chat: ChatAccumulator, id: Option<Text>)
      returns (outcome: Option<Outcome>, responseId: Option<Text>)
      requires Valid() && NoTerminal(emitted) && chat.Valid() && (style.Chat? ==> calls == [])
      modifies this`pending, this`answers, this`cancelled, this`receiverOpen, this`calls, this`emitted,
               this`registered, this`named, this`started, chat
      ensures Valid() && (outcome.None? ==> NoTerminal(emitted) && chat.Valid() && (style.Chat? ==> calls == []))
      ensures outcome.None? ==> chat.received == old(chat.received) + DeltasOf(style, moment)
      ensures cancelled <==> old(cancelled) || Asks(moment)
      ensures outcome.None? ==> !EndsResponse(style, moment)
      ensures moment.NoticeCancel? ==> outcome == if old(cancelled) then Some(Finished) else None
      ensures outcome.Some? ==>
                Stopped(outcome.value) && !outcome.value.Unfinished? && (outcome.value.Finished? || moment.Datum?)
      ensures outcome == Some(Finished) && receiverOpen ==>
                emitted != [] && Explains(moment, emitted[|emitted| - 1])
      ensures Proceeds(style, parse, old(AsOutside()), AsOutside(), old(chat.received), moment,
                       outcome != Some(Finished))
    {
      OtherMoments(style, parse, moment, chat.received);
      OnlyTheyAsk(moment);
      hide *;
      if moment.Datum? {
        outcome, responseId := HandleData(moment.data, chat, id);
        assert Datum(moment.data) == moment;
      } else {
        ghost var before := AsOutside();
        Looks(this);
        outcome := HandleOther(moment);
        responseId := id;
        Looks(this);
        NothingProceeds(style, parse, before, AsOutside(), chat.received, moment, outcome != Some(Finished));
      }
    }

    /** A moment that brings no data. */
    method HandleOther(moment: Moment) returns (outcome: Option<Outcome>)
      requires Valid() && NoTerminal(emitted) && !moment.Datum?
      modifies this`pending, this`answers, this`cancelled, this`receiverOpen, this`emitted
      ensures Valid() && (outcome.None? ==> NoTerminal(emitted))
      ensures receiverOpen ==> old(receiverOpen)
      ensures cancelled <==> old(cancelled) || Asks(moment)
      ensures outcome.None? ==> !EndsResponse(style, moment)
      ensures moment.NoticeCancel? ==> outcome == if old(cancelled) then Some(Finished) else None
      ensures outcome.Some? ==> outcome == Some(Finished) && Stopped(Finished)
      ensures outcome.Some? && receiverOpen ==> emitted != [] && Explains(moment, emitted[|emitted| - 1])
      ensures Plain(emitted) == Plain(old(emitted)) && OthersStay(old(pending), pending, [moment], 0, 1)
    {
      OtherMoments(style, parse, moment, []);
      OnlyTheyAsk(moment);
      Endings();
      NothingTaken(pending, [moment], 0, 1);
      hide *;
      outcome := None;
      if moment.NoticeCancel? {
        if cancelled {
          SendLast(Cancelled);
          outcome := Some(Finished);
        }
      } else if moment.Overflow? {
        SendLast(Failed(EventTooLong));
        outcome := Some(Finished);
      } else if moment.StreamBroken? {
        SendLast(Failed(Disconnected));
        outcome := Some(Finished);
      } else if moment.StreamEnd? {
        SendLast(Failed(EndedEarly));
        outcome := Some(Finished);
      } else {
        Interfere(moment);
      }
    }

    /** One response, from a position of the script on. */
    method ConsumeSse(script: seq<Moment>, at: nat) returns (outcome: Outcome, next: nat)
      requires at <= |script| && Valid() && NoTerminal(emitted) && calls == []
      requires cancelled <==> Asked(script, at)
      modifies this
      ensures Valid() && at <= next <= |script|
      ensures if outcome.Finished? || outcome.Unfinished? then Over(script, next, outcome) else Stopped(outcome)
      ensures !outcome.Unfinished? ==> at < next && (outcome.Finished? || script[next - 1].Datum?)
      // While the receiver is there, every plain event that is looked at is passed on, in order; the
      // calls named are registered, all of them unless the run ends.
      ensures StreamProceeds(style, parse, old(AsOutside()), AsOutside(), script, at, next, next, !outcome.Finished?)
      ensures at <= next && Outlived(style, script, at, if outcome.Unfinished? then next else next - 1)
      // A cancellation ends the response when it is noticed, and only then.
      ensures cancelled <==> Asked(script, next)
      ensures Unnoticed(script, at, if outcome.Finished? then next - 1 else next)
    {
      StreamStarts(style, parse, AsOutside(), script, at);
      NothingAsked(script, at);
      hide *;
      var chat := new ChatAccumulator();
      var responseId: Option<Text> := None;
      next := at;
      while next < |script|
        invariant at <= next <= |script| && fresh(chat)
        invariant Outlived(style, script, at, next)
        invariant StreamProceeds(style, parse, old(AsOutside()), AsOutside(), script, at, next, next, true)
        invariant chat.received == StreamDeltas(style, script, at, next)
        invariant cancelled <==> Asked(script, next)
        invariant Unnoticed(script, at, next)
        invariant Valid() && NoTerminal(emitted) && chat.Valid() && (style.Chat? ==> calls == [])
        decreases |script| - next
      {
        ghost var so := AsOutside();
        AskedOneMore(script, at, next);
        DeltasOneMore(style, script, at, next);
        OutlivedOneMore(style, script, at, next);
        var ended;
        ended, responseId := HandleMoment(script[next], chat, responseId);
        StreamGoesOn(style, parse, old(AsOutside()), so, AsOutside(), script, at, next, ended != Some(Finished));
        if ended.Some? {
          if ended.value.Finished? {
            ResponseOver(this, script, next, ended.value);
          }
          return ended.value, next + 1;
        }
        next := next + 1;
      }
      StillGoing(this, script);
      return Unfinished, next;
    }

    /** Waits for the results of the round, in the order of its calls. */
    method CollectResults(script: seq<Moment>, at: nat)
      returns (outcome: Option<Outcome>, outputs: seq<CallOutput>, next: nat)
      requires at <= |script| && Valid() && NoTerminal(emitted)
      requires cancelled <==> Asked(script, at)
      modifies this`pending, this`answers, this`cancelled, this`receiverOpen, this`emitted
      ensures Valid() && at <= next <= |script|
      ensures Plain(emitted) == Plain(old(emitted)) && (receiverOpen ==> old(receiverOpen))
      ensures cancelled <==> Asked(script, next)
      ensures Unnoticed(script, at, if outcome == Some(Finished) then next - 1 else next)
      ensures OthersStay(old(pending), pending, script, at, next)
      ensures outcome == Some(Finished) ==> at < next
      ensures outcome.None? ==>
                && NoTerminal(emitted) && |outputs| == |calls|
                && Paired(outputs, |sent|, registered, answers)
      ensures outcome.Some? ==> Over(script, next, outcome.value)
    {
      NothingTaken(pending, script, at, at);
      NothingPaired(|sent|, registered, answers);
      NothingAsked(script, at);
      hide *;
      next, outputs := at, [];
      while |outputs| < |calls| && next < |script|
        invariant at <= next <= |script| && |outputs| <= |calls|
        invariant Valid() && NoTerminal(emitted) && Paired(outputs, |sent|, registered, answers)
        invariant Plain(emitted) == Plain(old(emitted)) && (receiverOpen ==> old(receiverOpen))
        invariant (cancelled <==> Asked(script, next)) && Unnoticed(script, at, next)
        invariant OthersStay(old(pending), pending, script, at, next)
        decreases |script| - next
      {
        AskedOneMore(script, at, next);
        ghost var held := pending;
        var ended;
        ended, outputs := CollectMoment(script[next], outputs);
        TakenOne(old(pending), held, pending, script, at, next);
        if ended {
          ResponseOver(this, script, next, Finished);
          return Some(Finished), outputs, next + 1;
        }
        next := next + 1;
      }
      if |outputs| < |calls| {
        StillGoing(this, script);
        return Some(Unfinished), outputs, next;
      }
      return None, outputs, next;
    }

    /** One moment of that wait: a cancellation, the next result, or an action of another task. */
    method CollectMoment(moment: Moment, outputs: seq<CallOutput>) returns (ended: bool, more: seq<CallOutput>)
      requires Valid() && NoTerminal(emitted) && |outputs| < |calls|
      requires Paired(outputs, |sent|, registered, answers)
      modifies this`pending, this`answers, this`cancelled, this`receiverOpen, this`emitted
      ensures Valid() && Plain(emitted) == Plain(old(emitted)) && (receiverOpen ==> old(receiverOpen))
      ensures (cancelled <==> old(cancelled) || Asks(moment)) && OthersStay(old(pending), pending, [moment], 0, 1)
      ensures ended <==> moment.NoticeCancel? && old(cancelled)
      ensures ended ==> Stopped(Finished)
      ensures ended && receiverOpen ==> emitted != [] && Explains(moment, emitted[|emitted| - 1])
      ensures !ended ==>
                NoTerminal(emitted) && |more| <= |calls| && Paired(more, |sent|, registered, answers)
    {
      Endings();
      OnlyTheyAsk(moment);
      NothingTaken(pending, [moment], 0, 1);
      TicketOf(this, |outputs|);
      hide *;
      ended, more := false, outputs;
      if moment.NoticeCancel? {
        if cancelled {
          SendLast(Cancelled);
          ended := true;
        }
      } else if moment.ResultArrives? {
        var ticket := calls[|outputs|];
        if ticket.slot in answers {
          PairedOne(outputs, |sent|, registered, answers);
          more := outputs + [CallOutput(ticket.call, answers[ticket.slot])];
        }
      } else {
        ghost var before := answers;
        Interfere(moment);
        PairedStays(outputs, |sent|, registered, before, answers);
      }
    }

    /** The next request: it carries one result for each call of the round, in order. */
    method ContinuationRequest(continuation: Outcome, outputs: seq<CallOutput>) returns (body: Body)
      requires Valid() && NoTerminal(emitted) && Stopped(continuation)
      requires continuation.ContinueResponses? || continuation.ContinueChat?
      requires |outputs| == |calls| && Paired(outputs, |sent|, registered, answers)
      modifies this`requests, this`messages, this`calls, this`sent
      ensures Valid() && NoTerminal(emitted) && calls == []
      ensures requests == old(requests) + [body] && sent == old(sent) + outputs && |sent| == |registered|
      ensures continuation.ContinueResponses? ==>
                body == ResponsesBody(continuation.previous, outputs) && messages == old(messages)
      ensures continuation.ContinueChat? ==>
                && messages == old(messages) + [Assistant(continuation.calls)] + ToolMessages(outputs)
                && body == ChatBody(messages)
    {
      MatchCalls(calls, outputs, |sent|, registered, answers);
      CarriedOne(style, requests, messages, sent, continuation, outputs);
      PairedJoin(sent, outputs, registered, answers);
      hide Starts, CallsIn, NoTerminal, Registry, Paired, Carried, CallsShown;
      if continuation.ContinueResponses? {
        body := ResponsesBody(continuation.previous, outputs);
      } else {
        messages := messages + [Assistant(continuation.calls)] + ToolMessages(outputs);
        body := ChatBody(messages);
      }
      requests := requests + [body];
      sent := sent + outputs;
      calls := [];
    }

    /** Waits for the response to a continuation. */
    method AwaitReply(script: seq<Moment>, at: nat) returns (outcome: Option<Outcome>, next: nat)
      requires at <= |script| && Valid() && NoTerminal(emitted)
      requires cancelled <==> Asked(script, at)
      modifies this`pending, this`answers, this`cancelled, this`receiverOpen, this`emitted
      ensures Valid() && at <= next <= |script|
      ensures Plain(emitted) == Plain(old(emitted)) && (receiverOpen ==> old(receiverOpen))
      ensures cancelled <==> Asked(script, next)
      ensures Unnoticed(script, at, if outcome == Some(Finished) then next - 1 else next)
      ensures OthersStay(old(pending), pending, script, at, next)
      ensures outcome == Some(Finished) ==> at < next
      ensures outcome.None? ==> NoTerminal(emitted) && at < next && script[next - 1] == Reply(true)
      ensures outcome.Some? ==> Over(script, next, outcome.value)
    {
      hide Starts, CallsIn, NoTerminal, Registry, Paired, Round, Carried, CallsShown, Ended, StreamRun.Valid,
           Plain, Asked, Asks, Explains, OthersStay;
      Endings();
      NothingTaken(pending, script, at, at);
      next := at;
      while next < |script|
        invariant at <= next <= |script| && Valid() && NoTerminal(emitted)
        invariant Plain(emitted) == Plain(old(emitted)) && (receiverOpen ==> old(receiverOpen))
        invariant (cancelled <==> Asked(script, next)) && Unnoticed(script, at, next)
        invariant OthersStay(old(pending), pending, script, at, next)
        decreases |script| - next
      {
        AskedOneMore(script, at, next);
        OnlyTheyAsk(script[next]);
        ghost var held := pending;
        NothingTaken(held, [script[next]], 0, 1);
        TakenOne(old(pending), held, held, script, at, next);
        var moment := script[next];
        next := next + 1;
        match moment {
          case NoticeCancel =>
            if cancelled {
              SendLast(Cancelled);
              return Some(Finished), next;
            }
          case Reply(ok) =>
            if !ok {
              SendLast(Failed(RequestFailed));
              return Some(Finished), next;
            }
            return None, next;
          case _ =>
            Interfere(moment);
            TakenOne(old(pending), held, pending, script, at, next - 1);
        }
      }
      return Some(Unfinished), next;
    }

    /** The end of a round that goes on: the results, the next request, and its response. */
    method ContinueRound(script: seq<Moment>, at: nat, continuation: Outcome) returns (end: Option<Outcome>, next: nat)
      requires at <= |script| && Valid() && Stopped(continuation)
      requires continuation.ContinueResponses? || continuation.ContinueChat?
      requires cancelled <==> Asked(script, at)
      modifies this
      ensures Valid() && at <= next <= |script|
      ensures Plain(emitted) == Plain(old(emitted)) && (receiverOpen ==> old(receiverOpen))
      ensures cancelled <==> Asked(script, next)
      ensures Unnoticed(script, at, if end == Some(Finished) then next - 1 else next)
      ensures named == old(named) && OthersStay(old(pending), pending, script, at, next)
      ensures end.None? ==> NoTerminal(emitted) && calls == [] && at < next && script[next - 1] == Reply(true)
      ensures end == Some(Finished) ==> at < next
      ensures end.Some? ==> Over(script, next, end.value)
    {
      hide Starts, CallsIn, NoTerminal, Registry, Paired, Round, Carried, CallsShown, Ended, Explains, StreamRun.Valid,
           Plain, Asked, Noticed, OthersStay;
      var outputs;
      end, outputs, next := CollectResults(script, at);
      if end.None? {
        var _ := ContinuationRequest(continuation, outputs);
        var mid := next;
        ghost var held := pending;
        end, next := AwaitReply(script, mid);
        TakenJoin(old(pending), held, pending, script, at, mid, next);
      }
    }

    /** One response, and what follows it up to the next one. */
    method RunRound(script: seq<Moment>, at: nat) returns (end: Option<Outcome>, until: nat, next: nat)
      requires at <= |script| && Valid() && NoTerminal(emitted) && calls == []
      requires cancelled <==> Asked(script, at)
      modifies this
      ensures Valid() && at <= until <= next <= |script|
      ensures StreamProceeds(style, parse, old(AsOutside()), AsOutside(), script, at, until, next,
                             !(end == Some(Finished) && until == next))
      ensures cancelled <==> Asked(script, next)
      ensures Unnoticed(script, at, if end == Some(Finished) then next - 1 else next)
      ensures end.None? ==> NoTerminal(emitted) && calls == [] && until < next && script[next - 1] == Reply(true)
      ensures until == next || (at < until && script[until - 1].Datum?)
      ensures end.Some? ==> Over(script, next, end.value) && at <= (if end.value.Finished? then next - 1 else next)
    {
      hide Starts, CallsIn, NoTerminal, Registry, Paired, Round, Carried, CallsShown, Ended, Explains, StreamRun.Valid,
           Plain, PassedOn, StreamProceeds, Asked, Unnoticed, Noticed, OthersStay, StreamRun.AsOutside;
      var outcome;
      outcome, until := ConsumeSse(script, at);
      next := until;
      if outcome.Unfinished? || outcome.Finished? {
        return Some(outcome), until, next;
      }
      ghost var so := AsOutside();
      Looks(this);
      end, next := ContinueRound(script, until, outcome);
      UnnoticedJoin(script, at, until, if end == Some(Finished) then next - 1 else next);
      Looks(this);
      StreamRests(style, parse, old(AsOutside()), so, AsOutside(), script, at, until, next,
                  !(end == Some(Finished) && until == next));
    }

    /** Round after round, to the end of the run or of the script. */
    method RunRounds(script: seq<Moment>) returns (end: Outcome, taken: nat, responses: seq<Span>)
      requires Valid() && NoTerminal(emitted) && calls == [] && !cancelled
      modifies this
      ensures Valid() && taken <= |script| && Over(script, taken, end)
      ensures Unnoticed(script, 0, if end.Finished? then taken - 1 else taken)
      ensures Spans(script, responses, taken)
      ensures RunProceeds(style, parse, old(AsOutside()), AsOutside(), script, responses, taken, !end.Finished?)
    {
      taken, responses := 0, [];
      var ended: Option<Outcome> := None;
      RunStarts(style, parse, AsOutside(), script);
      NothingAsked(script, 0);
      assert Spans(script, [], 0) && BetweenSpans(script, [], 0);
      hide *;
      while ended.None?
        invariant taken <= |script| && Valid()
        invariant ended.None? ==> NoTerminal(emitted) && calls == []
        invariant ended.Some? ==> Over(script, taken, ended.value)
        invariant cancelled <==> Asked(script, taken)
        invariant Unnoticed(script, 0, if ended == Some(Finished) then taken - 1 else taken)
        invariant Spans(script, responses, taken)
        invariant ended.None? ==> BetweenSpans(script, responses, taken)
        invariant RunProceeds(style, parse, old(AsOutside()), AsOutside(), script, responses, taken,
                              ended != Some(Finished))
        decreases |script| - taken, ended.None?
      {
        ghost var so := AsOutside();
        var until, next;
        ended, until, next := RunRound(script, taken);
        SpanDone(script, responses, taken, until, next);
        RunGoesOn(style, parse, old(AsOutside()), so, AsOutside(), script, responses, taken, until, next,
                  !(ended == Some(Finished) && until == next), ended != Some(Finished));
        UnnoticedJoin(script, 0, taken, if ended == Some(Finished) then next - 1 else next);
        responses := responses + [Span(taken, until)];
        taken := next;
      }
      end := ended.value;
    }

    /** The whole run and its cleanup. `responses` tells which parts of the script were responses. */
    method RunStream(script: seq<Moment>) returns (finished: bool, taken: nat, responses: seq<Span>)
      requires Valid() && NoTerminal(emitted) && calls == [] && !cancelled
      modifies this
      // One terminal event, in last place, telling what ended the run.
      ensures taken <= |script| && (!finished ==> NoTerminal(emitted) && taken == |script|)
      ensures finished ==> Ended(emitted, receiverOpen) && 0 < taken
      ensures finished && receiverOpen ==> emitted != [] && Explains(script[taken - 1], emitted[|emitted| - 1])
      // The run ends as cancelled exactly when it notices that it was asked to stop, and it never
      // looks past that.
      ensures Unnoticed(script, 0, if finished then taken - 1 else taken)
      ensures finished && receiverOpen ==> (emitted[|emitted| - 1] == Cancelled <==> Noticed(script, taken - 1))
      // Every plain event looked at, in any response, is passed on in order.
      ensures Spans(script, responses, taken)
      ensures receiverOpen ==> PassedOn(old(emitted), emitted, RunEvents(style, script, responses))
      // The calls forwarded are those the responses name, whole and in order; up to the one at which the
      // run ends, if it ends.
      ensures Added(old(named), named, RunCalls(style, parse, script, responses), !finished)
      ensures receiverOpen ==> CallsIn(emitted) == named
      // The conversation is announced at most once.
      ensures Starts(emitted) <= 1
      // The calls forwarded are those registered; the continuations carry their results, in order.
      ensures CallsShown(emitted, receiverOpen, registered, named)
      ensures Paired(sent, 0, registered, answers) && Carried(style, requests, messages, sent)
      // No call of the run stays in the shared table; a call of another run leaves it only with its
      // result or with its run.
      ensures finished ==> forall call | call in pending :: pending[call].Other?
      ensures forall call | call in old(pending) && old(pending)[call].Other? ::
                || (call in pending && pending[call] == old(pending)[call])
                || exists i | 0 <= i < taken && i < |script| ::
                     || (script[i].Resolve? && script[i].call == call)
                     || script[i] == OtherEnds(old(pending)[call].operation)
    {
      ghost var before := Outside(emitted, receiverOpen, named, pending);
      Looks(this);
      hide *;
      var end;
      end, taken, responses := RunRounds(script);
      AtAnyTime(this);
      Looks(this);
      WhatHasProceeded(style, parse, before, AsOutside(), script, responses, taken, !end.Finished?);
      HowItEnded(this, script, taken, end);
      finished := end.Finished?;
      if finished {
        CleanUp();
      }
    }

    /** The run takes its own calls out of the shared table, and nothing else. */
    method CleanUp()
      modifies this`pending
      ensures forall call :: call in pending <==> call in old(pending) && old(pending)[call].Other?
      ensures forall call | call in pending :: pending[call] == old(pending)[call]
    {
      pending := map call | call in pending && pending[call].Other? :: pending[call];
    }

    /** The run is over, or the script is. */
    ghost predicate Over(script: seq<Moment>, taken: nat, outcome: Outcome)
      reads this`emitted, this`receiverOpen
    {
      && taken <= |script|
      && match outcome
         case Finished =>
           && Ended(emitted, receiverOpen) && 0 < taken
           && (script[taken - 1].NoticeCancel? ==> Asked(script, taken - 1))
           && (receiverOpen ==> emitted != [] && Explains(script[taken - 1], emitted[|emitted| - 1]))
         case Unfinished => NoTerminal(emitted) && taken == |script|
         case _ => false
    }

    /** A response has come to its end: the run is over, or it goes on with the calls of the round. */
    ghost predicate Stopped(outcome: Outcome)
      reads this`emitted, this`receiverOpen, this`calls
    {
      match outcome
      case Finished => Ended(emitted, receiverOpen)
      case Unfinished => NoTerminal(emitted)
      case ContinueResponses(_) => NoTerminal(emitted) && style.Responses? && calls != []
      case ContinueChat(asked) =>
        && NoTerminal(emitted) && style.Chat? && |calls| == |asked|
        && forall i | 0 <= i < |asked| :: calls[i].call == asked[i].id
    }
  }

  lemma FinishedInOrder(calls: seq<ChatCall>, parse: Text -> Option<Json>)
    requires FinishChatCalls(calls, parse).Ok?
    ensures var finished := FinishChatCalls(calls, parse).value;
            && |finished| == |calls|
            && forall i | 0 <= i < |calls| ::
                 && parse(calls[i].arguments).Some?
                 && finished[i] == ToolCall(calls[i].id, calls[i].name, parse(calls[i].arguments).value)
  {
  }

  /** A chat value names calls only by its slots, whatever the responses style would make of it; and
      none when its events are looked at. */
  lemma ChatNames(style: Style, parse: Text -> Option<Json>, before: seq<Delta>, responses: ResponseData,
                  chat: ChatData)
    ensures style.Chat? ==>
              && NamedBy(style, parse, before, Datum(Value(Unknown, chat)))
                 == NamedBy(style, parse, before, Datum(Value(responses, chat)))
              && CallsIn(Normalize(style, responses, chat)) == []
              && (!chat.finish.ToolCallsReason? ==> NamedBy(style, parse, before, Datum(Value(responses, chat))) == [])
    ensures style.Responses? ==>
              NamedBy(style, parse, before, Datum(Value(responses, chat))) == CallsIn(Normalize(style, responses, chat))
  {
    if style.Chat? {
      NormalizedShape(style, responses, chat);
      NoCallsOneIf(Normalize(style, responses, chat));
    }
  }

  lemma SlotsHeld(chat: ChatAccumulator)
    ensures chat.Valid() ==> chat.calls == Slots(chat.received)
  {
    if chat.Valid() {
      HeldSlots(chat.calls, chat.received);
    }
  }

  lemma SlotsAreNamed(parse: Text -> Option<Json>, chat: ChatAccumulator, before: seq<Delta>, data: ChatData)
    requires chat.Valid() && chat.received == before + data.deltas
    requires data.finish.ToolCallsReason? && FirstRefusal(before, data.deltas).None?
    ensures NamedBy(Chat, parse, before, Datum(Value(Unknown, data))) == FinishedCalls(chat.calls, parse)
  {
    HeldSlots(chat.calls, chat.received);
  }

  lemma {:induction false} NoCallsOneIf(events: seq<ProviderEvent>)
    requires forall event | event in events :: !event.ToolCallEvent?
    ensures CallsIn(events) == []
  {
    if events != [] {
      assert events[|events| - 1] in events;
      NoCallsOneIf(events[..|events| - 1]);
    }
  }

  /** What a run shows to the outside: its events, its calls, and the table it shares. */
  datatype Outside = Outside(emitted: seq<ProviderEvent>, open: bool, named: seq<ToolCall<Json>>,
                             pending: map<Text, Owner>)

  /** What a moment of a response adds: while the receiver is there, the plain events that are looked at;
      the calls it names, all of them unless the run ends; and of other runs nothing goes without reason. */
  ghost predicate Proceeds(style: Style, parse: Text -> Option<Json>, a: Outside, b: Outside, before: seq<Delta>,
                           moment: Moment, all: bool)
  {
    && (b.open ==> a.open && Plain(b.emitted) == Plain(a.emitted) + Plain(Heard(style, before, moment)))
    && Added(a.named, b.named, NamedBy(style, parse, before, moment), all)
    && OthersStay(a.pending, b.pending, [moment], 0, 1)
  }

  lemma Looks(run: StreamRun)
    ensures run.AsOutside() == Outside(run.emitted, run.receiverOpen, run.named, run.pending)
  {
  }

  lemma NothingProceeds(style: Style, parse: Text -> Option<Json>, a: Outside, b: Outside, before: seq<Delta>,
                        moment: Moment, all: bool)
    requires !(moment.Datum? && moment.data.Value?)
    requires (b.open ==> a.open) && Plain(b.emitted) == Plain(a.emitted) && b.named == a.named
    requires b.pending == a.pending || OthersStay(a.pending, b.pending, [moment], 0, 1)
    ensures Proceeds(style, parse, a, b, before, moment, all)
  {
    NothingPlain(a.emitted, []);
    NoneAdded(a.named, []);
    NothingTaken(a.pending, [moment], 0, 1);
    assert NamedBy(style, parse, before, moment) == [] && Heard(style, before, moment) == [];
    hide Plain, Added, OthersStay, NamedBy, Heard;
  }

  /** A value of the responses style. */
  lemma ResponseProceeds(style: Style, parse: Text -> Option<Json>, a: Outside, b: Outside, before: seq<Delta>,
                         responses: ResponseData, data: ChatData, all: bool)
    requires style.Responses? && b.open == a.open && OthersStay(a.pending, b.pending, [], 0, 0)
    requires b.open ==> Plain(b.emitted) == Plain(a.emitted) + Plain(Normalize(style, responses, data))
    requires Added(a.named, b.named, CallsIn(Normalize(style, responses, data)), all)
    ensures Proceeds(style, parse, a, b, before, Datum(Value(responses, data)), all)
  {
    ChatNames(style, parse, before, responses, data);
    StayLonger(a.pending, b.pending, [Datum(Value(responses, data))]);
    hide Plain, Added, OthersStay, NamedBy, Normalize;
  }

  /** A chat value whose events are not looked at. */
  lemma DroppedProceeds(parse: Text -> Option<Json>, a: Outside, b: Outside, before: seq<Delta>,
                        responses: ResponseData, data: ChatData, all: bool)
    requires b.open == a.open && Plain(b.emitted) == Plain(a.emitted) && OthersStay(a.pending, b.pending, [], 0, 0)
    requires data.finish.ToolCallsReason? || FirstRefusal(before, data.deltas).Some?
    requires Added(a.named, b.named, NamedBy(Chat, parse, before, Datum(Value(Unknown, data))), all)
    ensures Proceeds(Chat, parse, a, b, before, Datum(Value(responses, data)), all)
  {
    ChatNames(Chat, parse, before, responses, data);
    NothingPlain(a.emitted, []);
    StayLonger(a.pending, b.pending, [Datum(Value(responses, data))]);
    hide Plain, Added, OthersStay, NamedBy, Normalize, FirstRefusal;
  }

  /** A chat value whose fragments are taken and whose events are looked at. */
  lemma ChatProceeds(parse: Text -> Option<Json>, a: Outside, m: Outside, b: Outside, before: seq<Delta>,
                     responses: ResponseData, data: ChatData, all: bool)
    requires m.emitted == a.emitted && m.open == a.open && b.open == a.open
    requires OthersStay(a.pending, m.pending, [], 0, 0) && OthersStay(m.pending, b.pending, [], 0, 0)
    requires !data.finish.ToolCallsReason? && FirstRefusal(before, data.deltas).None?
    requires b.open ==> Plain(b.emitted) == Plain(a.emitted) + Plain(Normalize(Chat, responses, data))
    requires Added(a.named, m.named, NamedBy(Chat, parse, before, Datum(Value(Unknown, data))), true)
    requires Added(m.named, b.named, CallsIn(Normalize(Chat, responses, data)), all)
    ensures Proceeds(Chat, parse, a, b, before, Datum(Value(responses, data)), all)
  {
    var moment := Datum(Value(responses, data));
    ChatNames(Chat, parse, before, responses, data);
    TakenJoin(a.pending, m.pending, b.pending, [], 0, 0, 0);
    StayLonger(a.pending, b.pending, [moment]);
    AddedOn(a.named, m.named, b.named, [], [], all);
    NoneAdded(a.named, []);
    assert Heard(Chat, before, moment) == Normalize(Chat, responses, data);
    hide Plain, Added, OthersStay, NamedBy, Normalize, FirstRefusal, Heard;
  }

  /** A value: its fragments count in the chat style only. */
  lemma ValueIs(style: Style, before: seq<Delta>, responses: ResponseData, data: ChatData)
    ensures before + [] == before
    ensures DeltasOf(style, Datum(Value(responses, data))) == if style.Chat? then data.deltas else []
  {
  }

  /** After what was emitted before come the calls of the slots, in order, each with its slot's id and
      name and with its arguments parsed. */
  predicate Forwarded(parse: Text -> Option<Json>, before: seq<ProviderEvent>, after: seq<ProviderEvent>,
                      slots: seq<ChatCall>)
  {
    && |after| == |before| + |slots| && before <= after
    && forall i | 0 <= i < |slots| ::
         && parse(slots[i].arguments).Some?
         && after[|before| + i]
            == ToolCallEvent(ToolCall(slots[i].id, slots[i].name, parse(slots[i].arguments).value))
  }

  lemma AllForwarded(parse: Text -> Option<Json>, before: seq<ProviderEvent>, after: seq<ProviderEvent>,
                     slots: seq<ChatCall>)
    requires FinishChatCalls(slots, parse).Ok? && Announced(before, after, FinishChatCalls(slots, parse).value)
    ensures Forwarded(parse, before, after, slots)
  {
    FinishedInOrder(slots, parse);
    hide FinishChatCalls;
  }

  lemma EventKinds(event: ProviderEvent)
    ensures IsTerminal(event) <==> event.Completed? || event.Cancelled? || event.Failed?
    ensures IsPlain(event) <==> event.ContentDelta? || event.Usage? || event.Activity?
  {
  }

  lemma HowItStops(run: StreamRun, previous: Text)
    ensures Ended(run.emitted, run.receiverOpen) ==> run.Stopped(Finished)
    ensures NoTerminal(run.emitted) && run.style.Responses? && run.calls != [] ==>
              run.Stopped(ContinueResponses(previous))
  {
  }

  lemma RoundAsked(run: StreamRun, asked: seq<ChatCall>, finished: seq<ToolCall<Json>>)
    requires FinishChatCalls(asked, run.parse) == Ok(finished)
    requires NoTerminal(run.emitted) && run.style.Chat? && Registers(run.calls, finished)
    ensures run.Stopped(ContinueChat(asked))
  {
    FinishedInOrder(asked, run.parse);
    hide FinishChatCalls, NoTerminal;
  }

  /** The calls of a round are those of a list, in order. */
  predicate Registers(calls: seq<Ticket>, finished: seq<ToolCall<Json>>) {
    |calls| == |finished| && forall i | 0 <= i < |calls| :: calls[i].call == finished[i].id
  }

  /** After what was emitted before come the calls of a list, in order and as they are. */
  predicate Announced(before: seq<ProviderEvent>, after: seq<ProviderEvent>, finished: seq<ToolCall<Json>>) {
    && |after| == |before| + |finished| && before <= after
    && forall i | 0 <= i < |finished| :: after[|before| + i] == ToolCallEvent(finished[i])
  }

  /** Before the last event none ends the response but by a receiver that is gone. */
  lemma WhatEnds(events: seq<ProviderEvent>, i: nat)
    requires OnlyLastEnds(events) && i < |events|
    ensures i + 1 < |events| ==> IsPlain(events[i]) || events[i].ConversationStarted?
    ensures IsPlain(events[i]) ==> !events[i].Completed?
    ensures events[i] != Cancelled
  {
  }

  lemma CallOf(named: seq<ToolCall<Json>>, event: ProviderEvent)
    ensures CallsIn([event]) == if event.ToolCallEvent? then [event.call] else []
    ensures named + [] == named
  {
    assert [event][..0] == [];
  }

  lemma NoneAdded(named: seq<ToolCall<Json>>, calls: seq<ToolCall<Json>>)
    ensures Added(named, named, calls, false) && (calls == [] ==> Added(named, named, calls, true))
  {
  }

  lemma OneAdded(named: seq<ToolCall<Json>>, call: ToolCall<Json>)
    ensures Added(named, named + [call], [call], true)
  {
  }

  lemma NothingAdded(named: seq<ToolCall<Json>>, events: seq<ProviderEvent>)
    ensures events[..0] == [] && Added(named, named, CallsIn([]), true)
  {
  }

  lemma AddedOne(a: seq<ToolCall<Json>>, b: seq<ToolCall<Json>>, c: seq<ToolCall<Json>>, events: seq<ProviderEvent>,
                 i: nat, all: bool)
    requires i < |events| && Added(a, b, CallsIn(events[..i]), true) && Added(b, c, CallsIn([events[i]]), all)
    ensures Added(a, c, CallsIn(events[..i + 1]), all)
  {
    assert events[..i + 1][..i] == events[..i];
    CallOf(a, events[i]);
    assert a + CallsIn(events[..i]) + CallsIn([events[i]]) == a + (CallsIn(events[..i]) + CallsIn([events[i]]));
  }

  /** A part of the events adds a part of their calls; all, when the last of them ends the response. */
  lemma OnlyLastAdds(a: seq<ToolCall<Json>>, c: seq<ToolCall<Json>>, events: seq<ProviderEvent>, n: nat, all: bool)
    requires n <= |events| && Added(a, c, CallsIn(events[..n]), all) && (all ==> n == |events|)
    ensures Added(a, c, CallsIn(events), all)
  {
    CallsPrefix(events, n);
    assert events[..|events|] == events;
  }

  lemma {:induction false} CallsPrefix(events: seq<ProviderEvent>, n: nat)
    requires n <= |events|
    ensures CallsIn(events[..n]) <= CallsIn(events)
  {
    if n < |events| {
      CallsPrefix(events[..|events| - 1], n);
      assert events[..|events| - 1][..n] == events[..n];
    } else {
      assert events[..n] == events;
    }
  }

  /** What is registered over several moments. */
  lemma AddedOn(a: seq<ToolCall<Json>>, b: seq<ToolCall<Json>>, c: seq<ToolCall<Json>>,
                calls: seq<ToolCall<Json>>, more: seq<ToolCall<Json>>, all: bool)
    requires Added(a, b, calls, true) && Added(b, c, more, all)
    ensures Added(a, c, calls + more, all)
  {
    assert a + calls + more == a + (calls + more);
  }

  /** Calls of other runs leave the shared table only with their result or with their run. */
  ghost predicate OthersStay(before: map<Text, Owner>, after: map<Text, Owner>, script: seq<Moment>,
                             from: nat, until: nat)
  {
    forall call | call in before && before[call].Other? ::
      || (call in after && after[call] == before[call])
      || exists i | from <= i < until && i < |script| ::
           || (script[i].Resolve? && script[i].call == call)
           || script[i] == OtherEnds(before[call].operation)
  }

  lemma NothingTaken(pending: map<Text, Owner>, script: seq<Moment>, from: nat, until: nat)
    ensures OthersStay(pending, pending, script, from, until)
  {
  }

  lemma NothingTakenBy(pending: map<Text, Owner>, call: Text, owner: Owner)
    ensures call !in pending ==> OthersStay(pending, pending[call := owner], [], 0, 0)
  {
  }

  lemma StayLonger(before: map<Text, Owner>, after: map<Text, Owner>, script: seq<Moment>)
    requires OthersStay(before, after, [], 0, 0)
    ensures OthersStay(before, after, script, 0, |script|)
  {
  }

  lemma TakenOne(a: map<Text, Owner>, b: map<Text, Owner>, c: map<Text, Owner>, script: seq<Moment>, from: nat, i: nat)
    requires from <= i < |script| && OthersStay(a, b, script, from, i) && OthersStay(b, c, [script[i]], 0, 1)
    ensures OthersStay(a, c, script, from, i + 1)
  {
    assert [script[i]][0] == script[i];
  }

  lemma TakenJoin(a: map<Text, Owner>, b: map<Text, Owner>, c: map<Text, Owner>, script: seq<Moment>,
                  from: nat, mid: nat, until: nat)
    requires from <= mid <= until && OthersStay(a, b, script, from, mid) && OthersStay(b, c, script, mid, until)
    ensures OthersStay(a, c, script, from, until)
  {
  }

  /** All plain events of a stream have been passed on. */
  ghost predicate PassedOn(before: seq<ProviderEvent>, after: seq<ProviderEvent>, events: seq<ProviderEvent>) {
    Plain(after) == Plain(before) + Plain(events)
  }

  lemma NothingPassed(before: seq<ProviderEvent>)
    ensures PassedOn(before, before, [])
  {
  }

  lemma PassSome(before: seq<ProviderEvent>, so: seq<ProviderEvent>, after: seq<ProviderEvent>,
                 events: seq<ProviderEvent>, more: seq<ProviderEvent>)
    requires PassedOn(before, so, events) && Plain(after) == Plain(so) + Plain(more)
    ensures PassedOn(before, after, events + more)
  {
    PlainConcat(events, more);
    hide Plain;
    assert Plain(before) + (Plain(events) + Plain(more)) == Plain(before) + Plain(events) + Plain(more);
  }

  lemma DeltasOneMore(style: Style, script: seq<Moment>, from: nat, next: nat)
    requires from <= next < |script|
    ensures StreamDeltas(style, script, from, next + 1)
         == StreamDeltas(style, script, from, next) + DeltasOf(style, script[next])
  {
  }

  /** The calls a part of the script names, as a response. */
  function StreamCalls(style: Style, parse: Text -> Option<Json>, script: seq<Moment>, from: nat, until: nat)
    : seq<ToolCall<Json>>
  {
    if until <= from || |script| < until then []
    else
      StreamCalls(style, parse, script, from, until - 1)
      + NamedBy(style, parse, StreamDeltas(style, script, from, until - 1), script[until - 1])
  }

  /** What a response adds, from its start to `until`, and what has become of the calls of others up to
      `next`. */
  ghost predicate StreamProceeds(style: Style, parse: Text -> Option<Json>, a: Outside, b: Outside, script: seq<Moment>,
                                 from: nat, until: nat, next: nat, all: bool)
  {
    && (b.open ==> a.open && PassedOn(a.emitted, b.emitted, StreamEvents(style, script, from, until)))
    && Added(a.named, b.named, StreamCalls(style, parse, script, from, until), all)
    && OthersStay(a.pending, b.pending, script, from, next)
  }

  /** The response goes on after each of these moments. */
  predicate Outlived(style: Style, script: seq<Moment>, from: nat, until: int) {
    forall i | from <= i < until && i < |script| :: !EndsResponse(style, script[i])
  }

  lemma OutlivedOneMore(style: Style, script: seq<Moment>, from: nat, next: nat)
    requires next < |script| && Outlived(style, script, from, next)
    ensures !EndsResponse(style, script[next]) ==> Outlived(style, script, from, next + 1)
  {
  }

  lemma StreamStarts(style: Style, parse: Text -> Option<Json>, a: Outside, script: seq<Moment>, at: nat)
    ensures StreamProceeds(style, parse, a, a, script, at, at, at, true)
    ensures StreamDeltas(style, script, at, at) == [] && Outlived(style, script, at, at)
  {
    NothingPassed(a.emitted);
    NothingTaken(a.pending, script, at, at);
  }

  lemma StreamGoesOn(style: Style, parse: Text -> Option<Json>, a: Outside, so: Outside, b: Outside,
                     script: seq<Moment>, from: nat, next: nat, all: bool)
    requires from <= next < |script| && StreamProceeds(style, parse, a, so, script, from, next, next, true)
    requires Proceeds(style, parse, so, b, StreamDeltas(style, script, from, next), script[next], all)
    ensures StreamProceeds(style, parse, a, b, script, from, next + 1, next + 1, all)
  {
    var deltas := StreamDeltas(style, script, from, next);
    StreamOneMore(style, parse, script, from, next);
    hide StreamEvents, StreamCalls, Heard, NamedBy, PassedOn, Added, OthersStay, StreamDeltas, Plain;
    if b.open {
      PassSome(a.emitted, so.emitted, b.emitted, StreamEvents(style, script, from, next),
               Heard(style, deltas, script[next]));
    }
    AddedOn(a.named, so.named, b.named, StreamCalls(style, parse, script, from, next),
            NamedBy(style, parse, deltas, script[next]), all);
    TakenOne(a.pending, so.pending, b.pending, script, from, next);
  }

  lemma StreamOneMore(style: Style, parse: Text -> Option<Json>, script: seq<Moment>, from: nat, next: nat)
    requires from <= next < |script|
    ensures var deltas := StreamDeltas(style, script, from, next);
            && StreamEvents(style, script, from, next + 1)
               == StreamEvents(style, script, from, next) + Heard(style, deltas, script[next])
            && StreamCalls(style, parse, script, from, next + 1)
               == StreamCalls(style, parse, script, from, next) + NamedBy(style, parse, deltas, script[next])
  {
  }

  /** Between responses nothing is added. */
  lemma StreamRests(style: Style, parse: Text -> Option<Json>, a: Outside, so: Outside, b: Outside,
                    script: seq<Moment>, from: nat, until: nat, next: nat, all: bool)
    requires from <= until <= next && StreamProceeds(style, parse, a, so, script, from, until, until, true)
    requires (b.open ==> so.open) && Plain(b.emitted) == Plain(so.emitted) && b.named == so.named
    requires OthersStay(so.pending, b.pending, script, until, next)
    ensures StreamProceeds(style, parse, a, b, script, from, until, next, all)
  {
    TakenJoin(a.pending, so.pending, b.pending, script, from, until, next);
    hide StreamEvents, StreamCalls, OthersStay, Plain;
  }

  // ---------------------------------------------------------------------------------------
  // The responses of a run
  // ---------------------------------------------------------------------------------------

  /** A part of the script that was a response. */
  datatype Span = Span(from: nat, until: nat)

  /** A response may start here: at the start of the script, or right after a reply that is later than
      the last response. */
  predicate BetweenSpans(script: seq<Moment>, spans: seq<Span>, at: nat) {
    if spans == [] then at == 0
    else spans[|spans| - 1].until < at <= |script| && script[at - 1] == Reply(true)
  }

  /** The responses lie one after the other up to a position, each where one may start, and each goes
      on to that position or to a piece of data. */
  predicate Spans(script: seq<Moment>, spans: seq<Span>, taken: nat) {
    spans == []
    || (var last, earlier := spans[|spans| - 1], spans[..|spans| - 1];
        && last.from <= last.until <= taken && last.until <= |script|
        && (last.until == taken || (last.from < last.until && script[last.until - 1].Datum?))
        && BetweenSpans(script, earlier, last.from) && Spans(script, earlier, last.from))
  }

  /** The events looked at in all responses. */
  function RunEvents(style: Style, script: seq<Moment>, spans: seq<Span>): seq<ProviderEvent> {
    if spans == [] then []
    else
      var last := spans[|spans| - 1];
      RunEvents(style, script, spans[..|spans| - 1]) + StreamEvents(style, script, last.from, last.until)
  }

  lemma SpanDone(script: seq<Moment>, spans: seq<Span>, taken: nat, until: nat, next: nat)
    requires Spans(script, spans, taken) && BetweenSpans(script, spans, taken) && taken <= until <= next <= |script|
    requires until == next || (taken < until && script[until - 1].Datum?)
    ensures var more := spans + [Span(taken, until)];
            && Spans(script, more, next)
            && (until < next && script[next - 1] == Reply(true) ==> BetweenSpans(script, more, next))
  {
    assert (spans + [Span(taken, until)])[..|spans|] == spans;
  }

  /** The calls all responses name. */
  function RunCalls(style: Style, parse: Text -> Option<Json>, script: seq<Moment>, spans: seq<Span>)
    : seq<ToolCall<Json>>
  {
    if spans == [] then []
    else
      var last := spans[|spans| - 1];
      RunCalls(style, parse, script, spans[..|spans| - 1]) + StreamCalls(style, parse, script, last.from, last.until)
  }

  /** What a run adds over its responses. */
  ghost predicate RunProceeds(style: Style, parse: Text -> Option<Json>, a: Outside, b: Outside, script: seq<Moment>,
                              spans: seq<Span>, taken: nat, all: bool)
  {
    && (b.open ==> a.open && PassedOn(a.emitted, b.emitted, RunEvents(style, script, spans)))
    && Added(a.named, b.named, RunCalls(style, parse, script, spans), all)
    && OthersStay(a.pending, b.pending, script, 0, taken)
  }

  lemma RunStarts(style: Style, parse: Text -> Option<Json>, a: Outside, script: seq<Moment>)
    ensures RunProceeds(style, parse, a, a, script, [], 0, true)
  {
    NothingPassed(a.emitted);
    NothingTaken(a.pending, script, 0, 0);
  }

  lemma RunGoesOn(style: Style, parse: Text -> Option<Json>, a: Outside, so: Outside, b: Outside, script: seq<Moment>,
                  spans: seq<Span>, taken: nat, until: nat, next: nat, whole: bool, all: bool)
    requires taken <= until <= next && RunProceeds(style, parse, a, so, script, spans, taken, true)
    requires StreamProceeds(style, parse, so, b, script, taken, until, next, whole) && (all ==> whole)
    ensures RunProceeds(style, parse, a, b, script, spans + [Span(taken, until)], next, all)
  {
    assert (spans + [Span(taken, until)])[..|spans|] == spans;
    if b.open {
      PassSome(a.emitted, so.emitted, b.emitted, RunEvents(style, script, spans),
               StreamEvents(style, script, taken, until));
    }
    AddedOn(a.named, so.named, b.named, RunCalls(style, parse, script, spans),
            StreamCalls(style, parse, script, taken, until), whole);
    TakenJoin(a.pending, so.pending, b.pending, script, 0, taken, next);
    hide StreamEvents, StreamCalls, OthersStay, Plain;
  }

  lemma WhatHasProceeded(style: Style, parse: Text -> Option<Json>, a: Outside, b: Outside, script: seq<Moment>,
                         spans: seq<Span>, taken: nat, all: bool)
    requires RunProceeds(style, parse, a, b, script, spans, taken, all)
    ensures b.open ==> PassedOn(a.emitted, b.emitted, RunEvents(style, script, spans))
    ensures Added(a.named, b.named, RunCalls(style, parse, script, spans), all)
    ensures forall call | call in a.pending && a.pending[call].Other? ::
              || (call in b.pending && b.pending[call] == a.pending[call])
              || exists i | 0 <= i < taken && i < |script| ::
                   || (script[i].Resolve? && script[i].call == call)
                   || script[i] == OtherEnds(a.pending[call].operation)
  {
  }

  lemma OtherMoments(style: Style, parse: Text -> Option<Json>, moment: Moment, before: seq<Delta>)
    ensures !moment.Datum? ==>
              Heard(style, before, moment) == [] && DeltasOf(style, moment) == []
              && NamedBy(style, parse, before, moment) == []
    ensures before + [] == before
    ensures EndsResponse(style, moment) ==>
              moment.Datum? || moment.Overflow? || moment.StreamBroken? || moment.StreamEnd?
  {
  }

  lemma Endings()
    ensures Explains(NoticeCancel, Cancelled) && Explains(Overflow, Failed(EventTooLong))
    ensures Explains(StreamBroken, Failed(Disconnected)) && Explains(StreamEnd, Failed(EndedEarly))
    ensures Explains(Reply(false), Failed(RequestFailed))
    ensures IsTerminal(Cancelled) && forall problem :: IsTerminal(Failed(problem))
  {
  }

  lemma OnlyTheyAsk(moment: Moment)
    ensures Asks(moment) ==> moment.CancelRequest? || moment.DuplicateStart?
    ensures moment.CancelRequest? || moment.DuplicateStart? ==> Asks(moment)
  {
  }

  lemma NothingAsked(script: seq<Moment>, at: nat)
    ensures !Asked(script, 0) && Unnoticed(script, at, at)
  {
  }

  lemma UnnoticedJoin(script: seq<Moment>, from: nat, mid: nat, until: int)
    requires from <= mid <= until && Unnoticed(script, from, mid) && Unnoticed(script, mid, until)
    ensures Unnoticed(script, from, until)
  {
  }

  lemma ResponseOver(run: StreamRun, script: seq<Moment>, at: nat, outcome: Outcome)
    requires at < |script| && run.Stopped(outcome) && outcome.Finished?
    requires run.receiverOpen ==> run.emitted != [] && Explains(script[at], run.emitted[|run.emitted| - 1])
    requires script[at].NoticeCancel? ==> Asked(script, at)
    ensures run.Over(script, at + 1, outcome)
  {
  }

  lemma StillGoing(run: StreamRun, script: seq<Moment>)
    requires NoTerminal(run.emitted)
    ensures run.Over(script, |script|, Unfinished)
  {
  }

  lemma HowItEnded(run: StreamRun, script: seq<Moment>, taken: nat, outcome: Outcome)
    requires run.Over(script, taken, outcome) && taken <= |script|
    ensures outcome.Finished? || (outcome.Unfinished? && NoTerminal(run.emitted) && taken == |script|)
    ensures outcome.Finished? ==> 0 < taken && Ended(run.emitted, run.receiverOpen)
    ensures outcome.Finished? && run.receiverOpen ==>
              var last := |run.emitted| - 1;
              && 0 <= last && Explains(script[taken - 1], run.emitted[last])
              && (run.emitted[last] == Cancelled <==> Noticed(script, taken - 1))
  {
  }

  lemma AtAnyTime(run: StreamRun)
    requires run.Valid()
    ensures Starts(run.emitted) <= 1
    ensures CallsShown(run.emitted, run.receiverOpen, run.registered, run.named)
    ensures run.receiverOpen ==> CallsIn(run.emitted) == run.named
    ensures Paired(run.sent, 0, run.registered, run.answers)
    ensures Carried(run.style, run.requests, run.messages, run.sent)
  {
  }

  /** The result channel of a call never closes before its result has come. */
  lemma ChannelStaysOpen(run: StreamRun, i: nat)
    requires run.Valid() && i < |run.calls|
    ensures var ticket := run.calls[i];
            ticket.slot in run.answers || (ticket.call in run.pending && run.pending[ticket.call] == Own(ticket.slot))
  {
  }

  lemma TicketOf(run: StreamRun, i: nat)
    requires run.Valid() && i < |run.calls|
    ensures |run.sent| + i < |run.registered| && run.calls[i] == Ticket(run.registered[|run.sent| + i], |run.sent| + i)
  {
  }

  lemma NothingPaired(from: nat, registered: seq<Text>, answers: map<nat, Output>)
    ensures Paired([], from, registered, answers)
  {
  }

  lemma PairedOne(outputs: seq<CallOutput>, from: nat, registered: seq<Text>, answers: map<nat, Output>)
    requires Paired(outputs, from, registered, answers)
    requires from + |outputs| < |registered| && from + |outputs| in answers
    ensures var slot := from + |outputs|;
            Paired(outputs + [CallOutput(registered[slot], answers[slot])], from, registered, answers)
  {
  }

  lemma PairedStays(outputs: seq<CallOutput>, from: nat, registered: seq<Text>,
                    before: map<nat, Output>, after: map<nat, Output>)
    requires Paired(outputs, from, registered, before) && Extends(after, before)
    ensures Paired(outputs, from, registered, after)
  {
  }

  lemma PairedJoin(sent: seq<CallOutput>, outputs: seq<CallOutput>, registered: seq<Text>, answers: map<nat, Output>)
    requires Paired(sent, 0, registered, answers) && Paired(outputs, |sent|, registered, answers)
    ensures Paired(sent + outputs, 0, registered, answers)
  {
  }

  lemma MatchCalls(calls: seq<Ticket>, outputs: seq<CallOutput>, sent: nat, registered: seq<Text>,
                   answers: map<nat, Output>)
    requires Round(calls, sent, registered) && Paired(outputs, sent, registered, answers) && |outputs| <= |calls|
    ensures forall i | 0 <= i < |outputs| :: outputs[i].call == calls[i].call
  {
  }

  lemma CarriedOne(style: Style, requests: seq<Body>, messages: seq<Message>, sent: seq<CallOutput>,
                   continuation: Outcome, outputs: seq<CallOutput>)
    requires Carried(style, requests, messages, sent)
    requires if style.Responses? then continuation.ContinueResponses? else continuation.ContinueChat?
    requires continuation.ContinueChat? ==>
               && |outputs| == |continuation.calls|
               && forall i | 0 <= i < |outputs| :: outputs[i].call == continuation.calls[i].id
    ensures style.Responses? ==>
              Carried(style, requests + [ResponsesBody(continuation.previous, outputs)], messages, sent + outputs)
    ensures style.Chat? ==>
              var next := messages + [Assistant(continuation.calls)] + ToolMessages(outputs);
              Carried(style, requests + [ChatBody(next)], next, sent + outputs)
  {
    if style.Responses? {
      var body := ResponsesBody(continuation.previous, outputs);
      assert (requests + [body])[..|requests|] == requests;
    } else {
      RoundInOrder(messages, continuation.calls, outputs);
    }
  }

  predicate Extends(after: map<nat, Output>, before: map<nat, Output>) {
    forall slot | slot in before :: slot in after && after[slot] == before[slot]
  }

  lemma RegisterMore(calls: seq<Ticket>, sent: seq<CallOutput>, registered: seq<Text>, answers: map<nat, Output>,
                     call: Text)
    requires Round(calls, |sent|, registered) && Paired(sent, 0, registered, answers) && |calls| < MAX_TOOL_CALLS
    ensures Round(calls + [Ticket(call, |registered|)], |sent|, registered + [call])
    ensures Paired(sent, 0, registered + [call], answers)
  {
  }

  lemma AnnounceOne(emitted: seq<ProviderEvent>, after: seq<ProviderEvent>, open: bool, registered: seq<Text>,
                    named: seq<ToolCall<Json>>, call: ToolCall<Json>)
    requires CallsShown(emitted, open, registered, named) && NoTerminal(emitted)
    requires after == if open then emitted + [ToolCallEvent(call)] else emitted
    ensures CallsShown(after, open, registered + [call.id], named + [call])
    ensures Starts(after) == Starts(emitted) && NoTerminal(after) && Plain(after) == Plain(emitted)
  {
    EmitOne(emitted, ToolCallEvent(call));
    PlainConcat(emitted, [ToolCallEvent(call)]);
    PlainOne(ToolCallEvent(call));
  }

  /** What is emitted for an event has the same plain events. */
  lemma PlainReactions(emitted: seq<ProviderEvent>, event: ProviderEvent)
    ensures Plain(emitted + [event]) == Plain(emitted) + Plain([event])
    ensures !IsPlain(event) ==> Plain(emitted) == Plain(emitted) + Plain([event])
  {
    PlainConcat(emitted, [event]);
    PlainOne(event);
  }

  lemma NothingPlain(emitted: seq<ProviderEvent>, events: seq<ProviderEvent>)
    ensures events[..0] == [] && Plain(emitted) + Plain([]) == Plain(emitted)
  {
  }

  lemma LastOne(emitted: seq<ProviderEvent>, open: bool, registered: seq<Text>, event: ProviderEvent)
    requires NoTerminal(emitted) && IsTerminal(event)
    ensures Ended(emitted, false) && Ended(emitted + [event], true)
    ensures Starts(emitted + [event]) == Starts(emitted) && CallsIn(emitted + [event]) == CallsIn(emitted)
  {
    EmitOne(emitted, event);
  }
}
