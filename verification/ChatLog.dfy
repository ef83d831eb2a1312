/**
 The projection of the server log to one chat, over maps by identifier: what each event changes,
 and what streamed deltas make of a message's text.
 */
module ChatLog {
  import opened Wrappers
  import opened MachineInts
  import opened Vectors
  import opened Protocol
  import opened Replication

  /** A chat as maps by identifier: no order, no duplicates. */
  datatype ChatState = ChatState(
    chat: Option<ChatSummary>,
    messages: map<Id, MessageSummary>,
    activities: map<Id, ActivitySummary>,
    approvals: map<Id, ApprovalSummary>,
    queue: map<Id, QueuedPrompt>,
    context: Option<WorkingContext>,
    checkpoints: map<Id, TurnCheckpoint>)

  const NO_CHAT := ChatState(None, map[], map[], map[], map[], None, map[])

  // ---------------------------------------------------------------------------------------
  // Message text
  // ---------------------------------------------------------------------------------------

  /** Position of the last text part, or the length when there is none. */
  function LastText(parts: seq<MessagePart>): (p: nat)
    ensures p <= |parts|
    ensures p < |parts| ==> parts[p].TextPart?
    ensures forall i | p < i < |parts| :: !parts[i].TextPart?
    ensures p == |parts| ==> forall i | 0 <= i < |parts| :: !parts[i].TextPart?
  {
    if parts == [] then 0
    else
      var last := |parts| - 1;
      if parts[last].TextPart? then last
      else
        var p := LastText(parts[..last]);
        if p == last then |parts| else p
  }

  /** Extends the last text part, or starts one at the end. */
  function AppendDelta(message: MessageSummary, delta: Text): (r: MessageSummary)
    ensures r == message.(parts := r.parts)
  {
    var p := LastText(message.parts);
    message.(parts :=
      if p < |message.parts| then
        message.parts[p := TextPart(message.parts[p].ordinal, message.parts[p].text + delta)]
      else
        message.parts + [TextPart(SaturateU32(|message.parts|), delta)])
  }

  /** The last text part grows at its end; without one, a text part follows, numbered by its place. */
  lemma WhereDeltasGo(message: MessageSummary, delta: Text, p: nat)
    ensures var parts, extended := message.parts, AppendDelta(message, delta);
            && extended == message.(parts := extended.parts)
            && (p < |parts| && parts[p].TextPart? && (forall i | p < i < |parts| :: !parts[i].TextPart?) ==>
                  extended.parts == parts[p := TextPart(parts[p].ordinal, parts[p].text + delta)])
            && ((forall i | 0 <= i < |parts| :: !parts[i].TextPart?) ==>
                  && |extended.parts| == |parts| + 1 && parts <= extended.parts
                  && extended.parts[|parts|].TextPart? && extended.parts[|parts|].text == delta
                  && (|parts| <= U32_MAX ==> extended.parts[|parts|].ordinal == |parts|)
                  && (|parts| > U32_MAX ==> extended.parts[|parts|].ordinal == U32_MAX))
  {
  }

  /** What a reader sees: the text parts in order. */
  function VisibleText(parts: seq<MessagePart>): Text {
    if parts == [] then []
    else VisibleText(parts[..|parts| - 1]) + (var p := parts[|parts| - 1]; if p.TextPart? then p.text else [])
  }

  lemma {:induction false} NoVisibleText(parts: seq<MessagePart>)
    requires forall i | 0 <= i < |parts| :: !parts[i].TextPart?
    ensures VisibleText(parts) == []
  {
    if parts != [] {
      NoVisibleText(parts[..|parts| - 1]);
    }
  }

  /** Wherever the text parts are, a delta extends the visible text at its end. */
  lemma {:induction false} DeltaExtendsText(message: MessageSummary, delta: Text)
    ensures VisibleText(AppendDelta(message, delta).parts) == VisibleText(message.parts) + delta
    decreases |message.parts|
  {
    var parts := message.parts;
    var p := LastText(parts);
    var extended := AppendDelta(message, delta).parts;
    if p == |parts| {
      NoVisibleText(parts);
      assert extended[..|parts|] == parts;
    } else if p == |parts| - 1 {
      assert extended[..p] == parts[..p];
    } else {
      var last := |parts| - 1;
      var shorter := message.(parts := parts[..last]);
      DeltaExtendsText(shorter, delta);
      assert LastText(parts[..last]) == p;
      assert extended[..last] == AppendDelta(shorter, delta).parts;
    }
  }

  // ---------------------------------------------------------------------------------------
  // The fold
  // ---------------------------------------------------------------------------------------

  /** Whether an event changes the projection of the state's chat. */
  predicate Concerns(st: ChatState, body: ServerEventBody) {
    st.chat.Some?
    && var c := st.chat.value.id;
       match body
       case ChatChanged(chat) => chat.id == c
       case MessageChanged(message) => message.chatId == c
       case MessageDelta(chatId, messageId, _) => chatId == c && messageId in st.messages
       case ActivityChanged(activity) => activity.chatId == c
       case ApprovalChanged(approval) => approval.chatId == c
       case QueuedPromptChanged(prompt) => prompt.chatId == c
       case QueuedPromptRemoved(chatId, _) => chatId == c
       case WorkingContextChanged(context) => context.chatId == c
       case TurnCheckpointChanged(checkpoint) => checkpoint.chatId == c
       case CheckpointRestored(restore) => restore.chatId == c
       case _ => false
  }

  function Project(st: ChatState, body: ServerEventBody): ChatState {
    if !Concerns(st, body) then st
    else
      match body
      case ChatChanged(chat) => st.(chat := Some(chat))
      case MessageChanged(message) => st.(messages := st.messages[message.id := message])
      case MessageDelta(_, messageId, delta) =>
        st.(messages := st.messages[messageId := AppendDelta(st.messages[messageId], delta)])
      case ActivityChanged(activity) => st.(activities := st.activities[activity.id := activity])
      case ApprovalChanged(approval) => st.(approvals := st.approvals[approval.id := approval])
      case QueuedPromptChanged(prompt) => st.(queue := st.queue[prompt.id := prompt])
      case QueuedPromptRemoved(_, promptId) => st.(queue := st.queue - {promptId})
      case WorkingContextChanged(context) => st.(context := Some(context))
      case TurnCheckpointChanged(checkpoint) => st.(checkpoints := st.checkpoints[checkpoint.id := checkpoint])
      case _ => st
  }

  /** A delta to a message the projection does not have: the projection asks for a snapshot. */
  predicate MissesMessage(st: ChatState, body: ServerEventBody) {
    st.chat.Some? && body.MessageDelta? && body.chatId == st.chat.value.id && body.messageId !in st.messages
  }

  /** What the next event makes of a chat. A changed entry of the chat is shown under its identifier, a
      delta extends the message it names or asks for a snapshot, and anything of another chat changes
      nothing. */
  lemma WhatEventsDo(st: ChatState, body: ServerEventBody)
    requires st.chat.Some?
    ensures var c, next, concerns := st.chat.value.id, Project(st, body), Concerns(st, body);
            match body
            case ChatChanged(chat) =>
              if chat.id == c then concerns && next == st.(chat := Some(chat)) else !concerns && next == st
            case MessageChanged(message) =>
              if message.chatId == c then concerns && next == st.(messages := st.messages[message.id := message])
              else !concerns && next == st
            case MessageDelta(chat, id, delta) =>
              if chat == c && id in st.messages then
                && concerns && next == st.(messages := next.messages)
                && next.messages.Keys == st.messages.Keys
                && (forall other | other in st.messages && other != id :: next.messages[other] == st.messages[other])
                && next.messages[id] == AppendDelta(st.messages[id], delta)
              else !concerns && next == st
            case ActivityChanged(activity) =>
              if activity.chatId == c then
                concerns && next == st.(activities := st.activities[activity.id := activity])
              else !concerns && next == st
            case ApprovalChanged(approval) =>
              if approval.chatId == c then concerns && next == st.(approvals := st.approvals[approval.id := approval])
              else !concerns && next == st
            case QueuedPromptChanged(prompt) =>
              if prompt.chatId == c then concerns && next == st.(queue := st.queue[prompt.id := prompt])
              else !concerns && next == st
            case QueuedPromptRemoved(chat, prompt) =>
              if chat == c then concerns && next == st.(queue := st.queue - {prompt}) else !concerns && next == st
            case WorkingContextChanged(context) =>
              if context.chatId == c then concerns && next == st.(context := Some(context)) else !concerns && next == st
            case TurnCheckpointChanged(checkpoint) =>
              if checkpoint.chatId == c then
                concerns && next == st.(checkpoints := st.checkpoints[checkpoint.id := checkpoint])
              else !concerns && next == st
            case CheckpointRestored(restore) => next == st && (concerns <==> restore.chatId == c)
            case GroupChatChanged(_) => !concerns && next == st
            case GroupParticipantChanged(_) => !concerns && next == st
            case GroupParticipantRemoved(_, _) => !concerns && next == st
            case GroupHandoffRecorded(_) => !concerns && next == st
            case OtherBody => !concerns && next == st
    ensures MissesMessage(st, body) <==>
              body.MessageDelta? && body.chatId == st.chat.value.id && body.messageId !in st.messages
  {
  }

  /** The same for a replica: a keyed change that is the next event is applied, and its entry shown,
      exactly when a chat is loaded and the entry is of that chat; otherwise it is unrelated, and what is
      shown stays. */
  lemma ChangesAreShown(r: Replica<ChatState>, event: ServerEvent)
    requires event.eventId !in r.applied && event.sequence == r.cursor + 1
    ensures var (next, outcome) := Receive(CHAT, r, event);
            var loaded := if r.view.chat.Some? then {r.view.chat.value.id} else {};
            && (outcome == Unrelated ==> next.view == r.view)
            && match event.body
               case MessageChanged(message) =>
                 && outcome == (if message.chatId in loaded then Applied else Unrelated)
                 && (outcome == Applied ==> next.view.messages == r.view.messages[message.id := message])
               case ActivityChanged(activity) =>
                 && outcome == (if activity.chatId in loaded then Applied else Unrelated)
                 && (outcome == Applied ==> next.view.activities == r.view.activities[activity.id := activity])
               case ApprovalChanged(approval) =>
                 && outcome == (if approval.chatId in loaded then Applied else Unrelated)
                 && (outcome == Applied ==> next.view.approvals == r.view.approvals[approval.id := approval])
               case QueuedPromptChanged(prompt) =>
                 && outcome == (if prompt.chatId in loaded then Applied else Unrelated)
                 && (outcome == Applied ==> next.view.queue == r.view.queue[prompt.id := prompt])
               case TurnCheckpointChanged(checkpoint) =>
                 && outcome == (if checkpoint.chatId in loaded then Applied else Unrelated)
                 && (outcome == Applied ==>
                       next.view.checkpoints == r.view.checkpoints[checkpoint.id := checkpoint])
               case _ => r.view.chat.None? ==> outcome == Unrelated
  {
    WhatIsReceived(CHAT, r, event);
    if r.view.chat.Some? {
      WhatEventsDo(r.view, event.body);
    }
  }

  const CHAT := Projection(NO_CHAT, Project, Concerns, MissesMessage)

  type ChatLog = ServerLog<ChatState>

  ghost predicate ValidChatLog(log: ChatLog) {
    && ValidLog(CHAT, log)
    && (forall c | c in log.genesis :: log.genesis[c].chat.Some? && log.genesis[c].chat.value.id == c)
  }

  /** The text one event adds to a message. */
  function DeltaTo(body: ServerEventBody, chat: Id, messageId: Id): Text {
    if body.MessageDelta? && body.chatId == chat && body.messageId == messageId then body.delta else []
  }

  /** The deltas sent to a message by events `lo` to `hi`, joined. */
  function DeltasTo(log: ChatLog, chat: Id, messageId: Id, lo: nat, hi: nat): Text
    requires lo <= hi <= |log.events|
    decreases hi - lo
  {
    if lo == hi then []
    else
      DeltasTo(log, chat, messageId, lo, hi - 1) + DeltaTo(log.events[hi - 1].body, chat, messageId)
  }

  lemma ProjectKeepsChat(st: ChatState, body: ServerEventBody)
    requires st.chat.Some?
    ensures Project(st, body).chat.Some? && Project(st, body).chat.value.id == st.chat.value.id
  {
  }

  lemma {:induction false} ChatKeepsId(log: ChatLog, chat: Id, n: nat)
    requires ValidChatLog(log) && chat in log.genesis && n <= |log.events|
    ensures StateAt(CHAT, log, chat, n).chat.Some? && StateAt(CHAT, log, chat, n).chat.value.id == chat
  {
    hide Project;
    if n > 0 {
      ChatKeepsId(log, chat, n - 1);
      ProjectKeepsChat(StateAt(CHAT, log, chat, n - 1), log.events[n - 1].body);
    }
  }

  lemma EventExtendsText(st: ChatState, body: ServerEventBody, messageId: Id)
    requires st.chat.Some? && messageId in st.messages
    requires body.MessageChanged? ==> body.message.id != messageId
    ensures messageId in Project(st, body).messages
    ensures VisibleText(Project(st, body).messages[messageId].parts)
            == VisibleText(st.messages[messageId].parts) + DeltaTo(body, st.chat.value.id, messageId)
  {
    if body.MessageDelta? && body.messageId == messageId {
      DeltaExtendsText(st.messages[messageId], body.delta);
    }
  }

  /** Streaming: while a message is not replaced, its visible text is what it was followed by all
      the deltas sent to it since, whatever other events lie in between. */
  lemma {:induction false} StreamedText(log: ChatLog, chat: Id, messageId: Id, lo: nat, hi: nat)
    requires ValidChatLog(log) && chat in log.genesis && lo <= hi <= |log.events|
    requires messageId in StateAt(CHAT, log, chat, lo).messages
    requires forall i | lo <= i < hi ::
               log.events[i].body.MessageChanged? ==> log.events[i].body.message.id != messageId
    ensures messageId in StateAt(CHAT, log, chat, hi).messages
    ensures VisibleText(StateAt(CHAT, log, chat, hi).messages[messageId].parts)
            == VisibleText(StateAt(CHAT, log, chat, lo).messages[messageId].parts)
               + DeltasTo(log, chat, messageId, lo, hi)
    decreases hi
  {
    hide Project, VisibleText, DeltaTo;
    if lo < hi {
      StreamedText(log, chat, messageId, lo, hi - 1);
      ChatKeepsId(log, chat, hi - 1);
      EventExtendsText(StateAt(CHAT, log, chat, hi - 1), log.events[hi - 1].body, messageId);
    }
  }
}
