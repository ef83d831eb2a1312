/**
 The desktop timeline of one chat: vectors kept sorted and updated in place by events and by
 snapshots. Each method is proved to be the step of the replica of the map-based projection in `ChatLog`.
 */
module Timeline {
  import opened Wrappers
  import opened MachineInts
  import opened Vectors
  import opened Protocol
  import opened Replication
  import opened ChatLog

  /** Each entity is listed once. */
  ghost predicate Listed(messages: seq<MessageSummary>, activities: seq<ActivitySummary>,
                         approvals: seq<ApprovalSummary>, queue: seq<QueuedPrompt>, checkpoints: seq<TurnCheckpoint>)
  {
    && DistinctIds(messages, MessageId) && DistinctIds(activities, ActivityId)
    && DistinctIds(approvals, ApprovalId) && DistinctIds(queue, PromptId)
    && DistinctIds(checkpoints, CheckpointId)
  }

  /** What the vectors show: of each entity the one listed first. */
  ghost function Shown(chat: Option<ChatSummary>, messages: seq<MessageSummary>, activities: seq<ActivitySummary>,
                       approvals: seq<ApprovalSummary>, queue: seq<QueuedPrompt>, context: Option<WorkingContext>,
                       checkpoints: seq<TurnCheckpoint>): ChatState
  {
    ChatState(chat, ById(messages, MessageId), ById(activities, ActivityId), ById(approvals, ApprovalId),
              ById(queue, PromptId), context, ById(checkpoints, CheckpointId))
  }

  datatype ChatTimelineResponse = ChatTimelineResponse(
    chat: ChatSummary,
    messages: seq<MessageSummary>,
    activities: seq<ActivitySummary>,
    approvals: seq<ApprovalSummary>, queuedPrompts: seq<QueuedPrompt>,
    workingContext: Option<WorkingContext>,
    checkpoints: seq<TurnCheckpoint>,
    boundarySequence: u64)
  {
    ghost predicate ListsOnce() {
      Listed(messages, activities, approvals, queuedPrompts, checkpoints)
    }

    ghost function View(): ChatState {
      Shown(Some(chat), messages, activities, approvals, queuedPrompts, workingContext, checkpoints)
    }
  }

  /** The events that put one changed entry into a vector. */
  predicate KeyedChange(body: ServerEventBody) {
    body.MessageChanged? || body.ActivityChanged? || body.ApprovalChanged? || body.QueuedPromptChanged?
    || body.TurnCheckpointChanged?
  }

  datatype Lists = Lists(messages: seq<MessageSummary>, activities: seq<ActivitySummary>,
                         approvals: seq<ApprovalSummary>, queue: seq<QueuedPrompt>, checkpoints: seq<TurnCheckpoint>)

  /** The entry a keyed change is for is replaced where it is first listed, or appended, and its
      vector sorted; the other vectors stay. */
  ghost predicate Resorted(body: ServerEventBody, before: Lists, after: Lists)
    requires KeyedChange(body)
  {
    match body
    case MessageChanged(message) =>
      && SortedFrom(after.messages, Upsert(before.messages, message, MessageId), MessageKey)
      && after == before.(messages := after.messages)
    case ActivityChanged(activity) =>
      && SortedFrom(after.activities, Upsert(before.activities, activity, ActivityId), ActivityKey)
      && after == before.(activities := after.activities)
    case ApprovalChanged(approval) =>
      && SortedFrom(after.approvals, Upsert(before.approvals, approval, ApprovalId), ApprovalKey)
      && after == before.(approvals := after.approvals)
    case QueuedPromptChanged(prompt) =>
      && SortedFrom(after.queue, Upsert(before.queue, prompt, PromptId), PromptKey)
      && after == before.(queue := after.queue)
    case TurnCheckpointChanged(checkpoint) =>
      && SortedFrom(after.checkpoints, Upsert(before.checkpoints, checkpoint, CheckpointId), CheckpointKey)
      && after == before.(checkpoints := after.checkpoints)
  }

  /** Whatever is listed twice, the changed entry is in its vector, which is in display order, and of the
      others every one is that is not of its identifier; the other vectors stay. */
  lemma ChangeIsListed(body: ServerEventBody, before: Lists, after: Lists, at: nat)
    requires KeyedChange(body) && Resorted(body, before, after)
    ensures !body.MessageChanged? ==> after.messages == before.messages
    ensures !body.ActivityChanged? ==> after.activities == before.activities
    ensures !body.ApprovalChanged? ==> after.approvals == before.approvals
    ensures !body.QueuedPromptChanged? ==> after.queue == before.queue
    ensures !body.TurnCheckpointChanged? ==> after.checkpoints == before.checkpoints
    ensures body.MessageChanged? ==>
              && body.message in after.messages
              && (forall i, j | 0 <= i < j < |after.messages| ::
                    after.messages[i].createdAt <= after.messages[j].createdAt)
              && (at < |before.messages| && before.messages[at].id != body.message.id ==>
                    before.messages[at] in after.messages)
    ensures body.ActivityChanged? ==>
              && body.activity in after.activities
              && (forall i, j | 0 <= i < j < |after.activities| ::
                    after.activities[i].startedAt <= after.activities[j].startedAt)
              && (at < |before.activities| && before.activities[at].id != body.activity.id ==>
                    before.activities[at] in after.activities)
    ensures body.ApprovalChanged? ==>
              && body.approval in after.approvals
              && (forall i, j | 0 <= i < j < |after.approvals| ::
                    after.approvals[i].createdAt <= after.approvals[j].createdAt)
              && (at < |before.approvals| && before.approvals[at].id != body.approval.id ==>
                    before.approvals[at] in after.approvals)
    ensures body.QueuedPromptChanged? ==>
              && body.prompt in after.queue
              && (forall i, j | 0 <= i < j < |after.queue| :: after.queue[i].position <= after.queue[j].position)
              && (at < |before.queue| && before.queue[at].id != body.prompt.id ==> before.queue[at] in after.queue)
    ensures body.TurnCheckpointChanged? ==>
              && body.checkpoint in after.checkpoints
              && (forall i, j | 0 <= i < j < |after.checkpoints| ::
                    after.checkpoints[i].createdAt <= after.checkpoints[j].createdAt)
              && (at < |before.checkpoints| && before.checkpoints[at].id != body.checkpoint.id ==>
                    before.checkpoints[at] in after.checkpoints)
  {
    match body
    case MessageChanged(message) => UpsertIsListed(before.messages, after.messages, message, MessageId, MessageKey, at);
    case ActivityChanged(activity) =>
      UpsertIsListed(before.activities, after.activities, activity, ActivityId, ActivityKey, at);
    case ApprovalChanged(approval) =>
      UpsertIsListed(before.approvals, after.approvals, approval, ApprovalId, ApprovalKey, at);
    case QueuedPromptChanged(prompt) => UpsertIsListed(before.queue, after.queue, prompt, PromptId, PromptKey, at);
    case TurnCheckpointChanged(checkpoint) =>
      UpsertIsListed(before.checkpoints, after.checkpoints, checkpoint, CheckpointId, CheckpointKey, at);
  }

  /** What a timeline in order shows: of each identifier one entry that is listed, and the vectors ascend
      by their times and positions. */
  lemma WhatIsShown(timeline: TimelineModel, id: Id)
    requires timeline.InOrder()
    ensures forall i, j | 0 <= i < j < |timeline.messages| ::
              timeline.messages[i].createdAt <= timeline.messages[j].createdAt
    ensures forall i, j | 0 <= i < j < |timeline.activities| ::
              timeline.activities[i].startedAt <= timeline.activities[j].startedAt
    ensures forall i, j | 0 <= i < j < |timeline.approvals| ::
              timeline.approvals[i].createdAt <= timeline.approvals[j].createdAt
    ensures forall i, j | 0 <= i < j < |timeline.queuedPrompts| ::
              timeline.queuedPrompts[i].position <= timeline.queuedPrompts[j].position
    ensures id in timeline.View().messages <==> exists message :: message in timeline.messages && message.id == id
    ensures id in timeline.View().activities <==>
              exists activity :: activity in timeline.activities && activity.id == id
    ensures id in timeline.View().approvals <==>
              exists approval :: approval in timeline.approvals && approval.id == id
    ensures id in timeline.View().queue <==> exists prompt :: prompt in timeline.queuedPrompts && prompt.id == id
    ensures id in timeline.View().checkpoints <==>
              exists checkpoint :: checkpoint in timeline.checkpoints && checkpoint.id == id
  {
    IdIsListed(timeline.messages, MessageId, id);
    IdIsListed(timeline.activities, ActivityId, id);
    IdIsListed(timeline.approvals, ApprovalId, id);
    IdIsListed(timeline.queuedPrompts, PromptId, id);
    IdIsListed(timeline.checkpoints, CheckpointId, id);
    hide ById;
    assert forall m :: MessageId(m) == m.id;
    assert forall a :: ActivityId(a) == a.id;
    assert forall a :: ApprovalId(a) == a.id;
    assert forall p :: PromptId(p) == p.id;
    assert forall c :: CheckpointId(c) == c.id;
  }

  /** Nothing concerns a timeline without a chat, and only a delta can miss its message. */
  lemma OnlyDeltasMiss(st: ChatState, body: ServerEventBody)
    ensures st.chat.None? ==> !Concerns(st, body) && Project(st, body) == st
    ensures st.chat.None? || !body.MessageDelta? ==> !MissesMessage(st, body)
    ensures body.MessageDelta? ==> !KeyedChange(body)
  {
  }

  lemma OtherChanges(st: ChatState, body: ServerEventBody)
    requires st.chat.Some? && !KeyedChange(body) && !body.MessageDelta?
    ensures !Concerns(st, body) ==> Project(st, body) == st
    ensures match body
            case ChatChanged(changed) =>
              && Concerns(st, body) == (changed.id == st.chat.value.id)
              && (Concerns(st, body) ==> Project(st, body) == st.(chat := Some(changed)))
            case QueuedPromptRemoved(chat, promptId) =>
              && Concerns(st, body) == (chat == st.chat.value.id)
              && (Concerns(st, body) ==> Project(st, body) == st.(queue := st.queue - {promptId}))
            case WorkingContextChanged(context) =>
              && Concerns(st, body) == (context.chatId == st.chat.value.id)
              && (Concerns(st, body) ==> Project(st, body) == st.(context := Some(context)))
            case CheckpointRestored(restore) =>
              Concerns(st, body) == (restore.chatId == st.chat.value.id) && Project(st, body) == st
            case _ => !Concerns(st, body)
  {
  }

  /** Each entity is listed once when no two entries of a kind share an identifier. */
  lemma WhatListsOnce(messages: seq<MessageSummary>, activities: seq<ActivitySummary>, approvals: seq<ApprovalSummary>,
                      queue: seq<QueuedPrompt>, checkpoints: seq<TurnCheckpoint>)
    ensures Listed(messages, activities, approvals, queue, checkpoints) <==>
              && (forall i, j | 0 <= i < j < |messages| :: messages[i].id != messages[j].id)
              && (forall i, j | 0 <= i < j < |activities| :: activities[i].id != activities[j].id)
              && (forall i, j | 0 <= i < j < |approvals| :: approvals[i].id != approvals[j].id)
              && (forall i, j | 0 <= i < j < |queue| :: queue[i].id != queue[j].id)
              && forall i, j | 0 <= i < j < |checkpoints| :: checkpoints[i].id != checkpoints[j].id
  {
  }

  lemma WhatTimelinesListOnce(timeline: TimelineModel, response: ChatTimelineResponse)
    ensures timeline.ListsOnce() <==>
              Listed(timeline.messages, timeline.activities, timeline.approvals, timeline.queuedPrompts,
                     timeline.checkpoints)
    ensures timeline.Valid() <==> timeline.ListsOnce() && timeline.InOrder()
    ensures response.ListsOnce() <==>
              Listed(response.messages, response.activities, response.approvals, response.queuedPrompts,
                     response.checkpoints)
  {
  }

  /** The outcome for a changed entry that comes next. */
  lemma NextOutcome(r: Replica<ChatState>, event: ServerEvent)
    ensures event.eventId !in r.applied && event.sequence == r.cursor + 1 ==>
              var loaded := if r.view.chat.Some? then {r.view.chat.value.id} else {};
              var outcome := Receive(CHAT, r, event).1;
              match event.body
              case MessageChanged(message) => outcome == if message.chatId in loaded then Applied else Unrelated
              case ActivityChanged(activity) => outcome == if activity.chatId in loaded then Applied else Unrelated
              case ApprovalChanged(approval) => outcome == if approval.chatId in loaded then Applied else Unrelated
              case QueuedPromptChanged(prompt) => outcome == if prompt.chatId in loaded then Applied else Unrelated
              case TurnCheckpointChanged(checkpoint) =>
                outcome == if checkpoint.chatId in loaded then Applied else Unrelated
              case _ => true
    ensures Receive(CHAT, r, event).1 == Unrelated ==> Receive(CHAT, r, event).0.view == r.view
  {
    if event.eventId !in r.applied && event.sequence == r.cursor + 1 {
      ChangesAreShown(r, event);
    }
  }

  class TimelineModel {
    var chat: Option<ChatSummary>
    var messages: seq<MessageSummary>
    var activities: seq<ActivitySummary>
    var approvals: seq<ApprovalSummary>
    var queuedPrompts: seq<QueuedPrompt>
    var workingContext: Option<WorkingContext>
    var checkpoints: seq<TurnCheckpoint>
    var lastRestore: Option<CheckpointRestore>
    var cursor: u64
    var needsSnapshot: bool
    var atBottom: bool
    var unseenUpdates: u32
    var appliedEventIds: set<Id>

    ghost predicate ListsOnce()
      reads this`messages, this`activities, this`approvals, this`queuedPrompts, this`checkpoints
    {
      Listed(messages, activities, approvals, queuedPrompts, checkpoints)
    }

    /** Every vector but the checkpoints is in display order. */
    ghost predicate InOrder()
      reads this`messages, this`activities, this`approvals, this`queuedPrompts
    {
      && SortedBy(messages, MessageKey) && SortedBy(activities, ActivityKey)
      && SortedBy(approvals, ApprovalKey) && SortedBy(queuedPrompts, PromptKey)
    }

    ghost predicate Valid()
      reads this`messages, this`activities, this`approvals, this`queuedPrompts, this`checkpoints
    {
      ListsOnce() && InOrder()
    }

    ghost function Vectors(): Lists
      reads this`messages, this`activities, this`approvals, this`queuedPrompts, this`checkpoints
    {
      Lists(messages, activities, approvals, queuedPrompts, checkpoints)
    }

    ghost function View(): ChatState
      reads this`chat, this`messages, this`activities, this`approvals, this`queuedPrompts,
            this`workingContext, this`checkpoints
    {
      Shown(chat, messages, activities, approvals, queuedPrompts, workingContext, checkpoints)
    }

    ghost function AsReplica(): Replica<ChatState>
      reads this
    {
      Replica(View(), cursor, needsSnapshot, appliedEventIds)
    }

    constructor ()
      ensures Valid()
      ensures AsReplica() == Fresh(CHAT)
    {
      chat, messages, activities, approvals := None, [], [], [];
      queuedPrompts, workingContext, checkpoints, lastRestore := [], None, [], None;
      cursor, needsSnapshot, atBottom, unseenUpdates, appliedEventIds := 0, false, true, 0, {};
      new;
      assert View() == NO_CHAT;
    }

    /** Loads a snapshot: the replica restarts at its boundary. Checkpoints keep the order of the
        response. A response that repeats an identifier is loaded and sorted as it is. */
    method Hydrate(timeline: ChatTimelineResponse)
      modifies this
      ensures InOrder()
      ensures timeline.ListsOnce() ==> Valid() && AsReplica() == Hydrated(timeline.View(), timeline.boundarySequence)
      ensures SortedFrom(messages, timeline.messages, MessageKey)
      ensures SortedFrom(activities, timeline.activities, ActivityKey)
      ensures SortedFrom(approvals, timeline.approvals, ApprovalKey)
      ensures SortedFrom(queuedPrompts, timeline.queuedPrompts, PromptKey)
      ensures chat == Some(timeline.chat) && workingContext == timeline.workingContext
      ensures cursor == timeline.boundarySequence && !needsSnapshot && appliedEventIds == {}
      ensures checkpoints == timeline.checkpoints && lastRestore == None
      ensures atBottom == old(atBottom) && unseenUpdates == old(unseenUpdates)
    {
      hide Listed, Shown, SortByKey, SortedFrom, InOrder;
      chat := Some(timeline.chat);
      messages := timeline.messages;
      activities := timeline.activities;
      approvals := timeline.approvals;
      queuedPrompts := timeline.queuedPrompts;
      workingContext := timeline.workingContext;
      checkpoints := timeline.checkpoints;
      lastRestore := None;
      cursor := timeline.boundarySequence;
      needsSnapshot := false;
      appliedEventIds := {};
      SortAll();
    }

    /** Puts every vector but the checkpoints in display order: no element is gained or lost, those of
        equal keys keep their order, and the timeline shows the same entities. */
    method SortAll()
      modifies this`messages, this`activities, this`approvals, this`queuedPrompts
      ensures InOrder()
      ensures old(ListsOnce()) ==> ListsOnce() && View() == old(View())
      ensures SortedFrom(messages, old(messages), MessageKey) && SortedFrom(activities, old(activities), ActivityKey)
      ensures SortedFrom(approvals, old(approvals), ApprovalKey)
      ensures SortedFrom(queuedPrompts, old(queuedPrompts), PromptKey)
    {
      SortedView(messages, MessageKey, MessageId);
      SortedView(activities, ActivityKey, ActivityId);
      SortedView(approvals, ApprovalKey, ApprovalId);
      SortedView(queuedPrompts, PromptKey, PromptId);
      hide DistinctIds, SortedBy, ById, SortByKey, SortedFrom;
      messages := SortByKey(messages, MessageKey);
      activities := SortByKey(activities, ActivityKey);
      approvals := SortByKey(approvals, ApprovalKey);
      queuedPrompts := SortByKey(queuedPrompts, PromptKey);
    }

    method ChangeChat(changed: ChatSummary)
      modifies this`chat
      ensures View() == old(View()).(chat := Some(changed))
    {
      chat := Some(changed);
    }

    method ChangeContext(context: WorkingContext)
      modifies this`workingContext
      ensures View() == old(View()).(context := Some(context))
    {
      workingContext := Some(context);
    }

    method ChangeMessage(message: MessageSummary)
      requires InOrder()
      modifies this`messages
      ensures InOrder() && Resorted(MessageChanged(message), old(Vectors()), Vectors())
      ensures View() == old(View()).(messages := View().messages)
      ensures old(ListsOnce()) ==>
                ListsOnce() && View().messages == old(View()).messages[message.id := message]
    {
      hide DistinctIds, SortedBy, SortedFrom, ById, SortByKey, Upsert;
      UpsertSortView(messages, message, MessageId, MessageKey);
      messages := SortByKey(Upsert(messages, message, MessageId), MessageKey);
    }

    method ChangeActivity(activity: ActivitySummary)
      requires InOrder()
      modifies this`activities
      ensures InOrder() && Resorted(ActivityChanged(activity), old(Vectors()), Vectors())
      ensures View() == old(View()).(activities := View().activities)
      ensures old(ListsOnce()) ==>
                ListsOnce() && View().activities == old(View()).activities[activity.id := activity]
    {
      hide DistinctIds, SortedBy, SortedFrom, ById, SortByKey, Upsert;
      UpsertSortView(activities, activity, ActivityId, ActivityKey);
      activities := SortByKey(Upsert(activities, activity, ActivityId), ActivityKey);
    }

    method ChangeApproval(approval: ApprovalSummary)
      requires InOrder()
      modifies this`approvals
      ensures InOrder() && Resorted(ApprovalChanged(approval), old(Vectors()), Vectors())
      ensures View() == old(View()).(approvals := View().approvals)
      ensures old(ListsOnce()) ==>
                ListsOnce() && View().approvals == old(View()).approvals[approval.id := approval]
    {
      hide DistinctIds, SortedBy, SortedFrom, ById, SortByKey, Upsert;
      UpsertSortView(approvals, approval, ApprovalId, ApprovalKey);
      approvals := SortByKey(Upsert(approvals, approval, ApprovalId), ApprovalKey);
    }

    method ChangePrompt(prompt: QueuedPrompt)
      requires InOrder()
      modifies this`queuedPrompts
      ensures InOrder() && Resorted(QueuedPromptChanged(prompt), old(Vectors()), Vectors())
      ensures View() == old(View()).(queue := View().queue)
      ensures old(ListsOnce()) ==>
                ListsOnce() && View().queue == old(View()).queue[prompt.id := prompt]
    {
      hide DistinctIds, SortedBy, SortedFrom, ById, SortByKey, Upsert;
      UpsertSortView(queuedPrompts, prompt, PromptId, PromptKey);
      queuedPrompts := SortByKey(Upsert(queuedPrompts, prompt, PromptId), PromptKey);
    }

    method ChangeCheckpoint(checkpoint: TurnCheckpoint)
      requires InOrder()
      modifies this`checkpoints
      ensures InOrder() && Resorted(TurnCheckpointChanged(checkpoint), old(Vectors()), Vectors())
      ensures View() == old(View()).(checkpoints := View().checkpoints)
      ensures old(ListsOnce()) ==>
                ListsOnce() && View().checkpoints == old(View()).checkpoints[checkpoint.id := checkpoint]
    {
      hide DistinctIds, SortedBy, SortedFrom, ById, SortByKey, Upsert;
      UpsertSortView(checkpoints, checkpoint, CheckpointId, CheckpointKey);
      checkpoints := SortByKey(Upsert(checkpoints, checkpoint, CheckpointId), CheckpointKey);
    }

    /** Extends the first listed message of the identifier in place; reports a message that is not
        listed. */
    method ExtendMessage(messageId: Id, delta: Text) returns (found: bool)
      requires InOrder()
      modifies this`messages
      ensures InOrder() && (old(ListsOnce()) ==> ListsOnce())
      ensures found == (messageId in old(View()).messages)
      ensures View() == if found
                        then old(View()).(messages := old(View()).messages[messageId :=
                               AppendDelta(old(View()).messages[messageId], delta)])
                        else old(View())
    {
      hide DistinctIds, SortedBy, ById, AppendDelta;
      ByIdAt(messages, MessageId, messageId);
      var at := Position(messages, MessageId, messageId);
      found := at < |messages|;
      if found {
        var extended := AppendDelta(messages[at], delta);
        ReplaceKeepsOrder(messages, MessageKey, at, extended);
        ReplaceView(messages, MessageId, at, extended);
        messages := messages[at := extended];
      }
    }

    method RemovePrompt(promptId: Id)
      requires InOrder()
      modifies this`queuedPrompts
      ensures InOrder() && (old(ListsOnce()) ==> ListsOnce())
      ensures View() == old(View()).(queue := old(View()).queue - {promptId})
    {
      hide DistinctIds, SortedBy, ById, Without;
      WithoutView(queuedPrompts, PromptId, promptId, PromptKey);
      queuedPrompts := Without(queuedPrompts, PromptId, promptId);
    }

    /** Changes the vectors as the event says. Whether it concerns the chat, and whether it misses a
        message, does not depend on entities being listed once; what a keyed change makes of the map
        view does, because sorting may put another entry of the same identifier first. */
    method ApplyBody(body: ServerEventBody) returns (relevant: bool)
      requires InOrder()
      modifies this`chat, this`messages, this`activities, this`approvals, this`queuedPrompts,
               this`workingContext, this`checkpoints, this`lastRestore, this`needsSnapshot
      ensures InOrder() && (old(ListsOnce()) ==> ListsOnce())
      ensures relevant == Concerns(old(View()), body)
      ensures needsSnapshot == (old(needsSnapshot) || MissesMessage(old(View()), body))
      ensures old(ListsOnce()) || !relevant || !KeyedChange(body) ==> View() == Project(old(View()), body)
      ensures relevant && KeyedChange(body) ==> Resorted(body, old(Vectors()), Vectors())
      ensures lastRestore == if relevant && body.CheckpointRestored? then Some(body.restore) else old(lastRestore)
    {
      assert View().chat == chat;
      OnlyDeltasMiss(View(), body);
      hide *;
      if chat == None {
        return false;
      }
      if KeyedChange(body) {
        relevant := ApplyChange(body, chat.value.id);
      } else if body.MessageDelta? {
        relevant := ApplyDelta(body, chat.value.id);
      } else {
        relevant := ApplyOther(body, chat.value.id);
      }
    }

    /** The other changes. */
    method ApplyOther(body: ServerEventBody, chatId: Id) returns (relevant: bool)
      requires InOrder() && !KeyedChange(body) && !body.MessageDelta? && chat.Some? && chat.value.id == chatId
      modifies this`chat, this`queuedPrompts, this`workingContext, this`lastRestore
      ensures InOrder() && (old(ListsOnce()) ==> ListsOnce())
      ensures relevant == Concerns(old(View()), body)
      ensures View() == Project(old(View()), body)
      ensures lastRestore == if relevant && body.CheckpointRestored? then Some(body.restore) else old(lastRestore)
    {
      assert View().chat == chat;
      OtherChanges(View(), body);
      hide *;
      match body
      case ChatChanged(changed) =>
        relevant := changed.id == chatId;
        if relevant {
          ChangeChat(changed);
        }
      case QueuedPromptRemoved(eventChat, promptId) =>
        relevant := eventChat == chatId;
        if relevant {
          RemovePrompt(promptId);
        }
      case WorkingContextChanged(context) =>
        relevant := context.chatId == chatId;
        if relevant {
          ChangeContext(context);
        }
      case CheckpointRestored(restore) =>
        relevant := restore.chatId == chatId;
        if relevant {
          lastRestore := Some(restore);
        }
      case _ =>
        relevant := false;
    }

    method ApplyDelta(body: ServerEventBody, chatId: Id) returns (relevant: bool)
      requires InOrder() && body.MessageDelta? && chat.Some? && chat.value.id == chatId
      modifies this`messages, this`needsSnapshot
      ensures InOrder() && (old(ListsOnce()) ==> ListsOnce())
      ensures relevant == Concerns(old(View()), body)
      ensures needsSnapshot == (old(needsSnapshot) || MissesMessage(old(View()), body))
      ensures View() == Project(old(View()), body)
    {
      assert View().chat == chat;
      hide ListsOnce, InOrder, View, AppendDelta;
      if body.chatId != chatId {
        return false;
      }
      relevant := ExtendMessage(body.messageId, body.delta);
      if !relevant {
        needsSnapshot := true;
      }
    }

    /** The changes of one entry. */
    method ApplyChange(body: ServerEventBody, chatId: Id) returns (relevant: bool)
      requires InOrder() && KeyedChange(body) && chat.Some? && chat.value.id == chatId
      modifies this`messages, this`activities, this`approvals, this`queuedPrompts, this`checkpoints
      ensures InOrder() && (old(ListsOnce()) ==> ListsOnce())
      ensures relevant == Concerns(old(View()), body)
      ensures old(ListsOnce()) || !relevant ==> View() == Project(old(View()), body)
      ensures relevant ==> Resorted(body, old(Vectors()), Vectors())
    {
      assert View().chat == chat;
      hide ListsOnce, InOrder, View, Vectors, Resorted, AppendDelta;
      match body
      case MessageChanged(message) =>
        relevant := message.chatId == chatId;
        if relevant {
          ChangeMessage(message);
        }
      case ActivityChanged(activity) =>
        relevant := activity.chatId == chatId;
        if relevant {
          ChangeActivity(activity);
        }
      case ApprovalChanged(approval) =>
        relevant := approval.chatId == chatId;
        if relevant {
          ChangeApproval(approval);
        }
      case QueuedPromptChanged(prompt) =>
        relevant := prompt.chatId == chatId;
        if relevant {
          ChangePrompt(prompt);
        }
      case TurnCheckpointChanged(checkpoint) =>
        relevant := checkpoint.chatId == chatId;
        if relevant {
          ChangeCheckpoint(checkpoint);
        }
    }

    /** One event: the step of the map-based replica, whatever the order, duplication or loss of
        the events before it. When an entity is listed twice, all of that step but the keyed changes'
        effect on the map view. */
    method ApplyEvent(event: ServerEvent) returns (outcome: ReconcileOutcome)
      requires InOrder()
      modifies this
      ensures InOrder() && (old(ListsOnce()) ==> ListsOnce())
      ensures var (step, answer) := Receive(CHAT, old(AsReplica()), event);
              && outcome == answer && AsReplica() == step.(view := View())
              && (old(ListsOnce()) || outcome != Applied || !KeyedChange(event.body) ==> View() == step.view)
      ensures outcome == Applied && KeyedChange(event.body) ==> Resorted(event.body, old(Vectors()), Vectors())
      ensures lastRestore == if outcome == Applied && event.body.CheckpointRestored?
                             then Some(event.body.restore) else old(lastRestore)
      ensures atBottom == old(atBottom)
      ensures unseenUpdates == if outcome == Applied && !atBottom
                               then SaturateU32(old(unseenUpdates) + 1) else old(unseenUpdates)
      // A changed entry that comes next is applied exactly when a chat is loaded and it is of that chat.
      ensures event.eventId !in old(appliedEventIds) && event.sequence == old(cursor) + 1 ==>
                var loaded := if old(chat).Some? then {old(chat).value.id} else {};
                match event.body
                case MessageChanged(message) => outcome == if message.chatId in loaded then Applied else Unrelated
                case ActivityChanged(activity) => outcome == if activity.chatId in loaded then Applied else Unrelated
                case ApprovalChanged(approval) => outcome == if approval.chatId in loaded then Applied else Unrelated
                case QueuedPromptChanged(prompt) => outcome == if prompt.chatId in loaded then Applied else Unrelated
                case TurnCheckpointChanged(checkpoint) =>
                  outcome == if checkpoint.chatId in loaded then Applied else Unrelated
                case _ => true
      ensures outcome == Unrelated ==> View() == old(View())
    {
      ghost var before := AsReplica();
      NextOutcome(before, event);
      assert before.view.chat == chat && before.cursor == cursor && before.applied == appliedEventIds;
      hide *;
      outcome := React(event);
    }

    /** The reaction, branch by branch. */
    method React(event: ServerEvent) returns (outcome: ReconcileOutcome)
      requires InOrder()
      modifies this
      ensures InOrder() && (old(ListsOnce()) ==> ListsOnce())
      ensures var (step, answer) := Receive(CHAT, old(AsReplica()), event);
              && outcome == answer && AsReplica() == step.(view := View())
              && (old(ListsOnce()) || outcome != Applied || !KeyedChange(event.body) ==> View() == step.view)
      ensures outcome == Applied && KeyedChange(event.body) ==> Resorted(event.body, old(Vectors()), Vectors())
      ensures lastRestore == if outcome == Applied && event.body.CheckpointRestored?
                             then Some(event.body.restore) else old(lastRestore)
      ensures atBottom == old(atBottom)
      ensures unseenUpdates == if outcome == Applied && !atBottom
                               then SaturateU32(old(unseenUpdates) + 1) else old(unseenUpdates)
    {
      hide ListsOnce, InOrder, View, Project, Concerns, MissesMessage, SortedFrom, Upsert;
      if event.eventId in appliedEventIds {
        return DuplicateEvent;
      }
      match ClassifySequence(cursor, event.sequence)
      case Duplicate =>
        return DuplicateEvent;
      case Gap =>
        needsSnapshot := true;
        return GapDetected;
      case Next =>
        var relevant := ApplyBody(event.body);
        cursor := event.sequence;
        appliedEventIds := appliedEventIds + {event.eventId};
        if relevant {
          ContentGrew();
          return Applied;
        }
        return Unrelated;
    }

    method ContentGrew()
      modifies this`unseenUpdates
      ensures unseenUpdates == if atBottom then old(unseenUpdates) else SaturateU32(old(unseenUpdates) + 1)
    {
      if !atBottom {
        unseenUpdates := SaturateU32(unseenUpdates + 1);
      }
    }
  }

  /** A whole session: a fresh timeline fed with any deliveries and snapshots of a log shows the
      fold of the log's prefix up to its cursor. Snapshots list the state at their boundary. */
  method Session(log: ChatLog, inputs: seq<Input>, snapshots: seq<ChatTimelineResponse>)
    returns (timeline: TimelineModel)
    requires ValidChatLog(log) && |snapshots| == |inputs|
    requires forall i | 0 <= i < |inputs| :: ValidInput(log, inputs[i])
    requires forall i | 0 <= i < |inputs| && inputs[i].Hydrate? && ValidInput(log, inputs[i]) ::
               && snapshots[i].ListsOnce() && snapshots[i].boundarySequence == inputs[i].boundary
               && snapshots[i].View() == StateAt(CHAT, log, inputs[i].entity, inputs[i].boundary)
    ensures fresh(timeline) && timeline.Valid()
    ensures ConsistentPrefix(CHAT, log, LoadedEntity(inputs), timeline.AsReplica())
    ensures timeline.AsReplica() == Run(CHAT, log, Fresh(CHAT), inputs)
  {
    timeline := new TimelineModel();
    for i := 0 to |inputs|
      invariant fresh(timeline) && timeline.Valid()
      invariant timeline.AsReplica() == Run(CHAT, log, Fresh(CHAT), inputs[..i])
    {
      assert inputs[..i + 1][..i] == inputs[..i];
      match inputs[i]
      case Deliver(entry) =>
        var outcome := timeline.ApplyEvent(log.events[entry]);
      case Hydrate(chat, boundary) =>
        timeline.Hydrate(snapshots[i]);
    }
    assert inputs[..|inputs|] == inputs;
    EveryRunIsAPrefix(CHAT, log, inputs);
  }
}
