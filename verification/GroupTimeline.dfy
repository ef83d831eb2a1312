/**
 The desktop timeline of a group chat: the same replica discipline as a single chat, over
 participants, messages and ownership handoffs. Every vector is sorted after every change.
 */
module GroupTimeline {
  import opened Wrappers
  import opened MachineInts
  import opened Vectors
  import opened Protocol
  import opened Replication

  datatype GroupState = GroupState(
    group: Option<GroupChat>,
    participants: map<Id, GroupParticipant>,
    messages: map<Id, MessageSummary>,
    handoffs: map<Id, OwnershipHandoff>)

  const NO_GROUP := GroupState(None, map[], map[], map[])

  predicate ConcernsGroup(st: GroupState, body: ServerEventBody) {
    st.group.Some?
    && var c := st.group.value.id;
       match body
       case GroupChatChanged(group) => group.id == c
       case GroupParticipantChanged(participant) => participant.chatId == c
       case GroupParticipantRemoved(chatId, _) => chatId == c
       case GroupHandoffRecorded(handoff) => handoff.chatId == c
       case MessageChanged(message) => message.chatId == c
       case _ => false
  }

  function ProjectGroup(st: GroupState, body: ServerEventBody): GroupState {
    if !ConcernsGroup(st, body) then st
    else
      match body
      case GroupChatChanged(group) => st.(group := Some(group))
      case GroupParticipantChanged(participant) =>
        st.(participants := st.participants[participant.botId := participant])
      case GroupParticipantRemoved(_, botId) => st.(participants := st.participants - {botId})
      case GroupHandoffRecorded(handoff) => st.(handoffs := st.handoffs[handoff.id := handoff])
      case MessageChanged(message) => st.(messages := st.messages[message.id := message])
      case _ => st
  }

  /** What the next event makes of a group: a changed entry of the group is shown under its identifier, a
      participant by its Bot, and anything of another group changes nothing. */
  lemma WhatGroupEventsDo(st: GroupState, body: ServerEventBody)
    ensures st.group.None? ==> !ConcernsGroup(st, body) && ProjectGroup(st, body) == st
    ensures st.group.Some? ==>
              var c, next, concerns := st.group.value.id, ProjectGroup(st, body), ConcernsGroup(st, body);
              match body
              case GroupChatChanged(group) =>
                if group.id == c then concerns && next == st.(group := Some(group)) else !concerns && next == st
              case GroupParticipantChanged(participant) =>
                if participant.chatId == c then
                  concerns && next == st.(participants := st.participants[participant.botId := participant])
                else !concerns && next == st
              case GroupParticipantRemoved(chat, bot) =>
                if chat == c then concerns && next == st.(participants := st.participants - {bot})
                else !concerns && next == st
              case GroupHandoffRecorded(handoff) =>
                if handoff.chatId == c then concerns && next == st.(handoffs := st.handoffs[handoff.id := handoff])
                else !concerns && next == st
              case MessageChanged(message) =>
                if message.chatId == c then concerns && next == st.(messages := st.messages[message.id := message])
                else !concerns && next == st
              case _ => !concerns && next == st
  {
  }

  /** What a group's timeline in order shows: its participants by Bot, its messages and handoffs by time. */
  lemma WhatGroupShows(timeline: GroupTimelineModel, id: Id)
    requires timeline.InOrder()
    ensures forall i, j | 0 <= i < j < |timeline.participants| ::
              timeline.participants[i].botId <= timeline.participants[j].botId
    ensures forall i, j | 0 <= i < j < |timeline.messages| ::
              timeline.messages[i].createdAt <= timeline.messages[j].createdAt
    ensures forall i, j | 0 <= i < j < |timeline.handoffs| ::
              timeline.handoffs[i].createdAt <= timeline.handoffs[j].createdAt
    ensures id in timeline.View().participants <==>
              exists participant :: participant in timeline.participants && participant.botId == id
    ensures id in timeline.View().messages <==> exists message :: message in timeline.messages && message.id == id
    ensures id in timeline.View().handoffs <==> exists handoff :: handoff in timeline.handoffs && handoff.id == id
  {
    IdIsListed(timeline.participants, ParticipantId, id);
    IdIsListed(timeline.messages, MessageId, id);
    IdIsListed(timeline.handoffs, HandoffId, id);
    hide ById;
    assert forall p :: ParticipantId(p) == p.botId;
    assert forall m :: MessageId(m) == m.id;
    assert forall h :: HandoffId(h) == h.id;
  }

  const GROUP := Projection(NO_GROUP, ProjectGroup, ConcernsGroup, (st, body) => false)

  datatype GroupTimelineResponse = GroupTimelineResponse(
    group: GroupChat,
    participants: seq<GroupParticipant>,
    messages: seq<MessageSummary>,
    handoffs: seq<OwnershipHandoff>,
    boundarySequence: u64)
  {
    ghost predicate ListsOnce() {
      && DistinctIds(participants, ParticipantId) && DistinctIds(messages, MessageId)
      && DistinctIds(handoffs, HandoffId)
    }

    ghost function View(): GroupState {
      GroupState(Some(group), ById(participants, ParticipantId), ById(messages, MessageId), ById(handoffs, HandoffId))
    }
  }

  class GroupTimelineModel {
    var group: Option<GroupChat>
    var participants: seq<GroupParticipant>
    var messages: seq<MessageSummary>
    var handoffs: seq<OwnershipHandoff>
    var cursor: u64
    var needsSnapshot: bool
    var appliedEventIds: set<Id>

    ghost predicate ListsOnce()
      reads this`participants, this`messages, this`handoffs
    {
      && DistinctIds(participants, ParticipantId) && DistinctIds(messages, MessageId)
      && DistinctIds(handoffs, HandoffId)
    }

    ghost predicate InOrder()
      reads this`participants, this`messages, this`handoffs
    {
      && SortedBy(participants, ParticipantKey) && SortedBy(messages, MessageKey) && SortedBy(handoffs, HandoffKey)
    }

    ghost function View(): GroupState
      reads this`group, this`participants, this`messages, this`handoffs
    {
      GroupState(group, ById(participants, ParticipantId), ById(messages, MessageId), ById(handoffs, HandoffId))
    }

    ghost function AsReplica(): Replica<GroupState>
      reads this
    {
      Replica(View(), cursor, needsSnapshot, appliedEventIds)
    }

    constructor ()
      ensures ListsOnce() && InOrder() && AsReplica() == Fresh(GROUP)
    {
      group, participants, messages, handoffs := None, [], [], [];
      cursor, needsSnapshot, appliedEventIds := 0, false, {};
    }

    /** Loads a snapshot: the replica restarts at its boundary. A response that repeats an identifier is
        loaded and sorted as it is. */
    method Hydrate(timeline: GroupTimelineResponse)
      modifies this
      ensures InOrder()
      ensures timeline.ListsOnce() ==>
                ListsOnce() && AsReplica() == Hydrated(timeline.View(), timeline.boundarySequence)
      ensures SortedFrom(participants, timeline.participants, ParticipantKey)
      ensures SortedFrom(messages, timeline.messages, MessageKey) && SortedFrom(handoffs, timeline.handoffs, HandoffKey)
      ensures group == Some(timeline.group)
      ensures cursor == timeline.boundarySequence && !needsSnapshot && appliedEventIds == {}
    {
      hide DistinctIds, SortedBy, ById, SortByKey, SortedFrom, InOrder;
      group := Some(timeline.group);
      participants := timeline.participants;
      messages := timeline.messages;
      handoffs := timeline.handoffs;
      cursor := timeline.boundarySequence;
      needsSnapshot := false;
      appliedEventIds := {};
      Sort();
    }

    /** Sorting changes the order only, and not that of elements with equal keys. */
    method Sort()
      modifies this`participants, this`messages, this`handoffs
      ensures InOrder()
      ensures old(ListsOnce()) ==> ListsOnce() && View() == old(View())
      ensures SortedFrom(participants, old(participants), ParticipantKey)
      ensures SortedFrom(messages, old(messages), MessageKey) && SortedFrom(handoffs, old(handoffs), HandoffKey)
    {
      SortedView(participants, ParticipantKey, ParticipantId);
      SortedView(messages, MessageKey, MessageId);
      SortedView(handoffs, HandoffKey, HandoffId);
      hide DistinctIds, SortedBy, ById, SortByKey, SortedFrom;
      participants := SortByKey(participants, ParticipantKey);
      messages := SortByKey(messages, MessageKey);
      handoffs := SortByKey(handoffs, HandoffKey);
    }

    /** The timeline is a stable sort of vectors that show the group's state. */
    ghost predicate SortOf(shown: GroupState)
      reads this`group, this`participants, this`messages, this`handoffs
    {
      exists p: seq<GroupParticipant>, m: seq<MessageSummary>, h: seq<OwnershipHandoff> ::
        && SortedFrom(participants, p, ParticipantKey) && SortedFrom(messages, m, MessageKey)
        && SortedFrom(handoffs, h, HandoffKey)
        && shown == GroupState(group, ById(p, ParticipantId), ById(m, MessageId), ById(h, HandoffId))
    }

    /** One event: the step of the map-based replica. When an entity is listed twice, the sort that
        ends the step may put another entry of the same identifier first. */
    method ApplyEvent(event: ServerEvent) returns (outcome: ReconcileOutcome)
      modifies this
      ensures old(InOrder()) ==> InOrder()
      ensures old(ListsOnce()) ==> ListsOnce() && (AsReplica(), outcome) == Receive(GROUP, old(AsReplica()), event)
      ensures var (step, answer) := Receive(GROUP, old(AsReplica()), event);
              && outcome == answer && AsReplica() == step.(view := View())
              && if outcome.Applied? || outcome.Unrelated? then SortOf(step.view) else View() == step.view
    {
      hide ListsOnce, InOrder, ConcernsGroup, ProjectGroup, SortedFrom, ById;
      if event.eventId in appliedEventIds || ClassifySequence(cursor, event.sequence) == Duplicate {
        return DuplicateEvent;
      }
      if ClassifySequence(cursor, event.sequence) == Gap {
        needsSnapshot := true;
        return GapDetected;
      }
      var relevant := ApplyBody(event.body);
      cursor := event.sequence;
      appliedEventIds := appliedEventIds + {event.eventId};
      Sort();
      return if relevant then Applied else Unrelated;
    }

    method ApplyBody(body: ServerEventBody) returns (relevant: bool)
      modifies this`group, this`participants, this`messages, this`handoffs
      ensures old(ListsOnce()) ==> ListsOnce()
      ensures View() == ProjectGroup(old(View()), body)
      ensures relevant == ConcernsGroup(old(View()), body)
    {
      hide DistinctIds, ById, Upsert, Without;
      if group == None {
        return false;
      }
      var chatId := group.value.id;
      match body
      case GroupChatChanged(changed) =>
        relevant := changed.id == chatId;
        if relevant {
          group := Some(changed);
        }
      case GroupParticipantChanged(participant) =>
        relevant := participant.chatId == chatId;
        if relevant {
          UpsertView(participants, participant, ParticipantId);
          participants := Upsert(participants, participant, ParticipantId);
        }
      case GroupParticipantRemoved(eventChat, botId) =>
        relevant := eventChat == chatId;
        if relevant {
          WithoutView(participants, ParticipantId, botId, ParticipantKey);
          participants := Without(participants, ParticipantId, botId);
        }
      case GroupHandoffRecorded(handoff) =>
        relevant := handoff.chatId == chatId;
        if relevant {
          UpsertView(handoffs, handoff, HandoffId);
          handoffs := Upsert(handoffs, handoff, HandoffId);
        }
      case MessageChanged(message) =>
        relevant := message.chatId == chatId;
        if relevant {
          UpsertView(messages, message, MessageId);
          messages := Upsert(messages, message, MessageId);
        }
      case _ =>
        relevant := false;
    }
  }

  /** After an event the vectors ascend, and show the group and the identifiers of the step; with each listed
      once they show the step itself. */
  lemma WhatIsSorted(timeline: GroupTimelineModel, shown: GroupState)
    requires timeline.SortOf(shown)
    ensures timeline.group == shown.group && timeline.InOrder()
    ensures timeline.View().participants.Keys == shown.participants.Keys
    ensures timeline.View().messages.Keys == shown.messages.Keys
    ensures timeline.View().handoffs.Keys == shown.handoffs.Keys
    ensures forall id | id in shown.messages :: shown.messages[id] in timeline.messages
  {
    var p: seq<GroupParticipant>, m: seq<MessageSummary>, h: seq<OwnershipHandoff> :|
      && SortedFrom(timeline.participants, p, ParticipantKey) && SortedFrom(timeline.messages, m, MessageKey)
      && SortedFrom(timeline.handoffs, h, HandoffKey)
      && shown == GroupState(timeline.group, ById(p, ParticipantId), ById(m, MessageId), ById(h, HandoffId));
    SameIds(timeline.participants, p, ParticipantId);
    SameIds(timeline.messages, m, MessageId);
    SameIds(timeline.handoffs, h, HandoffId);
  }

  lemma SameIds<T(!new)>(r: seq<T>, s: seq<T>, id: T -> Id)
    requires multiset(r) == multiset(s)
    ensures ById(r, id).Keys == ById(s, id).Keys && forall x | x in s :: x in r
  {
    forall x
      ensures x in r <==> x in s
    {
      assert x in r <==> x in multiset(r);
      assert x in s <==> x in multiset(s);
    }
  }

  /** Each entity is listed once when no two entries share an identifier. */
  lemma WhatListsGroupsOnce(timeline: GroupTimelineModel, response: GroupTimelineResponse)
    ensures timeline.ListsOnce() <==>
              && (forall i, j | 0 <= i < j < |timeline.participants| ::
                    timeline.participants[i].botId != timeline.participants[j].botId)
              && (forall i, j | 0 <= i < j < |timeline.messages| :: timeline.messages[i].id != timeline.messages[j].id)
              && forall i, j | 0 <= i < j < |timeline.handoffs| :: timeline.handoffs[i].id != timeline.handoffs[j].id
    ensures response.ListsOnce() <==>
              && (forall i, j | 0 <= i < j < |response.participants| ::
                    response.participants[i].botId != response.participants[j].botId)
              && (forall i, j | 0 <= i < j < |response.messages| :: response.messages[i].id != response.messages[j].id)
              && forall i, j | 0 <= i < j < |response.handoffs| :: response.handoffs[i].id != response.handoffs[j].id
  {
  }

  /** A whole group session shows the fold of the log's prefix up to its cursor. */
  method GroupSession(log: ServerLog<GroupState>, inputs: seq<Input>, snapshots: seq<GroupTimelineResponse>)
    returns (timeline: GroupTimelineModel)
    requires ValidLog(GROUP, log) && |snapshots| == |inputs|
    requires forall i | 0 <= i < |inputs| :: ValidInput(log, inputs[i])
    requires forall i | 0 <= i < |inputs| && inputs[i].Hydrate? && ValidInput(log, inputs[i]) ::
               && snapshots[i].ListsOnce() && snapshots[i].boundarySequence == inputs[i].boundary
               && snapshots[i].View() == StateAt(GROUP, log, inputs[i].entity, inputs[i].boundary)
    ensures fresh(timeline) && timeline.ListsOnce() && timeline.InOrder()
    ensures timeline.AsReplica() == Run(GROUP, log, Fresh(GROUP), inputs)
    ensures ConsistentPrefix(GROUP, log, LoadedEntity(inputs), timeline.AsReplica())
  {
    hide ConcernsGroup, ProjectGroup, DistinctIds, SortedBy, ById;
    timeline := new GroupTimelineModel();
    for i := 0 to |inputs|
      invariant fresh(timeline) && timeline.ListsOnce() && timeline.InOrder()
      invariant timeline.AsReplica() == Run(GROUP, log, Fresh(GROUP), inputs[..i])
    {
      assert inputs[..i + 1][..i] == inputs[..i];
      match inputs[i]
      case Deliver(entry) =>
        var outcome := timeline.ApplyEvent(log.events[entry]);
      case Hydrate(entity, boundary) =>
        timeline.Hydrate(snapshots[i]);
    }
    assert inputs[..|inputs|] == inputs;
    EveryRunIsAPrefix(GROUP, log, inputs);
  }
}
