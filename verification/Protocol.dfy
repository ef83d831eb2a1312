/**
 The wire types a client projection consumes and the rule that orders events. A field named
 `details` stands for the remaining fields of an entity, which the projections only copy.
 */
module Protocol {
  import opened Wrappers
  import opened MachineInts
  import opened Vectors

  type Text = seq<char>

  datatype MessageAuthor = User | Bot | System

  datatype MessagePart =
    | TextPart(ordinal: u32, text: Text)
    | AttachmentPart(ordinal: u32, attachment: Text)
    | NoticePart(ordinal: u32, notice: Text)

  datatype ChatSummary = ChatSummary(id: Id, running: bool, details: Text)
  datatype MessageSummary = MessageSummary(
    id: Id, chatId: Id, author: MessageAuthor, parts: seq<MessagePart>,
    createdAt: i64, completedAt: Option<i64>, details: Text)
  datatype ActivitySummary = ActivitySummary(id: Id, chatId: Id, messageId: Option<Id>, startedAt: i64, details: Text)
  datatype ApprovalSummary = ApprovalSummary(id: Id, chatId: Id, messageId: Option<Id>, createdAt: i64, details: Text)
  datatype QueuedPrompt = QueuedPrompt(id: Id, chatId: Id, position: u32, details: Text)
  datatype WorkingContext = WorkingContext(chatId: Id, details: Text)
  datatype TurnCheckpoint = TurnCheckpoint(id: Id, chatId: Id, createdAt: u64, details: Text)
  datatype CheckpointRestore = CheckpointRestore(chatId: Id, details: Text)
  datatype GroupChat = GroupChat(id: Id, details: Text)
  datatype GroupParticipant = GroupParticipant(chatId: Id, botId: Id, details: Text)
  datatype OwnershipHandoff = OwnershipHandoff(id: Id, chatId: Id, createdAt: i64, details: Text)

  datatype ServerEventBody =
    | ChatChanged(chat: ChatSummary)
    | MessageChanged(message: MessageSummary)
    | MessageDelta(chatId: Id, messageId: Id, delta: Text)
    | ActivityChanged(activity: ActivitySummary)
    | ApprovalChanged(approval: ApprovalSummary)
    | QueuedPromptChanged(prompt: QueuedPrompt)
    | QueuedPromptRemoved(chatId: Id, promptId: Id)
    | WorkingContextChanged(context: WorkingContext)
    | TurnCheckpointChanged(checkpoint: TurnCheckpoint)
    | CheckpointRestored(restore: CheckpointRestore)
    | GroupChatChanged(group: GroupChat)
    | GroupParticipantChanged(participant: GroupParticipant)
    | GroupParticipantRemoved(chatId: Id, botId: Id)
    | GroupHandoffRecorded(handoff: OwnershipHandoff)
    | OtherBody

  datatype ServerEvent = ServerEvent(sequence: u64, eventId: Id, body: ServerEventBody)

  datatype SequenceDisposition = Duplicate | Next | Gap

  /** Saturation at the last sequence number never turns a duplicate or a gap into the next event. */
  function ClassifySequence(previous: u64, received: u64): (d: SequenceDisposition)
    ensures d.Next? <==> received == previous + 1
    ensures d.Gap? <==> previous + 1 < received
  {
    if received <= previous then Duplicate
    else if received == SaturateU64(previous + 1) then Next
    else Gap
  }

  datatype ReconcileOutcome = Applied | DuplicateEvent | GapDetected | Unrelated

  // Identifiers and sort keys, by name so that they can be passed to the vector operations.
  function MessageId(m: MessageSummary): Id { m.id }
  function MessageKey(m: MessageSummary): int { m.createdAt }
  function ActivityId(a: ActivitySummary): Id { a.id }
  function ActivityKey(a: ActivitySummary): int { a.startedAt }
  function ApprovalId(a: ApprovalSummary): Id { a.id }
  function ApprovalKey(a: ApprovalSummary): int { a.createdAt }
  function PromptId(p: QueuedPrompt): Id { p.id }
  function PromptKey(p: QueuedPrompt): int { p.position }
  function CheckpointId(c: TurnCheckpoint): Id { c.id }
  function CheckpointKey(c: TurnCheckpoint): int { c.createdAt }
  function ParticipantId(p: GroupParticipant): Id { p.botId }
  function ParticipantKey(p: GroupParticipant): int { p.botId }
  function HandoffId(h: OwnershipHandoff): Id { h.id }
  function HandoffKey(h: OwnershipHandoff): int { h.createdAt }
}
