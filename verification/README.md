# HomeBot: a verified model

HomeBot is a desktop client and a server that run Bots through provider programs. This project models
the stateful cores of that system in Dafny and proves what they keep over whole runs.

- **Replication of the server log** (`Protocol`, `Vectors`, `Replication`, `ChatLog`, `Timeline`,
  `GroupTimeline`, `OrderedEntries`). The desktop keeps a chat as sorted vectors that events and snapshots
  update in place. The specification is a numbered log and the fold of a prefix of it over maps by
  identifier. The classes are proved to be steps of that fold under any duplication, reordering, loss and
  reloading.
- **The desktop transport** (`Transport`, `EndToEnd`). Connections come and go; events are forwarded in step
  with the log and commands are executed in the order they were sent. A timeline that is loaded while the
  transport runs sees no gap in what the transport forwards afterwards.
- **The schedule engine** (`TimeZones`, `Schedule`, `Polling`, `Scheduler`,
  `CalendarPolls`). A time zone is a table of offset
  changes. The search for the next occurrence is proved to find the least firing, and one poll to choose what
  its policy runs. The server's evaluation of a trigger, with its stored cursor and delivery keys, is proved to
  enqueue no occurrence twice under any clock and any failure, and every occurrence exactly under the
  condition stated below.
- **Routines** (`Recording`). Validating, recording and replaying a routine.
- **Framing** (`Bytes`, `LineReader`, `Diagnostics`, `Sse`, `SsePrinting`, `SsePayloads`, `ChatCalls`). Bounded
  lines, the tail of the error output, server-sent events, and tool calls assembled from fragments. What is read
  does not depend on how bytes are cut into chunks, except as stated below.
- **Provider protocols** (`GenericProcess`, `ToolLoop`, `Starting`, `CodexTables`, `CodexRoutes`, `Codex`,
  `CodexStarts`, `CodexTurns`). Each is a class driven by a script of steps that stands for the scheduler, the provider and the
  other tasks. In `Codex` a step is one lock taken, one event sent or one message written, by any of its tasks;
  looking a route up, entering a table, sending each event, removing a route, taking a decision and writing its
  reply are steps of their own, so a property of every script is a property of every interleaving of them.

Conventions. A method that the program runs step by step is a Dafny method or class; its `ensures` ties the
new state to a specification function, and the lemmas are about those functions. Machine integers are bounded
mathematical integers with the checked and saturating operations written out (`MachineInts`). Texts whose
length in bytes matters are byte sequences. JSON decoding, UTF-8 validation, redaction, cron evaluation
and the zone database are function parameters or tables, with only the assumptions stated in
`Schedule.Sound`, `TimeZones.WellFormed` and `TimeZones.Settled`.

A specification function is defined by recursion or by cases. Next to it stands a lemma that says what it comes to
in the fields of its arguments (`What...`, `Which...`, `Where...`, `How...`; for instance `Replication.WhatIsReceived`,
`Recording.WhatStepsMustBe`, `ToolLoop.WhatResponsesMean`). The table lists those that say more than one definition
does.

Where the code does less than one might expect, the model follows the code and states exactly when the
expected property holds:

- Events of a stream depend on how it is cut into chunks if and only if an event ended by LF LF is followed by
  a CRLF CRLF, because the end of an event is looked for at CRLF CRLF first (`Sse.ChunkIndependence`). Its
  payloads depend on it if and only if some event ended by CRLF CRLF holds an LF LF with data before it and a data
  field after it (`SsePayloads.PayloadIndependence`).
- A printed payload reads back if and only if it is not empty, does not start with an empty line and has no
  carriage return at the end of a line (`SsePrinting.EventRoundTrip`). Section 9.2.6 of the WHATWG HTML standard
  would keep the line feed after an empty first line; `sse_data` drops it.
- A fragment of a lower tool-call slot empties the slots above it. Every slot keeps all its fragments if and
  only if the indices never go down (`ChatCalls.AllKeptIffOrdered`).
- A run of polls under a clock that never steps back enqueues every occurrence once and in order if and only if
  each poll either has nothing due or finds fewer than 10,000 occurrences without a failing step and misses no
  more than its policy runs (`Scheduler.ExactlyOnce`). A scan that fails is repeated from the same cursor, so it
  fails for good (`Scheduler.FailedScanIsForGood`): after a downtime of 10,000 periods an interval schedule
  never runs again while the clock does not step back (`Scheduler.DowntimeIsFatal`). With a grace of zero an
  occurrence exactly at the time of the poll counts as missed.
- The documentation of `next_occurrence` promises an error on overflow. The code reports an error if and only if
  the time since the anchor or the offset of the next multiple overflows, and "no further occurrence" if and only
  if the last addition alone does (`Schedule.NextStepOutcome`; an input of each kind is in
  `Schedule.OverflowWithoutError`).
- Starting an operation that is already active is refused, but not without effect: the run that is active has
  lost its cancel sender, so its loop ends as cancelled (`GenericProcess.DuplicateEndsTheRun`). A loop ends as
  cancelled if and only if it looks at its signal after a cancellation or such a start
  (`GenericProcess.ProcessRun.Consume`, `ToolLoop.StreamRun.RunStream`).
- In the chat style a value that finishes tool calls, or holds a fragment that is refused, ends the response before
  its events are looked at, so its text and usage are not passed on (`ToolLoop.FinishingTextIsLost`). The plain
  events of a value are all passed on if and only if it is not such a value or has neither
  (`ToolLoop.WhatIsDropped`).
- An event receiver that goes away ends the whole Codex client, not only its run, if and only if the reading task
  has an event to send to it (`Codex.CodexClient.MoveReader`); the other runs are then failed too
  (`Codex.ClosedReceiverEndsTheClient`).
- A Codex run that is routed before the client fails and announced afterwards sees its announcement after its
  terminal event (`Codex.AnnouncedTooLate`). Nothing follows a terminal event on a channel unless another
  task still had an event for it when one was sent, or the failure took over a run that had just had one; then
  something does, if its receiver is there and the tasks go on (`Codex.NothingAfterTheEnd`, with inputs in
  `Codex.AnnouncedTooLate` and `Codex.EndedTwice`).
- A start of a Codex run that fails leaves its route behind if and only if `turn/start` came back without a turn and
  the run has not been told an end before (`CodexStarts.BeginTurn`). While the client lives such a route stays, every
  later start of its operation is refused (`CodexStarts.LaterStartIsRefused`), and the next message for its thread
  ends the client (`CodexStarts.NextMessageEndsTheClient`).
- A start of an OpenAI-compatible run that fails leaves its operation registered if and only if its secret could not
  be resolved (`Starting.RegisteredExactly`); every later start of that operation is then refused
  (`Starting.Adapter.Run`) and no cancellation reaches it (`Starting.Adapter.Cancel`).

## Model

| member | source | states |
|---|---|---|
| `Protocol.ClassifySequence` | crates/homebot-protocol/src/lib.rs:2104-2112 | next means exactly one more than the cursor and a gap more than that, although the code compares with a saturated sum |
| `Vectors.UpsertView` | crates/homebot-desktop/src/timeline.rs:431-441 | find-and-replace-or-push on a vector is an update of its map from identifiers to the first elements that have them, and keeps identifiers distinct |
| `Vectors.WithoutView` | crates/homebot-desktop/src/timeline.rs:265-271 | `retain` on a vector removes one key of that map and keeps the order |
| `Vectors.SortSorts` | crates/homebot-desktop/src/timeline.rs:421-429 | the sort is an ascending permutation |
| `Vectors.SortIsStable` | crates/homebot-desktop/src/timeline.rs:421-429 | elements with equal keys keep their order |
| `Vectors.SortedView` | crates/homebot-desktop/src/timeline.rs:421-429 | a sorted vector holds the same elements, those of equal keys in their old order, and shows the same map |
| `Vectors.UpsertSortView` | crates/homebot-desktop/src/timeline.rs:226-230 | update then stable sort of any vector; when identifiers are distinct it is one map update and they stay so |
| `ChatLog.DeltaExtendsText` | crates/homebot-desktop/src/timeline.rs:443-460 | wherever the text parts are, a delta extends the visible text at its end |
| `ChatLog.StreamedText` | crates/homebot-desktop/src/timeline.rs:231-248 | while a message is not replaced, its text is what it was followed by every delta sent to it, whatever lies in between |
| `ChatLog.WhereDeltasGo` | crates/homebot-desktop/src/timeline.rs:443-460 | a delta extends the last text part at its end; without a text part one follows, numbered by its place |
| `ChatLog.WhatEventsDo` | crates/homebot-desktop/src/timeline.rs:219-294 | of each kind of event, by the fields of its entry: an entry of the loaded chat is shown under its identifier, anything of another chat changes nothing |
| `ChatLog.ChangesAreShown` | crates/homebot-desktop/src/timeline.rs:196-294 | a changed entry that comes next is applied and shown under its identifier exactly when a chat is loaded and the entry is of that chat; otherwise it is unrelated and what is shown stays |
| `Replication.StepKeepsPrefix` | crates/homebot-desktop/src/timeline.rs:181-217 | one delivery of any log entry, or one snapshot, keeps the replica equal to the fold of a prefix of the log |
| `Replication.EveryRunIsAPrefix` | crates/homebot-desktop/src/timeline.rs:181-217 | after any run of deliveries (repeated, reordered, with gaps) and snapshots, the replica is the fold of the log up to its cursor |
| `Replication.IdsAreRedundant` | crates/homebot-desktop/src/timeline.rs:196-211 | the remembered event identifiers never change the outcome that the sequence number alone gives |
| `Replication.AsksUntilHydrated` | crates/homebot-desktop/src/timeline.rs:181-205 | a replica that asks for a snapshot keeps asking until one is loaded |
| `Replication.InOrderStreamHasNoGap` | crates/homebot-desktop/src/timeline.rs:196-211 | an in-order stream that starts at or below the cursor reports no gap and brings the replica to the later position |
| `Replication.HydratedStreamHasNoGap` | crates/homebot-desktop/src/timeline.rs:181-211 | the same for a replica just loaded at a boundary not below the last forwarded event |
| `Timeline.TimelineModel.Hydrate` | crates/homebot-desktop/src/timeline.rs:181-194 | any response is loaded and sorted stably, except for the checkpoints; when it lists each entity once, the timeline is the replica loaded at the response's boundary, with nothing remembered |
| `Timeline.TimelineModel.SortAll` | crates/homebot-desktop/src/timeline.rs:421-429 | afterwards every vector but the checkpoints is in display order with its elements kept and equal keys in their old order, and the timeline shows the same entities |
| `Timeline.TimelineModel.ExtendMessage` | crates/homebot-desktop/src/timeline.rs:231-248 | a delta changes exactly the first listed message of its identifier and is reported when there is none |
| `Timeline.TimelineModel.ApplyBody` | crates/homebot-desktop/src/timeline.rs:219-294 | an event is relevant exactly when it concerns the chat, and a delta to an unknown message asks for a snapshot; a changed entry takes the place of the first of its identifier and its vector is stably sorted; as maps, the timeline moves by the projection of the event, except that a keyed change needs its entities listed once |
| `Timeline.TimelineModel.ApplyEvent` | crates/homebot-desktop/src/timeline.rs:196-217 | outcome, cursor, snapshot flag and remembered identifiers are the step of the map-based replica for any timeline in display order, and so is the whole state when entities are listed once; a changed entry that comes next is applied exactly when a chat is loaded and it is of that chat; unseen updates grow only when something applied while scrolled away |
| `Timeline.ChangeIsListed` | crates/homebot-desktop/src/timeline.rs:226-283 | whatever is listed twice, a changed entry is in its vector afterwards, which ascends by time or position, and no entry of another identifier is lost |
| `Timeline.WhatIsShown` | crates/homebot-desktop/src/timeline.rs:421-441 | a timeline in order ascends by creation, start, creation and position, and shows an identifier exactly when an entry has it |
| `Timeline.Session` | crates/homebot-desktop/src/timeline.rs:181-294 | a fresh timeline fed with any deliveries and snapshots of a log equals the specification's run, hence a prefix of the log |
| `GroupTimeline.GroupTimelineModel.Hydrate` | crates/homebot-desktop/src/group_timeline.rs:47-56 | any response is loaded and sorted stably; when it lists each entity once, the group timeline is the replica loaded at the response's boundary |
| `GroupTimeline.GroupTimelineModel.Sort` | crates/homebot-desktop/src/group_timeline.rs:205-210 | sorting changes the order only, and not that of elements with equal keys; the group timeline shows the same entities |
| `GroupTimeline.GroupTimelineModel.ApplyBody` | crates/homebot-desktop/src/group_timeline.rs:68-98 | as maps, the group timeline moves by the projection of the event, whatever it lists |
| `GroupTimeline.GroupTimelineModel.ApplyEvent` | crates/homebot-desktop/src/group_timeline.rs:58-108 | outcome, cursor, flag and identifiers are the step of the map-based replica, and the vectors a stable sort of that step; the whole state is when entities are listed once |
| `GroupTimeline.WhatGroupEventsDo` | crates/homebot-desktop/src/group_timeline.rs:68-98 | of each kind of event, by the fields of its entry: an entry of the loaded group is shown under its identifier, a participant by its Bot; anything else changes nothing |
| `GroupTimeline.WhatGroupShows` | crates/homebot-desktop/src/group_timeline.rs:205-210 | a group timeline in order ascends by Bot, creation and creation, and shows an identifier exactly when an entry has it |
| `GroupTimeline.GroupSession` | crates/homebot-desktop/src/group_timeline.rs:47-108 | a group session equals the specification's run, hence a prefix of the log |
| `OrderedEntries.OrderedIsSortedPermutation` | crates/homebot-desktop/src/timeline.rs:120-131 | the displayed stream holds every message, activity and approval once, ascending by key |
| `OrderedEntries.OrderedIgnoresArrival` | crates/homebot-desktop/src/timeline.rs:120-163 | with identifiers unique per kind, the displayed stream does not depend on the order of arrival |
| `OrderedEntries.UnfinishedBotMessageComesLast` | crates/homebot-desktop/src/timeline.rs:133-163 | an unfinished Bot message is displayed after everything done for it, even when the time addition saturates |
| `OrderedEntries.WhereEntriesGo` | crates/homebot-desktop/src/timeline.rs:133-163 | the key of every kind of entry: its time, its rank and its identifier; a finished Bot message goes by its completion, an unfinished one right after the latest thing done for it |
| `OrderedEntries.LesserKeyComesFirst` | crates/homebot-desktop/src/timeline.rs:120-131 | what has the lesser key is displayed first |
| `Transport.Runtime.HandleSocket` | crates/homebot-desktop/src/transport.rs:614-668 | which messages are survived and why the others are not, what the receiver is told and where the position goes, exactly; what has been forwarded since the last snapshot stays the log from its boundary to the cursor |
| `Transport.Reaction` | crates/homebot-desktop/src/transport.rs:614-668 | of each message, by its fields: whether it is survived, what is forwarded and the position afterwards |
| `Transport.Runtime.DrainPending` | crates/homebot-desktop/src/transport.rs:584-589 | commands left from a disconnected period run first, in order |
| `Transport.Runtime.ConnectedLoop` | crates/homebot-desktop/src/transport.rs:575-612 | one connection as a function of its choices: the messages taken are those of the choices up to the exit, and what they determine is forwarded in order and moves the cursor; the commands executed are the first of the channel, one for each choice of it; it ends at the first message that is not survived, at the end of the socket, at a shutdown or at a closed channel, and says which |
| `Transport.WhereItStands` | crates/homebot-desktop/src/transport.rs:590-611 | position, forwarded events, executed commands and channel after any number of choices, from those before |
| `Transport.Runtime.Pause` | crates/homebot-desktop/src/transport.rs:445-453 | a command taken during the pause is kept for the next connection, a shutdown ends the runtime, and so does a channel that closes when it has run empty |
| `Transport.Runtime.RunRound` | crates/homebot-desktop/src/transport.rs:392-458 | one connection attempt and the pause after it: it hears what its choices say up to its exit, commands are accounted for, and what is forwarded only grows, in step with the log |
| `Transport.Runtime.Run` | crates/homebot-desktop/src/transport.rs:392-458 | across any pattern of connects and failures the executed commands are a prefix of those sent, and the cursor and the forwarded events are those that the messages survived in each connection determine, in order and in step with the log |
| `Transport.TimelineBehindTransport` | crates/homebot-desktop/src/transport.rs:614-668 | of two moments of a run without a snapshot between them: a timeline loaded at a boundary not below the earlier cursor sees no gap in what is forwarded between them and shows the log up to the later position |
| `EndToEnd.ForwardedSplits` | crates/homebot-desktop/src/transport.rs:614-668 | what is forwarded since the last snapshot at a later moment is what was at an earlier one, followed by the server events in between |
| `EndToEnd.ApplyForwarded` | crates/homebot-desktop/src/timeline.rs:196-217 | forwarded events applied one after the other make the replica's run, and report no gap when that run has none |
| `EndToEnd.LoadWhileRunning` | crates/homebot-desktop/src/transport.rs:392-668 | the transport runs over any reconnects, a chat is loaded at a boundary not below its cursor, and it runs on: the timeline reports no gap in all that is forwarded and shows the log up to at least the transport's cursor |
| `TimeZones.ChosenIsEarliest` | crates/homebot-routines/src/schedule.rs:261-273 | the chosen instant is the first at which the wall clock shows the reading; there is none exactly when it never does |
| `TimeZones.RepeatedReading` | crates/homebot-routines/src/schedule.rs:248-252 | a reading shown after a later one was shown before as well, so days before the cursor's hide no occurrence |
| `TimeZones.ReadingsFollowTheTable` | crates/homebot-routines/src/schedule.rs:245-252 | the wall clock runs at the base offset before the first transition, and from each transition to the next at the offset that one sets |
| `Schedule.FindNextLocal` | crates/homebot-routines/src/schedule.rs:235-282 | the loop over day offsets computes the specified search |
| `Schedule.WhatFires` | crates/homebot-routines/src/schedule.rs:111-160 | a one-shot fires at its instant; an interval at its anchor and whole periods of so many seconds later; a local schedule on some day when the time is first shown |
| `Schedule.WhatTheClockShows` | crates/homebot-routines/src/schedule.rs:252-282 | when a local schedule fires the wall clock shows its hour and minute sharp, for the first time |
| `Schedule.WhichWeekdays` | crates/homebot-routines/src/schedule.rs:256-260 | which days a weekly schedule allows, day 0 being a Thursday |
| `Schedule.NextLocalIsLeast` | crates/homebot-routines/src/schedule.rs:252-282 | the answer is the least instant after the cursor at which an allowed day first shows the time; the scan limit means no such day in the window |
| `Schedule.ScanOutcome` | crates/homebot-routines/src/schedule.rs:252-282 | the search answers exactly when some day of the window has a candidate after the cursor; otherwise its error tells why |
| `Schedule.NextLocalOutcome` | crates/homebot-routines/src/schedule.rs:235-282 | the outcome in full: which arguments are rejected and how, and otherwise an answer exactly when a day of the window has a firing after the cursor, or the error that tells whether the window left the calendar |
| `Schedule.NextStepIsLeast` | crates/homebot-routines/src/schedule.rs:119-143 | the division form is the least anchor plus a multiple of the period after the cursor; no answer means that multiple is past the clock's range, and an error that it overflows |
| `Schedule.NextStepOutcome` | crates/homebot-routines/src/schedule.rs:119-143 | an error exactly when the time since the anchor or the offset of the next multiple overflows, no occurrence exactly when only their sum with the anchor does |
| `Schedule.OverflowWithoutError` | crates/homebot-routines/src/schedule.rs:119-143 | an input for which the overflow is reported as no occurrence, and one for which it is an error |
| `Schedule.NextOccurrenceIsLeast` | crates/homebot-routines/src/schedule.rs:111-160 | for every kind of schedule an answer is the least firing after the cursor and "none" means it never fires again; there is an error exactly when the schedule lacks what it needs |
| `Schedule.NextOccurrenceAnswers` | crates/homebot-routines/src/schedule.rs:111-160 | for every kind of schedule, exactly when an answer or "none" is given without an error |
| `Polling.BetweenIsExact` | crates/homebot-routines/src/schedule.rs:162-169 | the reference list holds exactly the firings of an interval, strictly increasing |
| `Polling.ApplyMissed` | crates/homebot-routines/src/schedule.rs:213-233 | the policy keeps the latest missed occurrences up to its capacity (none, one, or the limit but at least one), before all recent ones |
| `Polling.WhatIsMissed` | crates/homebot-routines/src/schedule.rs:180-200 | an occurrence is missed exactly when it is at least the grace window old, the window cut to what the clock can hold |
| `Polling.WhatIsDue` | crates/homebot-routines/src/schedule.rs:170-233 | a poll runs every recent firing, and a missed one exactly when fewer missed ones follow it than the policy still runs |
| `Polling.ScanDue` | crates/homebot-routines/src/schedule.rs:170-211 | one poll gives the policy's share of the missed occurrences and every recent one; it succeeds exactly when fewer than 10000 are due and no step fails |
| `Polling.DueOccurrences` | crates/homebot-routines/src/schedule.rs:170-211 | the same for the schedules of the engine |
| `Scheduler.Trigger.EnqueueDelivery` | crates/homebot-storage/src/lib.rs:1890-1916 | a job is stored unless one for the same occurrence was, and the keys stored are those of the jobs |
| `Scheduler.WhatIsStored` | crates/homebot-server/src/scheduler.rs:278-293 | a poll stores everything, or up to the first occurrence that is refused, or up to one for which an error is reported after it was kept |
| `Scheduler.Trigger.Evaluate` | crates/homebot-server/src/scheduler.rs:264-302 | one evaluation calls the engine, keeps the cursor when the scan or an enqueue fails, and otherwise moves it to the clock |
| `Scheduler.Trigger.EvaluateAll` | crates/homebot-server/src/scheduler.rs:255-303 | any sequence of evaluations is the specified run |
| `Scheduler.NeverTwice` | crates/homebot-server/src/scheduler.rs:278-293 | under any clock, failed scans and failing storage, no occurrence is enqueued twice |
| `Scheduler.WhatIsEnqueued` | crates/homebot-server/src/scheduler.rs:255-303 | under any clock and any failures an occurrence is enqueued exactly when some poll's scan succeeds, its policy runs the occurrence and the storage has not stopped the poll before |
| `Scheduler.FailedScanIsForGood` | crates/homebot-server/src/scheduler.rs:265-276 | under a clock that never steps back a trigger whose scan has failed never moves again |
| `Scheduler.ExactlyOnce` | crates/homebot-server/src/scheduler.rs:255-303 | under a clock that never steps back and a storage that accepts everything, a run enqueues every occurrence once and in order, if and only if each poll has nothing due, or finds what is due and misses no more than its policy runs |
| `Scheduler.FrequentPollsLoseNothing` | crates/homebot-routines/src/schedule.rs:170-233 | polls no further apart than the grace window are complete under any policy, when occurrences lie far enough apart for the window and no step fails |
| `Scheduler.IntervalsLoseNothing` | crates/homebot-server/src/scheduler.rs:255-303 | an interval schedule polled within the server's 30 second grace enqueues every occurrence exactly once, under every policy, until the clock's range ends |
| `CalendarPolls.TableSprings` | crates/homebot-routines/src/schedule.rs:245-282 | a zone whose changes are a day apart sets its clock forward within a day by no more than its largest change |
| `CalendarPolls.LaterDay` | crates/homebot-routines/src/schedule.rs:252-282 | in a settled zone a later occurrence of a daily or weekly schedule is on a later local day |
| `CalendarPolls.CalendarIsSpaced` | crates/homebot-routines/src/schedule.rs:235-282 | daily occurrences lie a day less the clock's forward change apart, weekly ones five days |
| `CalendarPolls.CalendarsLoseNothing` | crates/homebot-server/src/scheduler.rs:255-303 | a daily or weekly schedule polled within the grace window enqueues every occurrence exactly once, under every policy, while it has a next occurrence |
| `Scheduler.DowntimeIsFatal` | crates/homebot-server/src/scheduler.rs:265-276 | after a downtime of 10,000 periods an interval trigger keeps its cursor and enqueues nothing at any later poll |
| `Scheduler.NothingSkipped` | crates/homebot-server/src/scheduler.rs:255-303 | under any clock and any failures every occurrence up to the latest cursor is enqueued, when no poll that moves the cursor misses more than its policy runs |
| `Recording.Validate` | crates/homebot-routines/src/lib.rs:132-185 | a definition is valid, or the error is the first one in the order of the checks |
| `Recording.VerdictIsUnique` | crates/homebot-routines/src/lib.rs:132-185 | that order determines the error |
| `Recording.DefinitionFromRecording` | crates/homebot-routines/src/lib.rs:192-213 | recording succeeds exactly when there are 1 to 256 actions each acceptable by itself, and gives a valid definition |
| `Recording.RecordingVerdict` | crates/homebot-routines/src/lib.rs:192-213 | a recording declares every output it records, so nothing else can fail |
| `Recording.ValidateInputs` | crates/homebot-routines/src/lib.rs:276-308 | inputs pass exactly when they are the ones asked for, each of its kind; otherwise an unknown input is reported first, and then the first input that is missing or of another kind |
| `Recording.Replay` | crates/homebot-routines/src/lib.rs:236-274 | the results and the steps attempted, up to the first step that fails or waits; nothing runs when the definition or the inputs are invalid |
| `Recording.WhatReplaysDo` | crates/homebot-routines/src/lib.rs:236-274 | which steps a replay passes, which it attempts, and what stops it |
| `Recording.RecordAndDryRun` | crates/homebot-routines/src/lib.rs:192-274 | recording actions and dry-running the definition succeeds exactly when there are 1 to 256 actions each acceptable by itself; it plans every recorded step in order and executes none |
| `Recording.RecordAndReplay` | crates/homebot-routines/src/lib.rs:192-274 | recording and replaying succeeds for exactly the same recordings, executes precisely the steps before the first that needs approval, in order, and ends by asking for it |
| `LineReader.ReadBoundedLine` | crates/homebot-providers/src/supervisor.rs:30-63 | the answer depends on the stream and not on its chunks; too long exactly when the next frame exceeds the maximum; never more than the maximum is held |
| `LineReader.WhatIsRead` | crates/homebot-providers/src/supervisor.rs:30-63 | the answer by where the first line feed is: a line, too long, not text, the end or a failure |
| `LineReader.FramesAreFrames` | crates/homebot-providers/src/supervisor.rs:30-63 | frames concatenate back to the stream, with a line feed only at the end of each but possibly the last |
| `LineReader.FramesAreUnique` | crates/homebot-providers/src/supervisor.rs:30-63 | there is no other way to cut a stream so |
| `LineReader.ReadFrames` | crates/homebot-providers/src/codex.rs:541-562 | repeated reads give the frames of the stream in order up to the first that cannot be read; frames read and frames left are the frames of the stream |
| `LineReader.EndsAtEof` | crates/homebot-providers/src/codex.rs:541-562 | the end is reached exactly when every frame is acceptable and the stream does not break off |
| `Diagnostics.TailIsLongest` | crates/homebot-providers/src/supervisor.rs:413-436 | what is kept is the longest suffix of lines whose total length fits |
| `Diagnostics.TailOnline` | crates/homebot-providers/src/supervisor.rs:413-436 | evicting as lines come in keeps what evicting at the end would keep |
| `Diagnostics.BoundedDiagnostics.Retain` | crates/homebot-providers/src/supervisor.rs:413-436 | the eviction loop computes that suffix, its byte count, and marks the output when a line is dropped |
| `Diagnostics.ReadBoundedStderr` | crates/homebot-providers/src/supervisor.rs:371-411 | the result depends on the bytes only: lines of at most 4096 bytes are presented, longer ones dropped whole; truncated exactly when something was dropped or the read failed |
| `Diagnostics.WhatIsPresented` | crates/homebot-providers/src/supervisor.rs:371-411 | line by line, what the output presents |
| `Sse.SseData` | crates/homebot-providers/src/openai_compatible.rs:879-891 | the loop gathers the data fields of an event |
| `Sse.WhatDataFieldsAre` | crates/homebot-providers/src/openai_compatible.rs:879-891 | which lines are data fields, and that one space and one carriage return are not of their value |
| `Sse.DrainEvents` | crates/homebot-providers/src/openai_compatible.rs:516-520 | every complete event of the buffer is read and the rest stays |
| `Sse.ConsumeSse` | crates/homebot-providers/src/openai_compatible.rs:507-521 | over a stream in chunks, the payloads are those of the events cut chunk by chunk; it gives up exactly when the buffer outgrows 4 MiB, never for a stream within that |
| `Sse.CutEarly` | crates/homebot-providers/src/openai_compatible.rs:872-877 | in an unmixed stream, what can be cut early is what would be cut late |
| `Sse.ChunksDoNotMatter` | crates/homebot-providers/src/openai_compatible.rs:507-521 | all chunkings of an unmixed stream give the events of the whole |
| `Sse.MixedStreamsDiffer` | crates/homebot-providers/src/openai_compatible.rs:872-877 | a mixed stream can be cut in two so that other events come out |
| `Sse.ChunkIndependence` | crates/homebot-providers/src/openai_compatible.rs:507-521 | independence of chunks if and only if the stream is unmixed |
| `Sse.OneStyleIsUnmixed` | crates/homebot-providers/src/openai_compatible.rs:872-877 | a stream with one of the two separators only is unmixed |
| `Sse.ShortStreamsFit` | crates/homebot-providers/src/openai_compatible.rs:511-515 | a stream within the limit never outgrows it, in any chunks |
| `SsePayloads.PiecesOf` | crates/homebot-providers/src/openai_compatible.rs:879-891 | what becomes of an event's payload when it is cut at an LF LF: it moves to one piece, or it is lost to two |
| `SsePayloads.CutEarlyPayloads` | crates/homebot-providers/src/openai_compatible.rs:872-891 | in a forgiving stream, cutting early gives the payloads of cutting late |
| `SsePayloads.UnforgivingDiffers` | crates/homebot-providers/src/openai_compatible.rs:872-891 | any other stream can be cut in two so that other payloads come out |
| `SsePayloads.PayloadIndependence` | crates/homebot-providers/src/openai_compatible.rs:507-521 | the payloads of all chunkings agree if and only if no event ended by CRLF CRLF holds an LF LF with data before it and a data field after it |
| `SsePayloads.UnmixedForgives` | crates/homebot-providers/src/openai_compatible.rs:872-891 | unmixed streams are among them |
| `SsePrinting.EventRoundTrip` | crates/homebot-providers/src/openai_compatible.rs:879-891 | a printed event reads back as its payload if and only if the payload is readable |
| `SsePrinting.StreamCuts` | crates/homebot-providers/src/openai_compatible.rs:872-877 | a printed stream is cut into its printed events with nothing left |
| `SsePrinting.StreamRoundTrip` | crates/homebot-providers/src/openai_compatible.rs:507-521 | printing a list of payloads and reading it in any chunks gives it back if and only if every payload is readable |
| `ChatCalls.ChatAccumulator.Take` | crates/homebot-providers/src/openai_compatible.rs:668-694 | a fragment is merged into its slot or refused for the stated reason; never more than 32 slots |
| `ChatCalls.ChatAccumulator.Accumulate` | crates/homebot-providers/src/openai_compatible.rs:661-695 | slots hold the last id and name and all arguments sent since the last fragment of a lower slot; the error is the first refusal |
| `ChatCalls.AllKeptIffOrdered` | crates/homebot-providers/src/openai_compatible.rs:677-678 | every slot keeps every fragment sent for it if and only if the indices never go down |
| `ChatCalls.SlotHoldsAllSent` | crates/homebot-providers/src/openai_compatible.rs:661-695 | with such indices a slot is the last id, the last name and the concatenation of all arguments sent for it |
| `ChatCalls.NothingTruncated` | crates/homebot-providers/src/openai_compatible.rs:677-678 | with such indices every slot sent for is there at the end |
| `ChatCalls.FinishAll` | crates/homebot-providers/src/openai_compatible.rs:703-722 | finishing succeeds exactly when every slot has an id, a name and readable arguments; otherwise the first slot's reason |
| `ChatCalls.FinishedCallsWereNamed` | crates/homebot-providers/src/openai_compatible.rs:703-722 | each finished call carries an id and a name some fragment sent for its own slot |
| `GenericProcess.CallsAreConserved` | crates/homebot-providers/src/generic_process.rs:268-280 | every forwarded call has been answered once or still waits, as multisets |
| `GenericProcess.NotForwardedWhileWaiting` | crates/homebot-providers/src/generic_process.rs:270-277 | between two forwards of one call identifier lies its answer |
| `GenericProcess.ProcessRun.ResolveCall` | crates/homebot-providers/src/generic_process.rs:377-391 | a result is taken once, for a call that waits, and queued for the run it belongs to |
| `GenericProcess.ProcessRun.RegisterCall` | crates/homebot-providers/src/generic_process.rs:268-277 | a call enters the table unless one of that identifier waits there |
| `GenericProcess.ProcessRun.HandleReading` | crates/homebot-providers/src/generic_process.rs:249-283 | what each kind of line adds to the events, to the table and to the calls, and when and why it ends the loop, exactly |
| `GenericProcess.ProcessRun.Step` | crates/homebot-providers/src/generic_process.rs:229-285 | one branch of the loop: a cancellation ends it exactly when the run was asked to stop, a result is written or ends it, a line is handled |
| `GenericProcess.ProcessRun.Consume` | crates/homebot-providers/src/generic_process.rs:216-298 | in every interleaving exactly one terminal event is emitted, in last place, after everything the process spoke; it tells what ended the run; the loop ends as cancelled exactly when it looks at its signal after a cancellation or another start of its operation, and it never looks past that |
| `GenericProcess.ProcessRun.Run` | crates/homebot-providers/src/generic_process.rs:188-211 | the same for the whole task of a run; afterwards no call of the run waits and its operation is gone; a call or an operation of another run is taken out only by its result, by its own run or by its own end, and every result written was handed in for a call that was forwarded |
| `GenericProcess.ProcessRun.CleanUp` | crates/homebot-providers/src/generic_process.rs:203-207 | the end of a run takes its calls and its operation out of the tables and leaves everything of other operations as it was |
| `GenericProcess.LastEventTells` | crates/homebot-providers/src/generic_process.rs:216-298 | which terminal event each way of ending stands for |
| `GenericProcess.DuplicateEndsTheRun` | crates/homebot-providers/src/generic_process.rs:140-145 | the failing input: a refused start of an active operation ends the active run as cancelled |
| `ToolLoop.StreamRun.RegisterToolCall` | crates/homebot-providers/src/openai_compatible.rs:778-804 | at most 32 calls of a round; a repeated identifier is refused; otherwise the call is entered and announced |
| `ToolLoop.StreamRun.HandleEvent` | crates/homebot-providers/src/openai_compatible.rs:574-631 | what each event passes on, registers and ends: a completion with open calls continues the run, every other terminal event ends it, a call is announced as it is or its refusal is, and the conversation is announced once |
| `ToolLoop.StreamRun.ChatToolOutcome` | crates/homebot-providers/src/openai_compatible.rs:633-652 | when the provider has finished its calls, one call per slot is forwarded, in order, each with its slot's identifier and name and its arguments parsed; otherwise nothing is, and the error is the first refusal, the first slot that cannot be finished, or why a call could not be registered |
| `ToolLoop.StreamRun.FinishRound` | crates/homebot-providers/src/openai_compatible.rs:644-652 | the slots are finished and registered as they are |
| `ToolLoop.NamedWhole` | crates/homebot-providers/src/openai_compatible.rs:541-652 | the calls a value names: the one of a function call, or each slot's with its identifier, its name and its arguments parsed |
| `ToolLoop.WhatIsDropped` | crates/homebot-providers/src/openai_compatible.rs:533-553 | all plain events of a value are passed on exactly when it is not a chat value that finishes tool calls or holds a refused fragment, or has no text and no usage |
| `ToolLoop.FinishingTextIsLost` | crates/homebot-providers/src/openai_compatible.rs:533-553 | the failing input: text in a chat value that finishes tool calls |
| `ToolLoop.StreamRun.HandleData` | crates/homebot-providers/src/openai_compatible.rs:521-553 | what each piece of stream data passes on, exactly, and when it ends the response |
| `ToolLoop.StreamRun.HandleEvents` | crates/homebot-providers/src/openai_compatible.rs:541-555 | the plain events of a value (text, usage, activity) are passed on in order |
| `ToolLoop.StreamRun.HandleMoment` | crates/homebot-providers/src/openai_compatible.rs:499-570 | one branch of the stream loop: what it passes on, exactly, whether it ends the response and with which event; a cancellation ends it exactly when it was asked for |
| `ToolLoop.StreamRun.ConsumeSse` | crates/homebot-providers/src/openai_compatible.rs:489-572 | a response goes on until the first moment it cannot survive and its last event tells which one; every plain event looked at is passed on once and in order; a cancellation ends it exactly when it is noticed |
| `ToolLoop.StreamRun.CollectResults` | crates/homebot-providers/src/openai_compatible.rs:443-468 | the outputs pair each call of the round, in order, with the result handed in for that very call |
| `ToolLoop.StreamRun.ContinuationRequest` | crates/homebot-providers/src/openai_compatible.rs:737-776 | a continuation carries one result per call of the round, and all registered calls have then been sent |
| `ToolLoop.StreamRun.ContinueRound` | crates/homebot-providers/src/openai_compatible.rs:440-486 | between two responses: results, request and reply; a cancellation is never overlooked |
| `ToolLoop.StreamRun.RunRounds` | crates/homebot-providers/src/openai_compatible.rs:434-487 | round after round, the plain events of all responses are passed on once and in order |
| `ToolLoop.StreamRun.RunStream` | crates/homebot-providers/src/openai_compatible.rs:434-487 | over any number of rounds: one terminal event, in last place; it is the cancellation exactly when the run notices that it was asked to stop; every plain event looked at is passed on in order; the calls forwarded are the ones the responses name, whole and in order, all of them unless the run ends; at most one conversation start; sent results agree with the calls in order; no call left in the table, and none of another run taken out without its result or its run's end |
| `ToolLoop.StreamRun.CleanUp` | crates/homebot-providers/src/openai_compatible.rs:244-249 | the end of a run takes its own calls out of the shared table and nothing else |
| `ToolLoop.RoundInOrder` | crates/homebot-providers/src/openai_compatible.rs:755-767 | an assistant message followed by the results of its calls keeps a chat conversation in order |
| `ToolLoop.ConversationInOrder` | crates/homebot-providers/src/openai_compatible.rs:755-767 | in such a conversation each assistant message is followed by exactly the results of its calls, in order |
| `ToolLoop.ChannelStaysOpen` | crates/homebot-providers/src/openai_compatible.rs:453-463 | the result channel of a call never closes before its result has come |
| `Starting.Adapter.Enter` | crates/homebot-providers/src/openai_compatible.rs:162-197 | which starts are refused and why; a start of an active operation replaces its cancel sender and is refused |
| `Starting.Adapter.Cancel` | crates/homebot-providers/src/openai_compatible.rs:361-368 | a cancellation reaches exactly a run that listens through the sender kept for it, never an operation whose secret failed |
| `Starting.Adapter.Step` | crates/homebot-providers/src/openai_compatible.rs:162-256 | what each step does to the attempts, exactly; any step keeps the table in order: one attempt holds each operation in it |
| `Starting.Adapter.Run` | crates/homebot-providers/src/openai_compatible.rs:162-256 | in any interleaving, once a start has failed to resolve its secret every later start of its operation is refused |
| `Starting.RegisteredExactly` | crates/homebot-providers/src/openai_compatible.rs:194-249 | an operation is registered exactly when a start of it is under way, its run is not cleaned up, or a start of it failed to resolve its secret |
| `Starting.StuckAfterOneFailure` | crates/homebot-providers/src/openai_compatible.rs:193-198 | the failing input: after one start without a secret the next is refused although nothing runs |
| `Codex.CodexClient.Begin` | crates/homebot-providers/src/codex.rs:498-502 | a number never given out before; none from a dead client |
| `Codex.CodexClient.Leave` | crates/homebot-providers/src/codex.rs:505-523 | a caller that gives up takes its number out of the table and gets the reason |
| `Codex.CodexClient.Return` | crates/homebot-providers/src/codex.rs:512-514 | a waiting caller returns exactly what was delivered to it |
| `Codex.CodexClient.Expire` | crates/homebot-providers/src/codex.rs:512-524 | time runs out only for a caller without an outcome |
| `Codex.CodexClient.Respond` | crates/homebot-providers/src/codex.rs:564-579 | a response is delivered once, to the number it names; others are ignored |
| `Codex.CodexClient.FailPending` | crates/homebot-providers/src/codex.rs:858-864 | every number in the table is delivered the failure, and earlier deliveries stand |
| `Codex.CodexClient.InsertRoute` | crates/homebot-providers/src/codex.rs:752-773 | one route per operation, on a channel of its own whose announcement is still to be sent |
| `Codex.CodexClient.AnnounceRoute` | crates/homebot-providers/src/codex.rs:774-786 | the announcement is sent, or the route goes when its receiver is gone |
| `Codex.CodexClient.HandleServerRequest` | crates/homebot-providers/src/codex.rs:662-750 | looking a request up: which requests are answered at once, which are malformed, and which are to be entered for a run of their thread |
| `Codex.CodexClient.HandleNotification` | crates/homebot-providers/src/codex.rs:593-660 | looking a notification up: which events are to be sent to which run of the thread, and what follows them |
| `Codex.CodexClient.MoveReader` | crates/homebot-providers/src/codex.rs:593-750 | the reading task's next lock or send; it ends the client exactly when an event is for a receiver that is gone; a request entered has the newest request's identifier and its thread; of an ended turn or a resolved request an entry of either table goes exactly when it is of that thread, or of that request |
| `Codex.CodexClient.ResolveApproval` | crates/homebot-providers/src/codex.rs:813-831 | a decision takes its request's entry, at most once; the reply owed bears the request's own identifier |
| `Codex.CodexClient.ResolveToolCall` | crates/homebot-providers/src/codex.rs:837-851 | a result takes its call's entry, at most once; the reply owed bears the request's own identifier |
| `Codex.CodexClient.WriteReply` | crates/homebot-providers/src/codex.rs:532-539 | an owed reply is written once, or lost when writing fails |
| `Codex.CodexClient.MoveFailure` | crates/homebot-providers/src/codex.rs:858-882 | the failure goes on one table or one run at a time, with other tasks in between, and every invariant holds throughout |
| `Codex.CodexClient.TakeRoutes` | crates/homebot-providers/src/codex.rs:865-872 | every routed run, and no other, is taken over to be told |
| `Codex.CodexClient.TellOne` | crates/homebot-providers/src/codex.rs:873-879 | one of the runs taken over is told that it failed |
| `Codex.CodexClient.Dispatch` | crates/homebot-providers/src/codex.rs:564-591 | a message ends the client exactly when it is malformed or its answer on the spot cannot be written, with the problem of each; otherwise it fixes what the reading task has to do next |
| `Codex.WhatRequestsNeed` | crates/homebot-providers/src/codex.rs:662-750 | an unknown kind is refused, a request without a thread is malformed, one for a thread of no run is declined, a tool call without identifier or name is malformed, and any other is entered for a run of its thread and not answered yet |
| `Codex.WhatNotificationsNeed` | crates/homebot-providers/src/codex.rs:593-660 | a notification is for a run of its thread or for none; an error is noted, and anything else is sent, with what an ended turn or a resolved request takes along |
| `Codex.CodexClient.Step` | crates/homebot-providers/src/codex.rs:498-882 | any step of any task keeps the invariants, every outcome already returned, and everything sent; while the client lives a route goes only with its turn's end or with the start that gives it up |
| `Codex.CodexClient.Run` | crates/homebot-providers/src/codex.rs:498-882 | so does any interleaving of steps; while the reading task does nothing and the client lives, of what waits only that goes which is decided on or handed in |
| `Codex.OutcomeIsOwn` | crates/homebot-providers/src/codex.rs:498-579 | an answer returned to a caller is one the server sent for that caller's number, and the number has left the table |
| `Codex.WaitingIsServed` | crates/homebot-providers/src/codex.rs:498-525 | a waiting caller's number is in the table or its outcome delivered, never both or neither |
| `Codex.NothingAfterTheEnd` | crates/homebot-providers/src/codex.rs:593-883 | nothing follows a terminal event on a channel that is not contested; once nothing is left to send to a receiver that is there, only then |
| `Codex.AfterFailure` | crates/homebot-providers/src/codex.rs:858-883 | after the last step of the failure every number entered before is gone from the table with an outcome for a caller that waits, every run taken over has its terminal event unless its receiver is gone, and no entry from before the clearing is left |
| `Codex.AnnouncedTooLate` | crates/homebot-providers/src/codex.rs:757-780 | the failing interleaving: routed, failed with the client, then announced |
| `Codex.EndedTwice` | crates/homebot-providers/src/codex.rs:656-879 | the other failing interleaving: a run that has completed is taken over by the failure before its route goes, and fails as well |
| `Codex.ClosedReceiverEndsTheClient` | crates/homebot-providers/src/codex.rs:541-591 | the failing input: an event for a run whose receiver is gone ends the client while another run's receiver is there |
| `Codex.OneReplyEach` | crates/homebot-providers/src/codex.rs:662-856 | two replies answer two requests, each under the identifier of its own |
| `Codex.WaitingHasNoReply` | crates/homebot-providers/src/codex.rs:662-856 | a request that waits for a decision or for a tool's result has had no reply, none is owed to it, and it has one entry only |
| `Codex.DistinctRequests` | crates/homebot-providers/src/codex.rs:662-856 | when the server's identifiers differ, none is replied to twice |
| `CodexTables.InsertOne` | crates/homebot-providers/src/codex.rs:752-773 | a new route on a new channel keeps every channel's discipline |
| `CodexTables.AnnounceOne` | crates/homebot-providers/src/codex.rs:774-786 | an announcement keeps it, whatever the failure of the client has done to the channel |
| `CodexTables.DrainAll` | crates/homebot-providers/src/codex.rs:865-872 | so does taking over all routes while other tasks have events to send |
| `CodexTables.FailOne` | crates/homebot-providers/src/codex.rs:873-879 | so does a failure sent on a channel |
| `CodexTables.SendNext` | crates/homebot-providers/src/codex.rs:623-657 | so does the reading task's next event |
| `CodexTables.WhatIsSent` | crates/homebot-providers/src/codex.rs:623-657 | an event is the last on its channel, and after the last one the reading task goes on with what follows the notification |
| `CodexTables.WriteOne` | crates/homebot-providers/src/codex.rs:832-835 | writing an owed reply, or losing it, keeps each request answered at most once |
| `CodexRoutes.Track` | crates/homebot-providers/src/codex.rs:752-799 | a run's route goes only when it has been told an end, while nobody gives it up |
| `CodexRoutes.ReaderMovedFollows` | crates/homebot-providers/src/codex.rs:593-660 | no step of the reading task takes another route away, and it ends a run before it removes its route |
| `CodexRoutes.OrphanStays` | crates/homebot-providers/src/codex.rs:752-799 | a route whose receiver is gone stays |
| `CodexStarts.BeginTurn` | crates/homebot-providers/src/codex.rs:108-159 | the steps of a start, with other tasks in between: how it ends, and that it leaves an orphaned route exactly when the reply had no turn and the run was not told an end before |
| `CodexStarts.LaterStartIsRefused` | crates/homebot-providers/src/codex.rs:757-764 | while the client lives an orphaned route stays through any script and every later start of its operation is refused |
| `CodexStarts.NextMessageEndsTheClient` | crates/homebot-providers/src/codex.rs:628-634 | the next message for the thread of an orphaned route ends the client, whatever other tasks do meanwhile |
| `CodexTurns.EndTurn` | crates/homebot-providers/src/codex.rs:593-660 | from the notification to the last step, with other tasks in between: the run is told how its turn ended, its route is gone, and an entry of either table is left, as it was, exactly when its thread is another and it was not answered meanwhile |
| `CodexTurns.ResolveRequest` | crates/homebot-providers/src/codex.rs:634-646 | a resolved request takes exactly its own entries along, of whatever thread, and none when it is for no run or names none |

## Left out

- Timeline.Session: asks that the server's responses list each entity once, as its queries do; what an event does to a timeline that lists one twice is in `Timeline.TimelineModel.ApplyEvent`.
- GroupTimeline.GroupSession: asks the same of a group's responses.
- CodexStarts.BeginTurn: the request `turn/start` appears as its reply; its own steps are those of `Codex.CodexClient.Begin` to `Return` and may be among the steps of other tasks. What the start leaves is stated when no earlier run of the operation is still to be announced or ending.
- Starting.Adapter: checking the model, the tools and the request body before the operation is entered is left out; a caller that abandons a start half-way is not modelled.
- Scheduler.Trigger.Evaluate: triggers are evaluated one by one, so one of them is modelled; disabled triggers are skipped before, and the `next_fire_at` it also writes is `Schedule.NextOccurrence` at the new cursor.
- Codex.CodexClient.Begin: numbers are unbounded; the program's 64-bit counter would wrap after 2^64 requests.
- Codex.CodexClient.HandleServerRequest: the receipt of a request that is answered on the spot and its answer are one step; no other task can tell them apart.
- Codex.CodexClient.RemoveRoute: as in the program, waiting approvals of the thread stay; they can still be decided.
- GenericProcess.ProcessRun.CleanUp: the two locks of the cleanup are taken in one step.
- GenericProcess.ProcessRun.Consume: takes lines as they are read; a read that is dropped half-way because a tool result was picked first loses the bytes it had consumed, which is part of the arbitrary script of lines.
- ToolLoop.StreamRun.ConsumeSse: takes the stream's data one by one; the cutting into events and the buffer limit are in `Sse`.
- ToolLoop.StreamRun.CollectResults: the branch for a result channel that closes is absent because `ToolLoop.ChannelStaysOpen` shows it is never taken.
- Transport.Runtime.Execute: what the server makes of a command is a parameter, success or failure by the command.
- Transport.Runtime.Run: starting a local server, the health probe and the negotiation before a connection are folded into whether a connection attempt succeeds.
- Schedule.NextLocalOutcome: local times whose conversion leaves the calendar library's range count as instants like any other; the range is checked for the cursor and for the dates of the search.
- Schedule: cron evaluation and the zone database are assumed to answer as `Schedule.Sound` says; of the Unicode white space that a cron expression must not start or end with, the model knows the ASCII kinds.
- LineReader: the answer of the operating system to a read is a chunk or the end; a read error comes only at the end of the chunks.
- Diagnostics: decoding, trimming and redacting a line is one function parameter.
- Sse: `[DONE]` and JSON are recognised in `ToolLoop`, on payloads.
- Event queues are unbounded; waiting for room in a bounded channel is not modelled, nor a send that waits for room when its receiver goes away.
- Server-side storage, authentication, plugins, updates, artifacts and every other provider adapter: their state is behind libraries or repeats the adapters modelled here.
- User interface, composer and command building in the desktop models, which only push values to a list.
- Request bodies, model names, tool schemas, error texts, diagnostic identifiers and clocks.
