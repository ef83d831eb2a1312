/**
 The desktop transport: a connection loop that survives disconnects, forwards the server's events
 and executes the user's commands. What the network, the select statements and the user do is a
 script; a script that ends stops the model in the middle of a run, so a property of every script
 is a property of every reachable state.
 */
module Transport {
  import opened Wrappers
  import opened MachineInts
  import opened Vectors
  import opened Protocol
  import opened Replication

  const PROTOCOL_VERSION: nat := 1
  const MIN_COMPATIBLE_PROTOCOL_VERSION: nat := 1

  datatype Command = Shutdown | Work(request: nat)

  datatype FrameBody =
    | HelloFrame(minimum: nat, maximum: nat)
    | SnapshotFrame(boundary: u64)
    | PingFrame(pongSent: bool)
    | EventFrame(event: ServerEvent)

  datatype SocketMessage =
    | SocketError(failure: TransportFailure)
    | NotText
    | Undecodable
    | Frame(version: nat, body: FrameBody)

  datatype TransportFailure = ServerUnavailable | AuthenticationFailed | ProtocolFailure | VersionMismatch

  datatype DesktopEvent =
    | Connecting
    | Connected
    | Disconnected(failure: TransportFailure)
    | MutationFailed
    | Snapshot(boundary: u64)
    | Server(event: ServerEvent)

  /** What the select statement of the connected loop picks next. */
  datatype Choice =
    | UserSends(command: Command)
    | UserCloses
    | CommandReady
    | SocketReady(message: Option<SocketMessage>)

  /** One connection attempt: why it fails, if it does, what happens while connected, what the user sends
      while disconnected, whether the user then closes the channel, and whether the channel or the
      reconnect delay ends the pause. */
  datatype Round = Round(refused: Option<TransportFailure>, choices: seq<Choice>,
                         idle: seq<Command>, idleCloses: bool, commandWakes: bool)

  datatype Exit = StoppedByCommand | ChannelClosed | ConnectionFailed(failure: TransportFailure) | ScriptEnded

  // ---------------------------------------------------------------------------------------
  // What the receiver of the desktop events sees
  // ---------------------------------------------------------------------------------------

  /** The server events forwarded since the last snapshot. */
  function ForwardedSince(events: seq<DesktopEvent>): seq<ServerEvent> {
    if events == [] then []
    else
      match events[|events| - 1]
      case Snapshot(_) => []
      case Server(event) => ForwardedSince(events[..|events| - 1]) + [event]
      case _ => ForwardedSince(events[..|events| - 1])
  }

  function LastSnapshot(events: seq<DesktopEvent>): Option<u64> {
    if events == [] then None
    else
      match events[|events| - 1]
      case Snapshot(boundary) => Some(boundary)
      case _ => LastSnapshot(events[..|events| - 1])
  }

  /** The events forwarded since the last snapshot are the log's entries from its boundary up to the
      cursor: in order, each once, none left out. Before the first snapshot they start anywhere. */
  ghost predicate InStep(log: seq<ServerEvent>, events: seq<DesktopEvent>, cursor: Option<u64>) {
    match cursor
    case None => ForwardedSince(events) == [] && LastSnapshot(events) == None
    case Some(c) =>
      && |ForwardedSince(events)| <= c <= |log|
      && ForwardedSince(events) == log[c - |ForwardedSince(events)|..c]
      && (LastSnapshot(events).Some? ==> LastSnapshot(events).value == c - |ForwardedSince(events)|)
      && (ForwardedSince(events) != [] || LastSnapshot(events).Some?)
  }

  /** What was sent to the receiver stays sent; without a snapshot frame no snapshot is added. */
  ghost predicate Grown(before: seq<DesktopEvent>, after: seq<DesktopEvent>, snapshots: bool) {
    before <= after && (!snapshots ==> forall i | |before| <= i < |after| :: !after[i].Snapshot?)
  }

  predicate HasSnapshot(choices: seq<Choice>) {
    exists choice | choice in choices ::
      && choice.SocketReady? && choice.message.Some? && choice.message.value.Frame?
      && choice.message.value.body.SnapshotFrame?
  }

  predicate SnapshotIn(message: SocketMessage) {
    message.Frame? && message.body.SnapshotFrame?
  }

  lemma GrownItself(a: seq<DesktopEvent>, snapshots: bool)
    ensures Grown(a, a, snapshots)
  {
  }

  lemma GrownFurther(a: seq<DesktopEvent>, b: seq<DesktopEvent>, c: seq<DesktopEvent>, snapshots: bool)
    requires Grown(a, b, snapshots) && (Grown(b, c, snapshots) || Grown(b, c, false))
    ensures Grown(a, c, snapshots)
  {
    assert forall i | |a| <= i < |b| :: c[i] == b[i];
  }

  predicate AnySnapshot(rounds: seq<Round>) {
    exists round | round in rounds :: HasSnapshot(round.choices)
  }

  /** Event frames carry entries of the log and snapshots are taken at positions of the log. Nothing
      is asked about their order, repetition or completeness. */
  ghost predicate Honest(log: seq<ServerEvent>, message: SocketMessage) {
    message.Frame? ==>
      match message.body
      case EventFrame(event) => 0 < event.sequence <= |log| && log[event.sequence - 1] == event
      case SnapshotFrame(boundary) => boundary <= |log|
      case _ => true
  }

  ghost predicate HonestChoices(log: seq<ServerEvent>, choices: seq<Choice>) {
    forall i | 0 <= i < |choices| && choices[i].SocketReady? && choices[i].message.Some? ::
      Honest(log, choices[i].message.value)
  }

  lemma Appended(events: seq<DesktopEvent>, e: DesktopEvent)
    ensures ForwardedSince(events + [e]) ==
              if e.Snapshot? then []
              else if e.Server? then ForwardedSince(events) + [e.event]
              else ForwardedSince(events)
    ensures LastSnapshot(events + [e]) == if e.Snapshot? then Some(e.boundary) else LastSnapshot(events)
  {
    assert (events + [e])[..|events|] == events;
  }

  /** Notices that are neither events nor snapshots do not matter to the receiver's position. */
  lemma NoticeKeepsStep(log: seq<ServerEvent>, events: seq<DesktopEvent>, e: DesktopEvent, cursor: Option<u64>)
    requires InStep(log, events, cursor) && !e.Snapshot? && !e.Server?
    ensures InStep(log, events + [e], cursor)
  {
    Appended(events, e);
  }

  lemma SnapshotKeepsStep(log: seq<ServerEvent>, events: seq<DesktopEvent>, boundary: u64)
    requires boundary <= |log|
    ensures InStep(log, events + [Snapshot(boundary)], Some(boundary))
  {
    Appended(events, Snapshot(boundary));
  }

  lemma NextKeepsStep(log: seq<ServerEvent>, events: seq<DesktopEvent>, event: ServerEvent, cursor: Option<u64>)
    requires InStep(log, events, cursor) && Honest(log, Frame(PROTOCOL_VERSION, EventFrame(event)))
    requires cursor.Some? ==> event.sequence == cursor.value + 1
    ensures InStep(log, events + [Server(event)], Some(event.sequence))
  {
    Appended(events, Server(event));
  }

  // ---------------------------------------------------------------------------------------
  // What messages and commands lead to
  // ---------------------------------------------------------------------------------------

  /** The messages among the choices. */
  function Messages(choices: seq<Choice>): seq<SocketMessage> {
    if choices == [] then []
    else
      var last := choices[|choices| - 1];
      Messages(choices[..|choices| - 1])
      + if last.SocketReady? && last.message.Some? then [last.message.value] else []
  }

  predicate Spoken(message: SocketMessage) {
    message.Frame? && MIN_COMPATIBLE_PROTOCOL_VERSION <= message.version <= PROTOCOL_VERSION
  }

  /** The event that continues the log, or starts it. */
  predicate Continues(cursor: Option<u64>, event: ServerEvent) {
    cursor.None? || event.sequence == cursor.value + 1
  }

  /** Why a connection does not survive a message. */
  function FailureOf(cursor: Option<u64>, message: SocketMessage): Option<TransportFailure> {
    match message
    case SocketError(failure) => Some(failure)
    case NotText => None
    case Undecodable => Some(ProtocolFailure)
    case Frame(_, body) =>
      if !Spoken(message) then Some(VersionMismatch)
      else match body
        case HelloFrame(minimum, maximum) =>
          if minimum <= PROTOCOL_VERSION && MIN_COMPATIBLE_PROTOCOL_VERSION <= maximum then None
          else Some(VersionMismatch)
        case SnapshotFrame(_) => None
        case PingFrame(pongSent) => if pongSent then None else Some(ServerUnavailable)
        case EventFrame(event) =>
          if Continues(cursor, event) || event.sequence <= cursor.value then None else Some(ProtocolFailure)
  }

  /** Why a connection ends at a choice. */
  function Ending(cursor: Option<u64>, choice: Choice): Option<TransportFailure> {
    match choice
    case SocketReady(None) => Some(ServerUnavailable)
    case SocketReady(Some(message)) => FailureOf(cursor, message)
    case _ => None
  }

  /** Whether the connection ends at a choice, and how. */
  function Leaving(l: Link, choice: Choice): Exit {
    if Ending(l.cursor, choice).Some? then ConnectionFailed(Ending(l.cursor, choice).value)
    else if !choice.CommandReady? then ScriptEnded
    else if l.channel != [] then if l.channel[0] == Shutdown then StoppedByCommand else ScriptEnded
    else if !l.open then ChannelClosed
    else ScriptEnded
  }

  /** A connection ends at a message it does not survive, at the end of the socket, at a shutdown, and at a
      channel that is empty and closed; at nothing else. */
  lemma WhatEndsAConnection(l: Link, choice: Choice)
    ensures Leaving(l, choice) == match choice
              case SocketReady(None) => ConnectionFailed(ServerUnavailable)
              case SocketReady(Some(message)) =>
                if FailureOf(l.cursor, message).Some? then ConnectionFailed(FailureOf(l.cursor, message).value)
                else ScriptEnded
              case CommandReady =>
                if l.channel == [] then if l.open then ScriptEnded else ChannelClosed
                else if l.channel[0] == Shutdown then StoppedByCommand
                else ScriptEnded
              case UserSends(_) => ScriptEnded
              case UserCloses => ScriptEnded
  {
  }

  /** What the receiver is told of a message. */
  function Told(cursor: Option<u64>, message: SocketMessage): Option<DesktopEvent> {
    if !Spoken(message) then None
    else match message.body
      case SnapshotFrame(boundary) => Some(Snapshot(boundary))
      case EventFrame(event) => if Continues(cursor, event) then Some(Server(event)) else None
      case _ => None
  }

  function CursorNext(cursor: Option<u64>, message: SocketMessage): Option<u64> {
    match Told(cursor, message)
    case Some(Snapshot(boundary)) => Some(boundary)
    case Some(Server(event)) => Some(event.sequence)
    case _ => cursor
  }

  function CursorAfter(cursor: Option<u64>, messages: seq<SocketMessage>): Option<u64> {
    if messages == [] then cursor
    else CursorNext(CursorAfter(cursor, messages[..|messages| - 1]), messages[|messages| - 1])
  }

  function ToldOfAll(cursor: Option<u64>, messages: seq<SocketMessage>): seq<DesktopEvent> {
    if messages == [] then []
    else
      var earlier := messages[..|messages| - 1];
      ToldOfAll(cursor, earlier) + AsSeq(Told(CursorAfter(cursor, earlier), messages[|messages| - 1]))
  }

  function AsSeq(event: Option<DesktopEvent>): seq<DesktopEvent> {
    match event case Some(e) => [e] case None => []
  }

  /** The server's part of what the receiver was told. */
  function Relayed(events: seq<DesktopEvent>): seq<DesktopEvent> {
    if events == [] then []
    else
      var last := events[|events| - 1];
      Relayed(events[..|events| - 1]) + if last.Server? || last.Snapshot? then [last] else []
  }

  lemma RelayedOne(events: seq<DesktopEvent>, e: DesktopEvent)
    ensures Relayed(events + [e]) == Relayed(events) + if e.Server? || e.Snapshot? then [e] else []
  {
    assert (events + [e])[..|events|] == events;
  }

  /** The messages heard in one round, and in all. */
  function HeardIn(round: Round, survived: nat): seq<SocketMessage> {
    if round.refused.Some? || |round.choices| < survived then [] else Messages(round.choices[..survived])
  }

  function Heard(rounds: seq<Round>, survived: seq<nat>): seq<SocketMessage>
    requires |survived| <= |rounds|
  {
    if survived == [] then []
    else
      var last := |survived| - 1;
      Heard(rounds, survived[..last]) + HeardIn(rounds[last], survived[last])
  }

  lemma NothingHeard(rounds: seq<Round>)
    ensures Heard(rounds, []) == []
  {
  }

  lemma HeardOn(cursor: Option<u64>, rounds: seq<Round>, survived: seq<nat>, last: nat)
    requires |survived| < |rounds|
    ensures var more := HeardIn(rounds[|survived|], last);
            var heard := Heard(rounds, survived);
            && CursorAfter(cursor, Heard(rounds, survived + [last])) == CursorAfter(CursorAfter(cursor, heard), more)
            && ToldOfAll(cursor, Heard(rounds, survived + [last]))
               == ToldOfAll(cursor, heard) + ToldOfAll(CursorAfter(cursor, heard), more)
  {
    assert (survived + [last])[..|survived|] == survived;
    hide HeardIn, CursorAfter, ToldOfAll;
    MoreMessages(cursor, Heard(rounds, survived), HeardIn(rounds[|survived|], last));
  }

  lemma NoMessages(cursor: Option<u64>)
    ensures CursorAfter(cursor, []) == cursor && ToldOfAll(cursor, []) == [] && Messages([]) == []
  {
  }

  lemma OneMessage(cursor: Option<u64>, messages: seq<SocketMessage>, message: SocketMessage)
    ensures var before := CursorAfter(cursor, messages);
            && CursorAfter(cursor, messages + [message]) == CursorNext(before, message)
            && ToldOfAll(cursor, messages + [message]) == ToldOfAll(cursor, messages) + AsSeq(Told(before, message))
  {
    assert (messages + [message])[..|messages|] == messages;
  }

  /** Each message: whether it is survived, what the receiver is told, and the position afterwards. */
  lemma Reaction(cursor: Option<u64>, message: SocketMessage)
    ensures var failure, told, after :=
              FailureOf(cursor, message), AsSeq(Told(cursor, message)), CursorNext(cursor, message);
            match message
            case SocketError(error) => failure == Some(error)
            case NotText => failure == None && told == [] && after == cursor
            case Undecodable => failure == Some(ProtocolFailure)
            case Frame(version, body) =>
              if version < MIN_COMPATIBLE_PROTOCOL_VERSION || PROTOCOL_VERSION < version then
                failure == Some(VersionMismatch)
              else match body
                case HelloFrame(minimum, maximum) =>
                  && told == [] && after == cursor
                  && failure == if PROTOCOL_VERSION < minimum || maximum < MIN_COMPATIBLE_PROTOCOL_VERSION
                                then Some(VersionMismatch) else None
                case SnapshotFrame(boundary) =>
                  failure == None && told == [Snapshot(boundary)] && after == Some(boundary)
                case PingFrame(pongSent) =>
                  && told == [] && after == cursor
                  && failure == if pongSent then None else Some(ServerUnavailable)
                case EventFrame(event) =>
                  if cursor.None? || event.sequence == cursor.value + 1 then
                    failure == None && told == [Server(event)] && after == Some(event.sequence)
                  else
                    && told == [] && after == cursor
                    && failure == if event.sequence <= cursor.value then None else Some(ProtocolFailure)
  {
  }

  lemma {:induction false} MoreMessages(cursor: Option<u64>, a: seq<SocketMessage>, b: seq<SocketMessage>)
    ensures CursorAfter(cursor, a + b) == CursorAfter(CursorAfter(cursor, a), b)
    ensures ToldOfAll(cursor, a + b) == ToldOfAll(cursor, a) + ToldOfAll(CursorAfter(cursor, a), b)
  {
    if b == [] {
      assert a + b == a;
    } else {
      var shorter, last := b[..|b| - 1], b[|b| - 1];
      MoreMessages(cursor, a, shorter);
      JoinLast(a, shorter, last, b);
      OneMessage(cursor, a + shorter, last);
      OneMessage(CursorAfter(cursor, a), shorter, last);
      hide CursorAfter, ToldOfAll, CursorNext, Told, AsSeq;
      Regrouped(ToldOfAll(cursor, a), ToldOfAll(CursorAfter(cursor, a), shorter),
                AsSeq(Told(CursorAfter(cursor, a + shorter), last)));
    }
  }

  lemma JoinLast<T>(a: seq<T>, shorter: seq<T>, last: T, b: seq<T>)
    requires b != [] && shorter == b[..|b| - 1] && last == b[|b| - 1]
    ensures b == shorter + [last] && a + b == (a + shorter) + [last]
  {
  }

  lemma Regrouped<T>(x: seq<T>, y: seq<T>, z: seq<T>)
    ensures (x + y) + z == x + (y + z)
  {
  }

  /** What one connection changes, step by step: the position, what was forwarded and executed, and the
      commands that wait. */
  datatype Link = Link(cursor: Option<u64>, relayed: seq<DesktopEvent>, ran: seq<Command>,
                       channel: seq<Command>, open: bool)

  function LinkStep(l: Link, choice: Choice): Link {
    match choice
    case UserSends(command) => if l.open then l.(channel := l.channel + [command]) else l
    case UserCloses => l.(open := false)
    case CommandReady =>
      if l.channel == [] then l else l.(channel := l.channel[1..], ran := l.ran + [l.channel[0]])
    case SocketReady(None) => l
    case SocketReady(Some(message)) =>
      l.(cursor := CursorNext(l.cursor, message), relayed := l.relayed + AsSeq(Told(l.cursor, message)))
  }

  function LinkAfter(l: Link, choices: seq<Choice>): Link {
    if choices == [] then l else LinkStep(LinkAfter(l, choices[..|choices| - 1]), choices[|choices| - 1])
  }

  lemma LinkOn(l: Link, choices: seq<Choice>, i: nat)
    requires i < |choices|
    ensures LinkAfter(l, choices[..i + 1]) == LinkStep(LinkAfter(l, choices[..i]), choices[i])
  {
    assert choices[..i + 1][..i] == choices[..i];
  }

  lemma {:induction false} LinkHears(l: Link, choices: seq<Choice>)
    ensures var r := LinkAfter(l, choices);
            && r.cursor == CursorAfter(l.cursor, Messages(choices))
            && r.relayed == l.relayed + ToldOfAll(l.cursor, Messages(choices))
  {
    if choices == [] {
      NoMessages(l.cursor);
    } else {
      var earlier, last := choices[..|choices| - 1], choices[|choices| - 1];
      LinkHears(l, earlier);
      OneChoice(LinkAfter(l, earlier), earlier, last, choices);
      LastStep(l, choices);
      hide *;
      if last.SocketReady? && last.message.Some? {
        HearsOne(l, LinkAfter(l, earlier), Messages(earlier), last.message.value);
      }
    }
  }

  lemma LastStep(l: Link, choices: seq<Choice>)
    requires choices != []
    ensures var n := |choices| - 1; LinkAfter(l, choices) == LinkStep(LinkAfter(l, choices[..n]), choices[n])
  {
  }

  /** Only a message changes the position and what is forwarded. */
  lemma OneChoice(before: Link, earlier: seq<Choice>, last: Choice, choices: seq<Choice>)
    requires choices != [] && earlier == choices[..|choices| - 1] && last == choices[|choices| - 1]
    ensures last.SocketReady? && last.message.Some? ==> Messages(choices) == Messages(earlier) + [last.message.value]
    ensures !(last.SocketReady? && last.message.Some?) ==>
              && Messages(choices) == Messages(earlier)
              && LinkStep(before, last).cursor == before.cursor && LinkStep(before, last).relayed == before.relayed
  {
  }

  lemma HearsOne(l: Link, before: Link, messages: seq<SocketMessage>, message: SocketMessage)
    requires before.cursor == CursorAfter(l.cursor, messages)
    requires before.relayed == l.relayed + ToldOfAll(l.cursor, messages)
    ensures var r := LinkStep(before, SocketReady(Some(message)));
            && r.cursor == CursorAfter(l.cursor, messages + [message])
            && r.relayed == l.relayed + ToldOfAll(l.cursor, messages + [message])
  {
    OneMessage(l.cursor, messages, message);
    hide CursorAfter, ToldOfAll, CursorNext, Told, AsSeq;
    Regrouped(l.relayed, ToldOfAll(l.cursor, messages), AsSeq(Told(before.cursor, message)));
  }

  lemma {:induction false} LinkTakes(l: Link, choices: seq<Choice>)
    ensures var r, q := LinkAfter(l, choices), QueueAfter(Queue(l.channel, l.open, []), choices);
            r.ran == l.ran + q.taken && r.channel == q.waiting && r.open == q.open
  {
    if choices != [] {
      LinkTakes(l, choices[..|choices| - 1]);
      var q := QueueAfter(Queue(l.channel, l.open, []), choices[..|choices| - 1]);
      if q.waiting != [] {
        Regrouped(l.ran, q.taken, [q.waiting[0]]);
      }
    }
  }

  lemma FewSnapshots(events: seq<DesktopEvent>, choice: Choice)
    ensures choice.SocketReady? && choice.message.Some? ==>
              (HasSnapshot([choice]) <==> SnapshotIn(choice.message.value))
    ensures Grown(events, events, HasSnapshot([choice]))
  {
    assert choice in [choice];
  }

  lemma MoreSnapshots(before: seq<DesktopEvent>, after: seq<DesktopEvent>, choice: Choice)
    requires Grown(before, after, false)
    ensures Grown(before, after, HasSnapshot([choice]))
  {
  }

  lemma OneHonest(log: seq<ServerEvent>, choices: seq<Choice>, i: nat)
    requires i < |choices| && HonestChoices(log, choices)
    ensures HonestChoices(log, [choices[i]])
    ensures HasSnapshot([choices[i]]) ==> HasSnapshot(choices)
  {
    assert choices[i] in choices;
  }

  /** The user's commands while connected: those that wait, whether more can come, and those taken. */
  datatype Queue = Queue(waiting: seq<Command>, open: bool, taken: seq<Command>)

  function QueueStep(q: Queue, choice: Choice): Queue {
    match choice
    case UserSends(command) => if q.open then q.(waiting := q.waiting + [command]) else q
    case UserCloses => q.(open := false)
    case CommandReady =>
      if q.waiting == [] then q else q.(waiting := q.waiting[1..], taken := q.taken + [q.waiting[0]])
    case SocketReady(_) => q
  }

  function QueueAfter(q: Queue, choices: seq<Choice>): Queue {
    if choices == [] then q else QueueStep(QueueAfter(q, choices[..|choices| - 1]), choices[|choices| - 1])
  }

  lemma NothingTaken(q: Queue)
    ensures QueueAfter(q, []) == q
  {
  }

  function Sends(choices: seq<Choice>): seq<Command> {
    if choices == [] then []
    else
      var last := choices[|choices| - 1];
      Sends(choices[..|choices| - 1]) + if last.UserSends? then [last.command] else []
  }

  /** What is taken and what waits is what waited and what was sent; a command that waits is taken at
      each turn, the first one. */
  lemma {:induction false} QueueKeeps(q: Queue, choices: seq<Choice>)
    requires q.open && q.taken == [] && UserCloses !in choices
    ensures var r := QueueAfter(q, choices);
            && r.open && r.taken + r.waiting == q.waiting + Sends(choices)
            && (choices != [] && choices[|choices| - 1].CommandReady? ==>
                  var before := QueueAfter(q, choices[..|choices| - 1]);
                  r.taken == before.taken + if before.waiting == [] then [] else [before.waiting[0]])
            && (choices != [] && !choices[|choices| - 1].CommandReady? ==>
                  r.taken == QueueAfter(q, choices[..|choices| - 1]).taken)
  {
    if choices != [] {
      var before := QueueAfter(q, choices[..|choices| - 1]);
      QueueKeeps(q, choices[..|choices| - 1]);
      assert choices[|choices| - 1] in choices;
      if before.waiting != [] {
        assert before.taken + before.waiting == (before.taken + [before.waiting[0]]) + before.waiting[1..];
      }
      if choices[|choices| - 1].UserSends? {
        var command := choices[|choices| - 1].command;
        assert before.taken + (before.waiting + [command]) == (before.taken + before.waiting) + [command];
      }
    }
  }

  lemma TakeCommand(executed: seq<Command>, pending: seq<Command>, channel: seq<Command>)
    requires channel != []
    ensures executed + pending + channel == executed + pending + [channel[0]] + channel[1..]
    ensures executed + pending + channel == executed + (pending + [channel[0]]) + channel[1..]
  {
  }

  class Runtime {
    var cursor: Option<u64>
    var pendingCommands: seq<Command>
    var channel: seq<Command>
    var channelOpen: bool
    var events: seq<DesktopEvent>
    var executed: seq<Command>
    // Whether the server carries out the commands executed, in turn.
    const serves: nat -> bool
    ghost var sent: seq<Command>

    /** Executed, pending and unread commands are the commands sent, in the order they were sent. */
    ghost predicate Conserved()
      reads this`executed, this`pendingCommands, this`channel, this`sent
    {
      executed + pendingCommands + channel == sent
    }

    constructor (serves: nat -> bool)
      ensures cursor == None && pendingCommands == [] && channel == [] && channelOpen
      ensures events == [] && executed == [] && sent == [] && this.serves == serves
    {
      this.serves := serves;
      cursor, pendingCommands, channel, channelOpen := None, [], [], true;
      events, executed, sent := [], [], [];
    }

    method Send(command: Command)
      modifies this`channel, this`sent
      ensures channel == old(channel) + (if channelOpen then [command] else [])
      ensures sent == old(sent) + (if channelOpen then [command] else [])
    {
      if channelOpen {
        channel := channel + [command];
        sent := sent + [command];
      }
    }

    /** One message of the socket. An event frame is forwarded exactly when it is the next one, or
        the first one of a connection that had no snapshot; an earlier one is dropped and a later
        one ends the connection. */
    method HandleSocket(message: SocketMessage, ghost log: seq<ServerEvent>) returns (r: Result<(), TransportFailure>)
      requires InStep(log, events, cursor) && Honest(log, message)
      modifies this`cursor, this`events
      ensures InStep(log, events, cursor)
      ensures Grown(old(events), events, SnapshotIn(message))
      ensures r.Err? || message.NotText? ==> cursor == old(cursor) && events == old(events)
      ensures message.NotText? ==> r.Ok?
      ensures message.SocketError? ==> r == Err(message.failure)
      ensures message.Undecodable? ==> r == Err(ProtocolFailure)
      ensures message.Frame? && !(MIN_COMPATIBLE_PROTOCOL_VERSION <= message.version <= PROTOCOL_VERSION) ==>
                r == Err(VersionMismatch)
      ensures message.Frame? && MIN_COMPATIBLE_PROTOCOL_VERSION <= message.version <= PROTOCOL_VERSION ==>
                match message.body {
                  case EventFrame(e) =>
                    if old(cursor) == None || e.sequence == old(cursor).value + 1 then
                      r.Ok? && cursor == Some(e.sequence) && events == old(events) + [Server(e)]
                    else
                      && cursor == old(cursor) && events == old(events)
                      && r == if e.sequence <= old(cursor).value then Ok(()) else Err(ProtocolFailure)
                  case SnapshotFrame(b) => r.Ok? && cursor == Some(b) && events == old(events) + [Snapshot(b)]
                  case HelloFrame(minimum, maximum) =>
                    && cursor == old(cursor) && events == old(events)
                    && r == if minimum <= PROTOCOL_VERSION && MIN_COMPATIBLE_PROTOCOL_VERSION <= maximum
                            then Ok(()) else Err(VersionMismatch)
                  case PingFrame(pongSent) =>
                    && cursor == old(cursor) && events == old(events)
                    && r == if pongSent then Ok(()) else Err(ServerUnavailable)
                }
    {
      if message.SocketError? {
        return Err(message.failure);
      }
      if message.NotText? {
        return Ok(());
      }
      if message.Undecodable? {
        return Err(ProtocolFailure);
      }
      if message.version < MIN_COMPATIBLE_PROTOCOL_VERSION || message.version > PROTOCOL_VERSION {
        return Err(VersionMismatch);
      }
      hide InStep, ForwardedSince, LastSnapshot;
      match message.body {
        case HelloFrame(minimum, maximum) =>
          if minimum > PROTOCOL_VERSION || maximum < MIN_COMPATIBLE_PROTOCOL_VERSION {
            return Err(VersionMismatch);
          }
        case SnapshotFrame(boundary) =>
          SnapshotKeepsStep(log, events, boundary);
          cursor := Some(boundary);
          events := events + [Snapshot(boundary)];
        case PingFrame(pongSent) =>
          if !pongSent {
            return Err(ServerUnavailable);
          }
        case EventFrame(event) =>
          if cursor.Some? && event.sequence <= cursor.value {
            return Ok(());
          }
          if cursor.Some? && event.sequence != SaturateU64(cursor.value + 1) {
            return Err(ProtocolFailure);
          }
          NextKeepsStep(log, events, event, cursor);
          cursor := Some(event.sequence);
          events := events + [Server(event)];
      }
      return Ok(());
    }

    /** A command that fails is reported. */
    method Execute(command: Command, ghost log: seq<ServerEvent>)
      requires InStep(log, events, cursor)
      modifies this`executed, this`events
      ensures executed == old(executed) + [command]
      ensures events == old(events) + if serves(|old(executed)|) then [] else [MutationFailed]
      ensures InStep(log, events, cursor) && Grown(old(events), events, false)
      ensures Relayed(events) == Relayed(old(events))
    {
      hide InStep;
      var served := serves(|executed|);
      executed := executed + [command];
      if !served {
        NoticeKeepsStep(log, events, MutationFailed, cursor);
        RelayedOne(events, MutationFailed);
        events := events + [MutationFailed];
      }
    }

    /** Commands left over from a disconnected period run before anything else is looked at. */
    method DrainPending(ghost log: seq<ServerEvent>)
      requires Conserved() && InStep(log, events, cursor)
      modifies this`pendingCommands, this`executed, this`events
      ensures pendingCommands == [] && executed == old(executed + pendingCommands)
      ensures Conserved() && InStep(log, events, cursor) && Grown(old(events), events, false)
      ensures Relayed(events) == Relayed(old(events))
      ensures old(pendingCommands) == [] ==> events == old(events)
    {
      hide InStep, Relayed;
      while pendingCommands != []
        invariant executed + pendingCommands == old(executed + pendingCommands)
        invariant InStep(log, events, cursor) && Grown(old(events), events, false)
        invariant Relayed(events) == Relayed(old(events))
        invariant old(pendingCommands) == [] ==> pendingCommands == [] && events == old(events)
        decreases |pendingCommands|
      {
        var command := pendingCommands[0];
        pendingCommands := pendingCommands[1..];
        Execute(command, log);
      }
      assert executed == old(executed + pendingCommands);
    }

    /** The state of the command queue when a loop returns: nothing is lost or reordered, and only a
        shutdown command or a closed channel leaves commands unexecuted. */
    ghost predicate Accounted(exit: Exit)
      reads this`executed, this`pendingCommands, this`channel, this`channelOpen, this`sent
    {
      match exit
      case StoppedByCommand => executed + pendingCommands + [Shutdown] + channel == sent
      case ChannelClosed => Conserved() && channel == [] && !channelOpen
      case _ => Conserved()
    }

    ghost function AsLink(): Link
      reads this`cursor, this`events, this`executed, this`channel, this`channelOpen
    {
      Link(cursor, Relayed(events), executed, channel, channelOpen)
    }

    /** One choice of the connected loop: a message, or the next command. */
    method Choose(choice: Choice, ghost log: seq<ServerEvent>) returns (exit: Exit)
      requires Conserved() && InStep(log, events, cursor) && HonestChoices(log, [choice]) && pendingCommands == []
      modifies this`cursor, this`channel, this`channelOpen, this`events, this`executed, this`sent
      ensures Accounted(exit) && (exit == ScriptEnded ==> Conserved())
      ensures InStep(log, events, cursor) && Grown(old(events), events, HasSnapshot([choice]))
      ensures exit == Leaving(old(AsLink()), choice)
      ensures if exit == ScriptEnded then AsLink() == LinkStep(old(AsLink()), choice)
              else AsLink() == if exit == StoppedByCommand then old(AsLink()).(channel := channel) else old(AsLink())
      ensures exit == StoppedByCommand ==> old(channel) != [] && channel == old(channel)[1..]
    {
      FewSnapshots(events, choice);
      hide InStep, Relayed, HasSnapshot, Grown;
      if choice.SocketReady? {
        if choice.message.None? {
          return ConnectionFailed(ServerUnavailable);
        }
        assert [choice][0].SocketReady?;
        exit := Take(choice.message.value, log);
      } else {
        exit := Attend(choice, log);
        MoreSnapshots(old(events), events, choice);
      }
    }

    /** The user acts, or the next command is taken. */
    method Attend(choice: Choice, ghost log: seq<ServerEvent>) returns (exit: Exit)
      requires Conserved() && InStep(log, events, cursor) && !choice.SocketReady? && pendingCommands == []
      modifies this`channel, this`channelOpen, this`events, this`executed, this`sent
      ensures Accounted(exit) && InStep(log, events, cursor) && Grown(old(events), events, false)
      ensures Relayed(events) == Relayed(old(events)) && exit == Leaving(old(AsLink()), choice)
      ensures exit == ScriptEnded ==> AsLink() == LinkStep(old(AsLink()), choice)
      ensures exit != ScriptEnded ==> executed == old(executed) && channelOpen == old(channelOpen)
      ensures exit == StoppedByCommand ==> old(channel) != [] && channel == old(channel)[1..]
      ensures exit == ChannelClosed ==> channel == old(channel)
    {
      hide InStep, Relayed;
      exit := ScriptEnded;
      match choice {
        case UserSends(command) =>
          Send(command);
        case UserCloses =>
          channelOpen := false;
        case CommandReady =>
          if channel != [] {
            var command := channel[0];
            TakeCommand(executed, pendingCommands, channel);
            channel := channel[1..];
            if command == Shutdown {
              return StoppedByCommand;
            }
            Execute(command, log);
          } else if !channelOpen {
            return ChannelClosed;
          }
      }
    }

    method Take(message: SocketMessage, ghost log: seq<ServerEvent>) returns (exit: Exit)
      requires InStep(log, events, cursor) && Honest(log, message)
      modifies this`cursor, this`events
      ensures InStep(log, events, cursor) && Grown(old(events), events, SnapshotIn(message))
      ensures exit == match FailureOf(old(cursor), message)
                      case Some(failure) => ConnectionFailed(failure) case None => ScriptEnded
      ensures if exit == ScriptEnded then
                && cursor == CursorNext(old(cursor), message)
                && Relayed(events) == Relayed(old(events)) + AsSeq(Told(old(cursor), message))
              else cursor == old(cursor) && events == old(events)
    {
      Reaction(cursor, message);
      RelayedOne(events, if message.Frame? && message.body.SnapshotFrame? then Snapshot(message.body.boundary)
                         else if message.Frame? && message.body.EventFrame? then Server(message.body.event)
                         else Connecting);
      hide InStep, Relayed, FailureOf, Told, CursorNext;
      var handled := HandleSocket(message, log);
      exit := match handled case Ok(_) => ScriptEnded case Err(failure) => ConnectionFailed(failure);
    }

    /** The loop of one connection. The choices before `survived` are handled; then the script is over, the
        user has shut the runtime down or closed the channel, or a message or the end of the socket ends
        the connection. Messages and commands are handled in order, each as it is. */
    method ConnectedLoop(choices: seq<Choice>, ghost log: seq<ServerEvent>) returns (exit: Exit, survived: nat)
      requires Conserved() && InStep(log, events, cursor) && HonestChoices(log, choices)
      modifies this
      ensures Accounted(exit) && pendingCommands == [] && InStep(log, events, cursor)
      ensures Grown(old(events), events, HasSnapshot(choices))
      ensures survived <= |choices| && (survived == |choices| <==> exit == ScriptEnded)
      // What was forwarded, and the position in the log, are what the messages say; the first that
      // cannot be survived, or the end of the socket, ends the connection.
      ensures Relayed(events) == Relayed(old(events)) + ToldOfAll(old(cursor), Messages(choices[..survived]))
      ensures cursor == CursorAfter(old(cursor), Messages(choices[..survived]))
      ensures forall i | 0 <= i < survived ::
                Ending(CursorAfter(old(cursor), Messages(choices[..i])), choices[i]).None?
      ensures exit.ConnectionFailed? <==> survived < |choices| && Ending(cursor, choices[survived]).Some?
      ensures exit.ConnectionFailed? ==> exit.failure == Ending(cursor, choices[survived]).value
      ensures SocketReady(None) !in choices[..survived]
      ensures survived < |choices| && choices[survived] == SocketReady(None) ==>
                exit == ConnectionFailed(ServerUnavailable)
      // The commands that wait are taken one at a turn and executed, up to a shutdown.
      ensures var q := QueueAfter(Queue(old(channel), old(channelOpen), []), choices[..survived]);
              && executed == old(executed + pendingCommands) + q.taken && channelOpen == q.open
              && channel == (if exit.StoppedByCommand? && q.waiting != [] then q.waiting[1..] else q.waiting)
              && Shutdown !in q.taken
              && (exit.StoppedByCommand? <==>
                    && survived < |choices| && choices[survived].CommandReady?
                    && q.waiting != [] && q.waiting[0] == Shutdown)
              && (exit.ChannelClosed? <==>
                    survived < |choices| && choices[survived].CommandReady? && q.waiting == [] && !q.open)
    {
      ghost var start := AsLink().(ran := executed + pendingCommands);
      hide Stays, LinkAfter, CursorAfter, ToldOfAll, Messages, QueueAfter, FailureOf, InStep, Grown, HasSnapshot,
           HonestChoices, Relayed, Runtime.Conserved, Runtime.Accounted;
      exit, survived := TakeTurns(choices, log);
      WhereItStands(start, choices, survived);
    }

    /** One turn after the other: first the commands left over, then one choice. */
    method TakeTurns(choices: seq<Choice>, ghost log: seq<ServerEvent>) returns (exit: Exit, survived: nat)
      requires Conserved() && InStep(log, events, cursor) && HonestChoices(log, choices)
      modifies this
      ensures Accounted(exit) && pendingCommands == [] && InStep(log, events, cursor)
      ensures Grown(old(events), events, HasSnapshot(choices))
      ensures var start := old(AsLink().(ran := executed + pendingCommands));
              && Stays(start, choices, survived) && survived <= |choices|
              && var l := LinkAfter(start, choices[..survived]);
                 && exit == (if survived == |choices| then ScriptEnded else Leaving(l, choices[survived]))
                 && (survived < |choices| ==> exit != ScriptEnded)
                 && AsLink() == (if exit == StoppedByCommand then l.(channel := channel) else l)
                 && (exit == StoppedByCommand ==> l.channel != [] && channel == l.channel[1..])
    {
      survived := 0;
      ghost var start := AsLink().(ran := executed + pendingCommands);
      hide Stays, LinkAfter, LinkStep, Leaving, InStep, Grown, HasSnapshot, HonestChoices, Relayed,
           Runtime.Conserved, Runtime.Accounted;
      Begun(start, choices);
      GrownItself(events, HasSnapshot(choices));
      while true
        invariant 0 <= survived <= |choices|
        invariant Conserved() && InStep(log, events, cursor)
        invariant survived > 0 ==> pendingCommands == []
        invariant Grown(old(events), events, HasSnapshot(choices))
        invariant AsLink().(ran := executed + pendingCommands) == LinkAfter(start, choices[..survived])
        invariant Stays(start, choices, survived)
        decreases |choices| - survived
      {
        ghost var before := events;
        DrainPending(log);
        assert AsLink() == LinkAfter(start, choices[..survived]);
        GrownFurther(old(events), before, events, HasSnapshot(choices));
        if survived == |choices| {
          EndOfScript(this);
          return ScriptEnded, survived;
        }
        before := events;
        OneHonest(log, choices, survived);
        exit := Choose(choices[survived], log);
        GrownFurther(old(events), before, events, HasSnapshot(choices));
        if exit != ScriptEnded {
          return;
        }
        assert executed + [] == executed;
        OneMore(start, choices, survived);
        survived := survived + 1;
      }
    }

    method Notify(event: DesktopEvent, ghost log: seq<ServerEvent>)
      requires InStep(log, events, cursor) && !event.Snapshot? && !event.Server?
      modifies this`events
      ensures events == old(events) + [event] && InStep(log, events, cursor) && Grown(old(events), events, false)
      ensures Relayed(events) == Relayed(old(events))
    {
      NoticeKeepsStep(log, events, event, cursor);
      RelayedOne(events, event);
      events := events + [event];
    }

    /** The user goes on sending. */
    method SendAll(commands: seq<Command>)
      requires Conserved()
      modifies this`channel, this`sent
      ensures Conserved()
      ensures channel == old(channel) + if channelOpen then commands else []
    {
      for i := 0 to |commands|
        invariant Conserved()
        invariant channel == old(channel) + if channelOpen then commands[..i] else []
      {
        assert commands[..i + 1] == commands[..i] + [commands[i]];
        Send(commands[i]);
      }
      assert commands[..|commands|] == commands;
    }

    /** The pause before a reconnect: the user may go on sending and may close the channel, and one
        command may be taken; it is kept for the next connection unless it is the shutdown. */
    method Pause(round: Round) returns (exit: Exit)
      requires Conserved()
      modifies this`pendingCommands, this`channel, this`channelOpen, this`sent
      ensures Accounted(exit)
      ensures channelOpen == (old(channelOpen) && !round.idleCloses)
      ensures var queue := old(channel) + if old(channelOpen) then round.idle else [];
              var taken := round.commandWakes && queue != [];
              && channel == (if taken then queue[1..] else queue)
              && pendingCommands == old(pendingCommands) + (if taken && queue[0] != Shutdown then [queue[0]] else [])
              && exit == if taken && queue[0] == Shutdown then StoppedByCommand
                         else if round.commandWakes && queue == [] && !channelOpen then ChannelClosed
                         else ScriptEnded
    {
      SendAll(round.idle);
      if round.idleCloses {
        channelOpen := false;
      }
      if round.commandWakes {
        if channel != [] {
          var command := channel[0];
          TakeCommand(executed, pendingCommands, channel);
          channel := channel[1..];
          if command == Shutdown {
            return StoppedByCommand;
          }
          pendingCommands := pendingCommands + [command];
        } else if !channelOpen {
          return ChannelClosed;
        }
      }
      return ScriptEnded;
    }

    /** One connection attempt and what follows it, up to the next one. */
    method RunRound(round: Round, ghost log: seq<ServerEvent>) returns (done: bool, exit: Exit, survived: nat)
      requires Conserved() && InStep(log, events, cursor) && HonestChoices(log, round.choices)
      modifies this
      ensures if done then Accounted(exit) && !exit.ConnectionFailed? else Conserved()
      ensures done && exit == ScriptEnded ==> round.refused.None? && survived == |round.choices|
      ensures InStep(log, events, cursor) && Grown(old(events), events, HasSnapshot(round.choices))
      ensures Relayed(events) == Relayed(old(events)) + ToldOfAll(old(cursor), HeardIn(round, survived))
      ensures cursor == CursorAfter(old(cursor), HeardIn(round, survived))
      ensures round.refused.Some? ==> events == old(events) + [Connecting, Disconnected(round.refused.value)]
      ensures round.refused.None? ==>
                && old(events) + [Connecting, Connected] <= events && survived <= |round.choices|
                && (!done ==>
                      && survived < |round.choices| && Ending(cursor, round.choices[survived]).Some?
                      && events[|events| - 1] == Disconnected(Ending(cursor, round.choices[survived]).value))
    {
      hide InStep, Relayed, CursorAfter, ToldOfAll, Messages, Ending, Conserved;
      Notify(Connecting, log);
      NoMessages(cursor);
      survived := 0;
      var failure := ServerUnavailable;
      if round.refused.Some? {
        failure := round.refused.value;
      } else {
        Notify(Connected, log);
        ghost var before := events;
        exit, survived := ConnectedLoop(round.choices, log);
        GrownFurther(old(events), before, events, HasSnapshot(round.choices));
        if !exit.ConnectionFailed? {
          return true, exit, survived;
        }
        failure := exit.failure;
      }
      ghost var before := events;
      Notify(Disconnected(failure), log);
      GrownFurther(old(events), before, events, HasSnapshot(round.choices));
      exit := Pause(round);
      done := exit != ScriptEnded;
    }

    /** The whole runtime. Across any pattern of connects, failures and reconnects the executed
        commands are a prefix of the commands sent, what is not executed is still queued in order,
        and the forwarded events are what the messages heard say, in step with the log. */
    method Run(rounds: seq<Round>, ghost log: seq<ServerEvent>) returns (exit: Exit, survived: seq<nat>)
      requires Conserved() && InStep(log, events, cursor)
      requires forall i | 0 <= i < |rounds| :: HonestChoices(log, rounds[i].choices)
      modifies this
      ensures !exit.ConnectionFailed?
      ensures Accounted(exit) && executed <= sent
      ensures InStep(log, events, cursor)
      ensures Grown(old(events), events, AnySnapshot(rounds))
      ensures |survived| <= |rounds|
      ensures exit == ScriptEnded && |survived| < |rounds| ==>
                && survived != [] && rounds[|survived| - 1].refused.None?
                && survived[|survived| - 1] == |rounds[|survived| - 1].choices|
      ensures Relayed(events) == Relayed(old(events)) + ToldOfAll(old(cursor), Heard(rounds, survived))
      ensures cursor == CursorAfter(old(cursor), Heard(rounds, survived))
    {
      hide InStep, Relayed, CursorAfter, ToldOfAll, Messages, Ending, Conserved, Grown, HeardIn, Heard;
      survived := [];
      NoMessages(cursor);
      NothingHeard(rounds);
      GrownItself(events, AnySnapshot(rounds));
      for i := 0 to |rounds|
        invariant Conserved() && InStep(log, events, cursor) && Grown(old(events), events, AnySnapshot(rounds))
        invariant |survived| == i
        invariant Relayed(events) == Relayed(old(events)) + ToldOfAll(old(cursor), Heard(rounds, survived))
        invariant cursor == CursorAfter(old(cursor), Heard(rounds, survived))
      {
        assert rounds[i] in rounds;
        ghost var before := events;
        var done, last;
        done, exit, last := RunRound(rounds[i], log);
        GrownFurther(old(events), before, events, AnySnapshot(rounds));
        HeardOn(old(cursor), rounds, survived, last);
        survived := survived + [last];
        if done {
          ExecutedFirst(this, exit);
          return;
        }
      }
      ExecutedFirst(this, ScriptEnded);
      return ScriptEnded, survived;
    }
  }

  /** None of the first choices ends the connection. */
  predicate Stays(start: Link, choices: seq<Choice>, n: nat) {
    n <= |choices| && forall k | 0 <= k < n :: Leaving(LinkAfter(start, choices[..k]), choices[k]) == ScriptEnded
  }

  lemma EndOfScript(runtime: Runtime)
    requires runtime.Conserved()
    ensures runtime.Accounted(ScriptEnded)
  {
  }

  lemma Begun(start: Link, choices: seq<Choice>)
    ensures Stays(start, choices, 0) && LinkAfter(start, choices[..0]) == start
  {
  }

  lemma OneMore(start: Link, choices: seq<Choice>, n: nat)
    requires Stays(start, choices, n) && n < |choices|
    requires Leaving(LinkAfter(start, choices[..n]), choices[n]) == ScriptEnded
    ensures Stays(start, choices, n + 1)
    ensures LinkAfter(start, choices[..n + 1]) == LinkStep(LinkAfter(start, choices[..n]), choices[n])
  {
    LinkOn(start, choices, n);
  }

  lemma {:induction false} NoShutdownTaken(start: Link, choices: seq<Choice>, n: nat)
    requires Stays(start, choices, n)
    ensures Shutdown !in QueueAfter(Queue(start.channel, start.open, []), choices[..n]).taken
    decreases n
  {
    if n > 0 {
      assert choices[..n][..n - 1] == choices[..n - 1];
      NoShutdownTaken(start, choices, n - 1);
      LinkTakes(start, choices[..n - 1]);
      assert Leaving(LinkAfter(start, choices[..n - 1]), choices[n - 1]) == ScriptEnded;
    }
  }

  /** Where a connection stands after choices that have not ended it, in terms of the messages and the
      commands among them. */
  lemma WhereItStands(start: Link, choices: seq<Choice>, n: nat)
    requires Stays(start, choices, n)
    ensures n <= |choices|
    ensures var l, heard := LinkAfter(start, choices[..n]), Messages(choices[..n]);
            && l.cursor == CursorAfter(start.cursor, heard)
            && l.relayed == start.relayed + ToldOfAll(start.cursor, heard)
    ensures var l, q := LinkAfter(start, choices[..n]), QueueAfter(Queue(start.channel, start.open, []), choices[..n]);
            && l.ran == start.ran + q.taken && l.channel == q.waiting && l.open == q.open && Shutdown !in q.taken
    ensures forall i | 0 <= i < n :: Ending(CursorAfter(start.cursor, Messages(choices[..i])), choices[i]).None?
    ensures SocketReady(None) !in choices[..n]
  {
    LinkHears(start, choices[..n]);
    LinkTakes(start, choices[..n]);
    NoShutdownTaken(start, choices, n);
    forall i | 0 <= i < n
      ensures Ending(CursorAfter(start.cursor, Messages(choices[..i])), choices[i]).None?
    {
      LinkHears(start, choices[..i]);
      assert Leaving(LinkAfter(start, choices[..i]), choices[i]) == ScriptEnded;
    }
  }

  /** What is executed is what was sent first. */
  lemma ExecutedFirst(runtime: Runtime, exit: Exit)
    requires runtime.Accounted(exit) || runtime.Conserved()
    ensures runtime.executed <= runtime.sent
    ensures runtime.Conserved() ==> runtime.Accounted(ScriptEnded)
  {
    var r := runtime;
    assert r.executed + r.pendingCommands + [Shutdown] + r.channel
        == r.executed + (r.pendingCommands + [Shutdown] + r.channel);
    assert r.executed + r.pendingCommands + r.channel == r.executed + (r.pendingCommands + r.channel);
  }

  // ---------------------------------------------------------------------------------------
  // End to end: a timeline behind the transport
  // ---------------------------------------------------------------------------------------

  function ReceiveAll<S>(p: Projection<S>, r: Replica<S>, events: seq<ServerEvent>): Replica<S>
    decreases |events|
  {
    if events == [] then r else ReceiveAll(p, Receive(p, r, events[0]).0, events[1..])
  }

  ghost predicate NoGap<S>(p: Projection<S>, r: Replica<S>, events: seq<ServerEvent>)
    decreases |events|
  {
    events == [] || (Receive(p, r, events[0]).1 != GapDetected && NoGap(p, Receive(p, r, events[0]).0, events[1..]))
  }

  lemma {:induction false} SliceIsRange<S(!new)>(p: Projection<S>, log: ServerLog<S>, r: Replica<S>, from: nat,
                                                 until: nat)
    requires from <= until <= |log.events|
    ensures ReceiveAll(p, r, log.events[from..until]) == DeliverRange(p, log, r, from, until)
    ensures NoGap(p, r, log.events[from..until]) == GapFree(p, log, r, from, until)
    decreases until - from
  {
    if from < until {
      assert log.events[from..until][1..] == log.events[from + 1..until];
      SliceIsRange(p, log, Receive(p, r, log.events[from]).0, from + 1, until);
    }
  }

  lemma {:induction false} ForwardedGrows(before: seq<DesktopEvent>, after: seq<DesktopEvent>)
    requires Grown(before, after, false)
    ensures ForwardedSince(before) <= ForwardedSince(after) && LastSnapshot(before) == LastSnapshot(after)
    decreases |after|
  {
    if |before| < |after| {
      ForwardedGrows(before, after[..|after| - 1]);
    } else {
      assert before == after;
    }
  }

  /** A timeline loaded at a boundary not below the last forwarded event sees no gap in anything the
      transport forwards until its next snapshot, over any number of reconnects, and shows the
      log's prefix up to the later of the boundary and the cursor. */
  lemma TimelineBehindTransport<S(!new)>(
    p: Projection<S>, log: ServerLog<S>, entity: Id, boundary: nat,
    before: seq<DesktopEvent>, cursorBefore: u64, after: seq<DesktopEvent>, cursorAfter: u64)
    requires ValidLog(p, log) && entity in log.genesis
    requires InStep(log.events, before, Some(cursorBefore)) && InStep(log.events, after, Some(cursorAfter))
    requires Grown(before, after, false)
    requires cursorBefore <= boundary <= |log.events|
    ensures ForwardedSince(before) <= ForwardedSince(after)
    ensures var r := Hydrated(StateAt(p, log, entity, boundary), boundary);
            var forwarded := ForwardedSince(after)[|ForwardedSince(before)|..];
            && NoGap(p, r, forwarded)
            && ReceiveAll(p, r, forwarded).cursor == (if boundary < cursorAfter then cursorAfter else boundary)
            && ReceiveAll(p, r, forwarded).view == StateAt(p, log, entity, ReceiveAll(p, r, forwarded).cursor)
  {
    ForwardedGrows(before, after);
    var old', new' := ForwardedSince(before), ForwardedSince(after);
    SamePosition(log.events, before, cursorBefore, after, cursorAfter);
    assert new'[|old'|..] == log.events[cursorBefore..cursorAfter];
    var r := Hydrated(StateAt(p, log, entity, boundary), boundary);
    HydratedStreamHasNoGap(p, log, entity, boundary, cursorBefore, cursorAfter);
    SliceIsRange(p, log, r, cursorBefore, cursorAfter);
  }

  /** Both traces count from the same position of the log. */
  lemma SamePosition(log: seq<ServerEvent>, before: seq<DesktopEvent>, cursorBefore: u64,
                     after: seq<DesktopEvent>, cursorAfter: u64)
    requires forall i | 0 <= i < |log| :: log[i].sequence == i + 1
    requires InStep(log, before, Some(cursorBefore)) && InStep(log, after, Some(cursorAfter))
    requires ForwardedSince(before) <= ForwardedSince(after) && LastSnapshot(before) == LastSnapshot(after)
    ensures cursorBefore - |ForwardedSince(before)| == cursorAfter - |ForwardedSince(after)|
  {
    var x, y := ForwardedSince(before), ForwardedSince(after);
    if x != [] {
      assert x[0] == y[0];
      assert x[0] == log[cursorBefore - |x|];
      assert y[0] == log[cursorAfter - |y|];
    }
  }
}
