/**
 Starting a Codex turn: the steps of the task that starts it, with other tasks in between, and what a
 start that fails leaves behind.
 */
module CodexStarts {
  import opened Wrappers
  import opened CodexTables
  import opened CodexRoutes
  import opened Codex

  /** What `turn/start` comes back with. */
  datatype TurnReply = WithTurn | WithoutTurn | Failure

  datatype Start = Running | AlreadyThere | NoReply | NoTurnId | RouteGone

  /** Steps of other tasks, which neither give the run up nor drop its receiver. */
  predicate Others(script: seq<Moment>, o: Operation, channel: nat) {
    o !in DroppedIn(script) && channel !in ClosedIn(script)
  }

  lemma AfterOthers(b: Board, d: Board, script: seq<Moment>, o: Operation, n: nat)
    requires Follows(b, d, DroppedIn(script), ClosedIn(script)) && Others(script, o, n) && n < |b.channels|
    ensures n < |d.channels| && (b.channels[n].open ==> d.channels[n].open)
    ensures Tracked(b, o, n) ==> Tracked(d, o, n)
    ensures n !in b.announcing ==> n !in d.announcing
    ensures !OnChannel(b, o, n) ==> !OnChannel(d, o, n)
  {
    if Tracked(b, o, n) {
      Track(b, d, DroppedIn(script), ClosedIn(script), o, n);
    }
  }

  /** `register_route`, with other tasks in between. */
  method Register(client: CodexClient, o: Operation, thread: Thread, first: seq<Moment>, second: seq<Moment>)
    requires client.Valid() && o !in client.routes
    requires Others(first, o, |client.channels|) && Others(second, o, |client.channels|)
    modifies client
    ensures client.Valid() && (client.alive ==> old(client.alive))
    ensures var n := |old(client.channels)|;
            && n < |client.channels|
            && (client.alive ==> client.channels[n].open)
            && (client.alive && Clear(old(client.Routing()), o) ==>
                  Tracked(client.Routing(), o, n) && n !in client.announcing)
  {
    hide Follows, Tracked, Clear, Inserted, Announced, Indexed, DroppedIn, ClosedIn, Others, OnChannel, BoardValid,
         RequestsValid, LedgerValid,
         CodexClient.Valid, CodexClient.RequestsOk, CodexClient.BooksOk, CodexClient.RoutesOk, CodexClient.LateOk;
    ghost var b, clear := client.Routing(), Clear(client.Routing(), o);
    var n := |client.channels|;
    Parts(client);
    AllIndexed(client);
    InsertedTracked(b, o, thread);
    var _ := client.InsertRoute(o, thread, true);
    Whole(client);
    ghost var c := client.Routing();
    client.Run(first);
    ghost var d := client.Routing();
    if client.alive {
      AfterOthers(c, d, first, o, n);
    }
    Parts(client);
    AllIndexed(client);
    if n in client.announcing {
      AnnouncedTracked(d, n, o);
      var _ := client.AnnounceRoute(n);
      Whole(client);
    }
    ghost var e := client.Routing();
    client.Run(second);
    if client.alive {
      AfterOthers(e, client.Routing(), second, o, n);
    }
  }

  /** The receiver of a run is dropped with the task that started it. */
  method DropRun(client: CodexClient, o: Operation, n: nat)
    requires client.Valid() && n < |client.channels|
    modifies client
    ensures client.Valid() && client.alive == old(client.alive) && |client.channels| == |old(client.channels)|
    ensures !client.channels[n].open
    ensures Tracked(old(client.Routing()), o, n) && n !in old(client.announcing) ==>
              (Orphaned(client.Routing(), o, n) <==> NoTerminal(client.channels[n].events))
    ensures !OnChannel(old(client.Routing()), o, n) ==> !Orphaned(client.Routing(), o, n)
  {
    hide Follows, Tracked, Orphaned, BoardValid, NoTerminal, RequestsValid, LedgerValid,
         CodexClient.RequestsOk, CodexClient.BooksOk, CodexClient.RoutesOk, CodexClient.LateOk;
    ghost var b := client.Routing();
    ClosedFollows(b, n);
    client.CloseChannel(n);
    ghost var d := client.Routing();
    if Tracked(b, o, n) && n !in b.announcing {
      Track(b, d, {}, {n}, o, n);
      LeftBehind(d, o, n);
    }
    if !OnChannel(b, o, n) {
      NotOrphaned(d, o, n);
    }
  }

  /** A start whose request has failed removes the route before it ends. */
  method UndoStart(client: CodexClient, o: Operation, n: nat, last: seq<Moment>)
    requires client.Valid() && n < |client.channels| && Others(last, o, n)
    modifies client
    ensures client.Valid() && (client.alive ==> old(client.alive)) && n < |client.channels|
    ensures !client.channels[n].open && (client.alive ==> !Orphaned(client.Routing(), o, n))
  {
    hide Follows, Tracked, Orphaned, BoardValid, NoTerminal, RequestsValid, LedgerValid, DroppedIn, ClosedIn,
         CodexClient.RequestsOk, CodexClient.BooksOk, CodexClient.RoutesOk, CodexClient.LateOk;
    client.RemoveRoute(o);
    ghost var b := client.Routing();
    client.Run(last);
    if client.alive {
      StaysLost(b, client.Routing(), DroppedIn(last), ClosedIn(last), o, n);
    }
    DropRun(client, o, n);
  }

  method RefuseStart(client: CodexClient, o: Operation, thread: Thread)
    requires client.Valid() && o in client.routes
    modifies client
    ensures client.Valid() && client.alive == old(client.alive)
    ensures var n := |old(client.channels)|;
            && n < |client.channels| && !client.channels[n].open && !Orphaned(client.Routing(), o, n)
  {
    hide Follows, Tracked, Orphaned, BoardValid, Inserted, Indexed, NoTerminal, RequestsValid, LedgerValid,
         CodexClient.RequestsOk, CodexClient.BooksOk, CodexClient.RoutesOk, CodexClient.LateOk;
    var n := |client.channels|;
    AllIndexed(client);
    InsertedTracked(client.Routing(), o, thread);
    var _ := client.InsertRoute(o, thread, true);
    DropRun(client, o, n);
  }

  /** The steps of `begin_turn`, with other tasks in between. A start that fails leaves its route behind,
      with a receiver that is gone, exactly when `turn/start` came back without a turn and the run has
      not been told an end before. */
  method BeginTurn(client: CodexClient, o: Operation, thread: Thread, reply: TurnReply,
                   first: seq<Moment>, second: seq<Moment>, last: seq<Moment>)
    returns (start: Start)
    requires client.Valid()
    requires Others(first, o, |client.channels|) && Others(second, o, |client.channels|)
    requires Others(last, o, |client.channels|)
    modifies client
    ensures client.Valid() && |old(client.channels)| < |client.channels|
    ensures start == AlreadyThere <==> o in old(client.routes)
    ensures start == NoReply <==> o !in old(client.routes) && reply == Failure
    ensures start == NoTurnId <==> o !in old(client.routes) && reply == WithoutTurn
    ensures start == Running ==> o in client.routes && reply == WithTurn
    ensures var n := |old(client.channels)|;
            client.alive && (start == AlreadyThere || Clear(old(client.Routing()), o)) ==>
              && client.channels[n].open == start.Running?
              && (Orphaned(client.Routing(), o, n) <==>
                    start == NoTurnId && NoTerminal(client.channels[n].events))
  {
    hide Follows, Tracked, Clear, Inserted, Indexed, DroppedIn, ClosedIn, Others, Orphaned, NoTerminal, BoardValid,
         RequestsValid, LedgerValid,
         CodexClient.Valid, CodexClient.RequestsOk, CodexClient.BooksOk, CodexClient.RoutesOk, CodexClient.LateOk;
    var n := |client.channels|;
    ghost var clear := Clear(client.Routing(), o);
    if o in client.routes {
      RefuseStart(client, o, thread);
      return AlreadyThere;
    }
    Register(client, o, thread, first, second);
    ghost var b := client.Routing();
    match reply {
      case Failure =>
        start := NoReply;
        UndoStart(client, o, n, last);
      case WithoutTurn =>
        start := NoTurnId;
        DropRun(client, o, n);
      case WithTurn =>
        start := if o in client.routes then Running else RouteGone;
        if start == RouteGone {
          DropRun(client, o, n);
        } else if client.alive {
          NotOrphaned(b, o, n);
        }
    }
  }

  /** A route left behind stays for as long as the client lives, and every later start of its operation
      is refused. */
  method LaterStartIsRefused(client: CodexClient, o: Operation, i: nat, thread: Thread, script: seq<Moment>)
    returns (problem: Option<Problem>)
    requires client.Valid() && Orphaned(client.Routing(), o, i) && o !in DroppedIn(script)
    modifies client
    ensures client.alive ==> problem == Some(AlreadyActive) && OnChannel(client.Routing(), o, i)
  {
    hide Follows, BoardValid, RequestsValid, LedgerValid, DroppedIn, ClosedIn, NoTerminal,
         CodexClient.RequestsOk, CodexClient.BooksOk, CodexClient.RoutesOk, CodexClient.LateOk;
    ghost var b := client.Routing();
    client.Run(script);
    if client.alive {
      OrphanStays(b, client.Routing(), DroppedIn(script), ClosedIn(script), o, i);
    }
    problem := client.InsertRoute(o, thread, true);
  }

  /** Something for the one run of a thread: events to send, or a request to enter. */
  predicate SaysSomething(message: Message, routes: map<Operation, Route>, o: Operation) {
    && o in routes && (forall p | p in routes && routes[p].thread == routes[o].thread :: p == o)
    && match message
       case Ask(_, _, thread, _, _) =>
         thread == Some(routes[o].thread) && !AtOnce(message, routes) && !Malformed(message, routes)
       case Notify(note, thread) =>
         && thread == Some(routes[o].thread)
         && (note.TurnEnded? || (note.Progress? && note.kinds != []))
       case _ => false
  }

  lemma SomethingToSend(message: Message, routes: map<Operation, Route>, to: Option<Operation>, reader: Reader,
                        o: Operation)
    requires SaysSomething(message, routes, o) && Prepared(message, routes, to, reader)
    ensures o in routes && (reader.Entering? || reader.Sending?) && reader.channel == routes[o].channel
  {
  }

  lemma SomethingInOrder(message: Message, routes: map<Operation, Route>, o: Operation)
    requires SaysSomething(message, routes, o)
    ensures !AtOnce(message, routes) && !Malformed(message, routes)
  {
  }

  /** Such a message for a run whose receiver is gone ends the whole client, whatever other tasks do
      while the reading task handles it. */
  method NextMessageEndsTheClient(client: CodexClient, o: Operation, i: nat, message: Message, written: bool,
                                  between: seq<Moment>, after: seq<Moment>)
    requires client.Valid() && client.reader.Idle? && Orphaned(client.Routing(), o, i)
    requires SaysSomething(message, client.routes, o)
    requires Quiet(between) && Quiet(after)
    modifies client
    ensures client.Valid() && !client.alive && client.reader.Stopped?
  {
    hide Follows, BoardValid, RequestsValid, LedgerValid, DroppedIn, ClosedIn, NoTerminal, SaysSomething, Prepared,
         AtOnce, Malformed,
         CodexClient.RequestsOk, CodexClient.BooksOk, CodexClient.RoutesOk, CodexClient.LateOk;
    SomethingInOrder(message, client.routes, o);
    var problem, to := client.Dispatch(message, written);
    SomethingToSend(message, old(client.routes), to, client.reader, o);
    client.Run(between);
    if client.reader.Entering? {
      problem := client.MoveReader();
      client.Run(after);
    }
    problem := client.MoveReader();
  }
}
