/**
 The end of a turn and of a request, from the notification to the last step of the reading task, with other
 tasks in between: what the run is told, and which of the requests that wait go with it.
 */
module CodexTurns {
  import opened Wrappers
  import opened CodexTables
  import opened CodexRoutes
  import opened Codex

  // ---------------------------------------------------------------------------------------
  // Entries
  // ---------------------------------------------------------------------------------------

  /** Of some entries those are left, as they were, that are of another thread and of another request and
      were not answered. */
  ghost predicate Left(before: map<nat, Unanswered>, after: map<nat, Unanswered>, thread: Option<Thread>,
                 request: Option<RequestId>, answered: set<nat>)
  {
    && (forall k | k in after :: k in before && after[k] == before[k])
    && forall k :: k in after <==>
         && k in before && k !in answered
         && (thread.None? || before[k].thread != thread.value)
         && (request.None? || before[k].id != request.value)
  }

  lemma AllLeft(before: map<nat, Unanswered>, answered: set<nat>)
    ensures Left(before, before - answered, None, None, answered)
  {
  }

  lemma OthersLeft(a: map<nat, Unanswered>, b: map<nat, Unanswered>, thread: Option<Thread>,
                   request: Option<RequestId>, answered: set<nat>)
    requires Left(a, b, None, None, answered)
    ensures Left(a, Others(b, thread, request), thread, request, answered)
  {
  }

  lemma LeftOn(a: map<nat, Unanswered>, b: map<nat, Unanswered>, c: map<nat, Unanswered>,
               thread: Option<Thread>, request: Option<RequestId>, answered: set<nat>, more: set<nat>)
    requires Left(a, b, None, None, answered) && Left(b, c, thread, request, more)
    ensures Left(a, c, thread, request, answered + more)
  {
  }

  lemma LeftSo(a: map<nat, Unanswered>, b: map<nat, Unanswered>, c: map<nat, Unanswered>,
               thread: Option<Thread>, request: Option<RequestId>, answered: set<nat>, more: set<nat>)
    requires Left(a, b, thread, request, answered) && Left(b, c, None, None, more)
    ensures Left(a, c, thread, request, answered + more)
  {
  }

  lemma StayOn(b: Board, c: Board, d: Board)
    requires ChannelsStay(b, c) && ChannelsStay(c, d)
    ensures ChannelsStay(b, d)
  {
    forall o, i: nat | i < |b.channels| && OnChannel(d, o, i)
      ensures OnChannel(b, o, i)
    {
      assert OnChannel(c, o, i);
    }
  }

  lemma FollowingStays(b: Board, d: Board, dropped: set<Operation>, closed: set<nat>)
    requires Follows(b, d, dropped, closed)
    ensures ChannelsStay(b, d)
  {
  }

  // ---------------------------------------------------------------------------------------
  // Steps of the reading task, each after some of other tasks
  // ---------------------------------------------------------------------------------------

  /** Other tasks, while the reading task does nothing. */
  method Wait(client: CodexClient, script: seq<Moment>)
    requires client.Valid() && Quiet(script)
    modifies client
    ensures client.Valid() && client.reader == old(client.reader) && (client.alive ==> old(client.alive))
    ensures client.alive ==>
              && ChannelsStay(old(client.Routing()), client.Routing())
              && Left(old(client.approvals), client.approvals, None, None, DecidedIn(script))
              && Left(old(client.toolCalls), client.toolCalls, None, None, HandedIn(script))
  {
    AllLeft(client.approvals, DecidedIn(script));
    AllLeft(client.toolCalls, HandedIn(script));
    ghost var before := client.Routing();
    hide *;
    client.Run(script);
    if client.alive {
      FollowingStays(before, client.Routing(), DroppedIn(script), ClosedIn(script));
    }
  }

  /** The reading task sends the end of a turn. */
  method TellEnd(client: CodexClient, script: seq<Moment>, ghost event: ProviderEvent)
    requires client.Valid() && Quiet(script) && client.reader.Sending? && client.reader.closing.ForTurn?
    requires client.reader.rest == [event]
    modifies client
    ensures client.Valid() && (client.alive ==> old(client.alive))
    ensures client.alive ==>
              var Sending(i, _, closing) := old(client.reader);
              && client.reader == Removing(i, closing.o, closing.thread)
              && i < |client.channels| && event in client.channels[i].events
              && ChannelsStay(old(client.Routing()), client.Routing())
              && Left(old(client.approvals), client.approvals, None, None, DecidedIn(script))
              && Left(old(client.toolCalls), client.toolCalls, None, None, HandedIn(script))
  {
    ghost var before := client.Routing();
    hide *;
    Wait(client, script);
    ghost var here := client.Routing();
    ReaderThere(client);
    var problem := client.MoveReader();
    if client.alive {
      SentLast(here, event);
      StepStays(here, client.Routing());
      StayOn(before, here, client.Routing());
    }
  }

  lemma ReaderThere(client: CodexClient)
    requires client.Valid()
    ensures BoardValid(client.Routing()) && client.Routing().reader == client.reader
    ensures client.Routing().routes == client.routes && client.Routing().channels == client.channels
  {
  }

  lemma StepStays(b: Board, d: Board)
    requires BoardValid(b) && ReaderMoved(b, d)
    ensures ChannelsStay(b, d)
  {
    ReaderMovedFollows(b, d);
  }

  lemma SentLast(b: Board, event: ProviderEvent)
    requires BoardValid(b) && b.reader.Sending? && b.reader.rest == [event] && b.reader.closing.ForTurn?
    requires b.channels[b.reader.channel].open
    ensures var Sending(i, _, closing) := b.reader;
            && i < |b.channels| && ReaderSent(b).reader == Removing(i, closing.o, closing.thread)
            && event in ReaderSent(b).channels[i].events
  {
    SendNext(b);
    WhatIsSent(b);
    assert (b.channels[b.reader.channel].events + [event])[|b.channels[b.reader.channel].events|] == event;
  }

  /** The reading task removes the route of a turn that has ended. */
  method TakeRoute(client: CodexClient, script: seq<Moment>)
    requires client.Valid() && Quiet(script) && client.reader.Removing?
    modifies client
    ensures client.Valid() && (client.alive ==> old(client.alive))
    ensures client.alive ==>
              var Removing(i, o, thread) := old(client.reader);
              && client.reader == DroppingApprovals(Some(thread), None) && o !in client.routes
              && ChannelsStay(old(client.Routing()), client.Routing())
              && Left(old(client.approvals), client.approvals, None, None, DecidedIn(script))
              && Left(old(client.toolCalls), client.toolCalls, None, None, HandedIn(script))
  {
    ghost var before := client.Routing();
    hide *;
    Wait(client, script);
    ghost var here := client.Routing();
    ReaderThere(client);
    var problem := client.MoveReader();
    if client.alive {
      StepStays(here, client.Routing());
      StayOn(before, here, client.Routing());
    }
  }

  /** The reading task takes the entries of a thread or of a request out of the one table. */
  method DropOfApprovals(client: CodexClient, script: seq<Moment>)
    requires client.Valid() && Quiet(script) && client.reader.DroppingApprovals?
    modifies client
    ensures client.Valid() && (client.alive ==> old(client.alive))
    ensures client.alive ==>
              var DroppingApprovals(thread, request) := old(client.reader);
              && client.reader == DroppingCalls(thread, request)
              && ChannelsStay(old(client.Routing()), client.Routing())
              && Left(old(client.approvals), client.approvals, thread, request, DecidedIn(script))
              && Left(old(client.toolCalls), client.toolCalls, None, None, HandedIn(script))
  {
    ghost var b, approvals := client.Routing(), client.approvals;
    hide *;
    Wait(client, script);
    ghost var c := client.Routing();
    ReaderThere(client);
    if client.alive {
      OthersLeft(approvals, client.approvals, client.reader.threads, client.reader.request, DecidedIn(script));
    }
    var problem := client.MoveReader();
    if client.alive {
      StepStays(c, client.Routing());
      StayOn(b, c, client.Routing());
    }
  }

  /** And out of the other. */
  method DropOfCalls(client: CodexClient, script: seq<Moment>)
    requires client.Valid() && Quiet(script) && client.reader.DroppingCalls?
    modifies client
    ensures client.Valid() && (client.alive ==> old(client.alive))
    ensures client.alive ==>
              var DroppingCalls(thread, request) := old(client.reader);
              && client.reader.Idle?
              && ChannelsStay(old(client.Routing()), client.Routing())
              && Left(old(client.approvals), client.approvals, None, None, DecidedIn(script))
              && Left(old(client.toolCalls), client.toolCalls, thread, request, HandedIn(script))
  {
    ghost var b, calls := client.Routing(), client.toolCalls;
    hide *;
    Wait(client, script);
    ghost var c := client.Routing();
    ReaderThere(client);
    if client.alive {
      OthersLeft(calls, client.toolCalls, client.reader.threads, client.reader.request, HandedIn(script));
    }
    var problem := client.MoveReader();
    if client.alive {
      StepStays(c, client.Routing());
      StayOn(b, c, client.Routing());
    }
  }

  method DropWaiting(client: CodexClient, first: seq<Moment>, last: seq<Moment>)
    requires client.Valid() && Quiet(first) && Quiet(last) && client.reader.DroppingApprovals?
    modifies client
    ensures client.Valid() && (client.alive ==> old(client.alive))
    ensures client.alive ==>
              var DroppingApprovals(thread, request) := old(client.reader);
              && client.reader.Idle? && ChannelsStay(old(client.Routing()), client.Routing())
              && Left(old(client.approvals), client.approvals, thread, request, DecidedIn(first) + DecidedIn(last))
              && Left(old(client.toolCalls), client.toolCalls, thread, request, HandedIn(first) + HandedIn(last))
  {
    ghost var DroppingApprovals(thread, request) := client.reader;
    ghost var b, approvals, calls := client.Routing(), client.approvals, client.toolCalls;
    hide *;
    DropOfApprovals(client, first);
    if !client.alive {
      return;
    }
    ghost var c, approvals1, calls1 := client.Routing(), client.approvals, client.toolCalls;
    DropOfCalls(client, last);
    if client.alive {
      StayOn(b, c, client.Routing());
      LeftSo(approvals, approvals1, client.approvals, thread, request, DecidedIn(first), DecidedIn(last));
      LeftOn(calls, calls1, client.toolCalls, thread, request, HandedIn(first), HandedIn(last));
    }
  }

  // ---------------------------------------------------------------------------------------
  // The end of a turn, and of a request
  // ---------------------------------------------------------------------------------------

  /** What a run is told at the end of its turn. */
  function EndOf(status: TurnStatus, lastError: Option<Problem>): ProviderEvent {
    match status
    case TurnCompleted => Completed
    case TurnInterrupted => Cancelled
    case TurnFailed(problem) => Failed(match lastError case Some(last) => last case None => problem)
  }

  lemma EndIsSent(status: TurnStatus, thread: Thread, routes: map<Operation, Route>, to: Option<Operation>,
                  reader: Reader)
    requires Prepared(Notify(TurnEnded(status), Some(thread)), routes, to, reader)
    requires exists p | p in routes :: routes[p].thread == thread
    ensures to.Some? && to.value in routes && routes[to.value].thread == thread
    ensures var route := routes[to.value];
            reader == Sending(route.channel, [EndOf(status, route.lastError)], ForTurn(to.value, thread))
    ensures !Malformed(Notify(TurnEnded(status), Some(thread)), routes)
    ensures !AtOnce(Notify(TurnEnded(status), Some(thread)), routes)
  {
    WhatNotificationsNeed(TurnEnded(status), Some(thread), routes, to, reader);
  }

  /** The turn of a run has ended: the run is told, and its route goes. */
  method LeaveTurn(client: CodexClient, status: TurnStatus, thread: Thread, written: bool,
                   first: seq<Moment>, second: seq<Moment>)
    returns (ghost o: Operation)
    requires client.Valid() && client.reader.Idle? && Quiet(first) && Quiet(second)
    requires exists p | p in client.routes :: client.routes[p].thread == thread
    modifies client
    ensures client.Valid() && o in old(client.routes) && old(client.routes)[o].thread == thread
    ensures client.alive ==>
              var route := old(client.routes)[o];
              && client.reader == DroppingApprovals(Some(thread), None) && route.channel < |client.channels|
              && EndOf(status, route.lastError) in client.channels[route.channel].events
              && !OnChannel(client.Routing(), o, route.channel)
              && Left(old(client.approvals), client.approvals, None, None, DecidedIn(first) + DecidedIn(second))
              && Left(old(client.toolCalls), client.toolCalls, None, None, HandedIn(first) + HandedIn(second))
  {
    ghost var routes, approvals, calls := client.routes, client.approvals, client.toolCalls;
    hide *;
    var problem, to := client.Dispatch(Notify(TurnEnded(status), Some(thread)), written);
    EndIsSent(status, thread, routes, to, client.reader);
    SameEntries(client);
    o := to.value;
    ghost var event := EndOf(status, routes[o].lastError);
    TellEnd(client, first, event);
    if !client.alive {
      return;
    }
    ghost var c, approvals1, calls1 := client.Routing(), client.approvals, client.toolCalls;
    TakeRoute(client, second);
    if client.alive {
      StillTold(c, client.Routing(), routes[o].channel, event);
      LeftOn(approvals, approvals1, client.approvals, None, None, DecidedIn(first), DecidedIn(second));
      LeftOn(calls, calls1, client.toolCalls, None, None, HandedIn(first), HandedIn(second));
      NotThere(client.Routing(), o, routes[o].channel);
    }
  }

  /** A turn has ended. If the client lives on, its run has been told how, its route is gone, and of what
      waits for a decision or a result an entry is left, as it was, exactly when its thread is another and
      it was neither decided on nor handed in meanwhile. */
  method EndTurn(client: CodexClient, status: TurnStatus, thread: Thread, written: bool,
                 first: seq<Moment>, second: seq<Moment>, third: seq<Moment>, last: seq<Moment>)
    returns (ghost o: Operation)
    requires client.Valid() && client.reader.Idle?
    requires exists p | p in client.routes :: client.routes[p].thread == thread
    requires Quiet(first) && Quiet(second) && Quiet(third) && Quiet(last)
    modifies client
    ensures client.Valid() && o in old(client.routes) && old(client.routes)[o].thread == thread
    ensures client.alive ==>
              var route := old(client.routes)[o];
              && client.reader.Idle? && route.channel < |client.channels|
              && EndOf(status, route.lastError) in client.channels[route.channel].events
              && (o in client.routes ==> client.routes[o].channel != route.channel)
    ensures client.alive ==>
              var decided := DecidedIn(first) + DecidedIn(second) + DecidedIn(third) + DecidedIn(last);
              && (forall a | a in client.approvals ::
                    a in old(client.approvals) && client.approvals[a] == old(client.approvals)[a])
              && forall a :: a in client.approvals <==>
                   a in old(client.approvals) && old(client.approvals)[a].thread != thread && a !in decided
    ensures client.alive ==>
              var handed := HandedIn(first) + HandedIn(second) + HandedIn(third) + HandedIn(last);
              && (forall c | c in client.toolCalls ::
                    c in old(client.toolCalls) && client.toolCalls[c] == old(client.toolCalls)[c])
              && forall c :: c in client.toolCalls <==>
                   c in old(client.toolCalls) && old(client.toolCalls)[c].thread != thread && c !in handed
  {
    ghost var routes, approvals, calls := client.routes, client.approvals, client.toolCalls;
    hide *;
    o := LeaveTurn(client, status, thread, written, first, second);
    if !client.alive {
      return;
    }
    ghost var c, approvals1, calls1 := client.Routing(), client.approvals, client.toolCalls;
    DropWaiting(client, third, last);
    if client.alive {
      StillTold(c, client.Routing(), routes[o].channel, EndOf(status, routes[o].lastError));
      StaysAway(c, client.Routing(), o, routes[o].channel);
      ghost var decided := DecidedIn(first) + DecidedIn(second) + DecidedIn(third) + DecidedIn(last);
      ghost var handed := HandedIn(first) + HandedIn(second) + HandedIn(third) + HandedIn(last);
      LeftOn(approvals, approvals1, client.approvals, Some(thread), None, DecidedIn(first) + DecidedIn(second),
             DecidedIn(third) + DecidedIn(last));
      LeftOn(calls, calls1, client.toolCalls, Some(thread), None, HandedIn(first) + HandedIn(second),
             HandedIn(third) + HandedIn(last));
      Regrouped(DecidedIn(first), DecidedIn(second), DecidedIn(third), DecidedIn(last));
      Regrouped(HandedIn(first), HandedIn(second), HandedIn(third), HandedIn(last));
      WhatIsLeft(approvals, client.approvals, Some(thread), None, decided);
      WhatIsLeft(calls, client.toolCalls, Some(thread), None, handed);
    }
  }

  /** The server says for the thread of a run that a request is resolved: the entries of that request go,
      whatever their thread. When it names no request, or its thread is of no run, none goes. */
  method ResolveRequest(client: CodexClient, request: Option<RequestId>, thread: Option<Thread>, written: bool,
                        first: seq<Moment>, last: seq<Moment>)
    requires client.Valid() && client.reader.Idle? && Quiet(first) && Quiet(last)
    modifies client
    ensures client.Valid()
    ensures client.alive ==>
              var here := thread.Some?
                          && exists o | o in old(client.routes) :: old(client.routes)[o].thread == thread.value;
              && client.reader.Idle?
              && (forall a | a in client.approvals ::
                    a in old(client.approvals) && client.approvals[a] == old(client.approvals)[a])
              && (forall a :: a in client.approvals <==>
                    && a in old(client.approvals) && a !in DecidedIn(first) + DecidedIn(last)
                    && (here && request.Some? ==> old(client.approvals)[a].id != request.value))
              && (forall c | c in client.toolCalls ::
                    c in old(client.toolCalls) && client.toolCalls[c] == old(client.toolCalls)[c])
              && forall c :: c in client.toolCalls <==>
                   && c in old(client.toolCalls) && c !in HandedIn(first) + HandedIn(last)
                   && (here && request.Some? ==> old(client.toolCalls)[c].id != request.value)
  {
    ghost var routes, approvals, calls := client.routes, client.approvals, client.toolCalls;
    hide *;
    var problem, to := client.Dispatch(Notify(RequestResolved(request), thread), written);
    SameEntries(client);
    ResolutionIs(request, thread, routes, to, client.reader);
    if client.reader.DroppingApprovals? {
      DropWaiting(client, first, last);
    } else {
      Wait(client, first);
      ghost var approvals1, calls1 := client.approvals, client.toolCalls;
      Wait(client, last);
      if client.alive {
        LeftOn(approvals, approvals1, client.approvals, None, None, DecidedIn(first), DecidedIn(last));
        LeftOn(calls, calls1, client.toolCalls, None, None, HandedIn(first), HandedIn(last));
      }
    }
    if client.alive {
      ghost var gone := if to.Some? then request else None;
      WhatIsLeft(approvals, client.approvals, None, gone, DecidedIn(first) + DecidedIn(last));
      WhatIsLeft(calls, client.toolCalls, None, gone, HandedIn(first) + HandedIn(last));
    }
  }

  lemma ResolutionIs(request: Option<RequestId>, thread: Option<Thread>, routes: map<Operation, Route>,
                     to: Option<Operation>, reader: Reader)
    requires Prepared(Notify(RequestResolved(request), thread), routes, to, reader)
    ensures to.Some? <==> thread.Some? && exists o | o in routes :: routes[o].thread == thread.value
    ensures reader == if to.Some? then DroppingApprovals(None, request) else Idle
    ensures !Malformed(Notify(RequestResolved(request), thread), routes)
    ensures !AtOnce(Notify(RequestResolved(request), thread), routes)
  {
    WhatNotificationsNeed(RequestResolved(request), thread, routes, to, reader);
  }

  lemma WhatIsLeft(before: map<nat, Unanswered>, after: map<nat, Unanswered>, thread: Option<Thread>,
                   request: Option<RequestId>, answered: set<nat>)
    requires Left(before, after, thread, request, answered)
    ensures forall k | k in after :: k in before && after[k] == before[k]
    ensures forall k :: k in after <==>
              && k in before && k !in answered
              && (thread.None? || before[k].thread != thread.value)
              && (request.None? || before[k].id != request.value)
  {
  }

  lemma Regrouped(a: set<nat>, b: set<nat>, c: set<nat>, d: set<nat>)
    ensures a + b + (c + d) == a + b + c + d
  {
  }

  lemma SameEntries(client: CodexClient)
    ensures client.Books().approvals == client.approvals && client.Books().toolCalls == client.toolCalls
  {
  }

  lemma StillTold(b: Board, d: Board, i: nat, event: ProviderEvent)
    requires ChannelsStay(b, d) && i < |b.channels| && event in b.channels[i].events
    ensures i < |d.channels| && event in d.channels[i].events
  {
  }

  lemma NotThere(b: Board, o: Operation, i: nat)
    requires o !in b.routes
    ensures !OnChannel(b, o, i)
  {
  }

  lemma StaysAway(b: Board, d: Board, o: Operation, i: nat)
    requires ChannelsStay(b, d) && i < |b.channels| && !OnChannel(b, o, i)
    ensures !OnChannel(d, o, i) && (o in d.routes ==> d.routes[o].channel != i)
  {
  }
}
