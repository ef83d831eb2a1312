/**
 What becomes of one run's route: it stays until its turn has ended, whoever started the run gives it up,
 or the client fails.
 */
module CodexRoutes {
  import opened Wrappers
  import opened CodexTables

  predicate OnChannel(b: Board, o: Operation, i: nat) {
    o in b.routes && b.routes[o].channel == i
  }

  /** The run has its route and has not been told an end; nothing that is left over from an earlier run of
      the operation will take the route away. */
  ghost predicate Underway(b: Board, o: Operation, i: nat) {
    && i < |b.channels| && OnChannel(b, o, i) && NoTerminal(b.channels[i].events)
    && (forall j | j in b.announcing && b.announcing[j].o == o :: j == i)
    && (i in b.announcing ==> b.channels[i].open)
    && (b.reader.Removing? ==> b.reader.o != o)
    && (b.reader.Sending? && b.reader.closing.ForTurn? && b.reader.closing.o == o ==> b.reader.channel == i)
  }

  /** The run has been told an end; its route is gone, or the reading task is about to remove it. */
  ghost predicate Ending(b: Board, o: Operation, i: nat) {
    && i < |b.channels| && !NoTerminal(b.channels[i].events)
    && (OnChannel(b, o, i) ==> b.reader.Removing? && b.reader.o == o)
  }

  /** A route whose receiver is gone, with no task that would remove it. */
  ghost predicate Orphaned(b: Board, o: Operation, i: nat) {
    Underway(b, o, i) && i !in b.announcing && !b.channels[i].open
  }

  /** No earlier run of the operation is still to be announced, or is ending. */
  predicate Clear(b: Board, o: Operation) {
    && (forall j | j in b.announcing :: b.announcing[j].o != o)
    && (b.reader.Removing? ==> b.reader.o != o)
    && (b.reader.Sending? && b.reader.closing.ForTurn? ==> b.reader.closing.o != o)
  }

  /** Channels keep what they had, and get no new route and no new announcement. */
  ghost predicate ChannelsStay(b: Board, d: Board) {
    && |b.channels| <= |d.channels|
    && (forall i: nat | i < |b.channels| ::
          && (i !in b.announcing ==> i !in d.announcing)
          && (!b.channels[i].open ==> !d.channels[i].open)
          && b.channels[i].events <= d.channels[i].events)
    && forall o, i: nat | i < |b.channels| && OnChannel(d, o, i) :: OnChannel(b, o, i)
  }

  /** What a step does to the routes of the runs that are not given up in it. */
  ghost predicate Follows(b: Board, d: Board, dropped: set<Operation>, closed: set<nat>) {
    && ChannelsStay(b, d)
    && (forall i: nat | i < |b.channels| && b.channels[i].open && i !in closed :: d.channels[i].open)
    && (forall o, i: nat | Ending(b, o, i) :: Ending(d, o, i))
    && forall o, i: nat | Underway(b, o, i) && o !in dropped && (i in closed ==> i !in b.announcing) ::
         && (Underway(d, o, i) || Ending(d, o, i))
         && (!b.channels[i].open ==> Underway(d, o, i))
  }

  /** A run that is followed from one step to the next. */
  ghost predicate Tracked(b: Board, o: Operation, i: nat) {
    Underway(b, o, i) || Ending(b, o, i)
  }

  lemma Track(b: Board, d: Board, dropped: set<Operation>, closed: set<nat>, o: Operation, i: nat)
    requires Follows(b, d, dropped, closed) && Tracked(b, o, i) && o !in dropped
    requires i in closed ==> i !in b.announcing
    ensures Tracked(d, o, i) && (i !in b.announcing ==> i !in d.announcing)
  {
  }

  /** A route that is lost from a channel never comes back. */
  lemma StaysLost(b: Board, d: Board, dropped: set<Operation>, closed: set<nat>, o: Operation, i: nat)
    requires Follows(b, d, dropped, closed) && i < |b.channels| && !OnChannel(b, o, i)
    ensures i < |d.channels| && !OnChannel(d, o, i)
  {
  }

  lemma OrphanStays(b: Board, d: Board, dropped: set<Operation>, closed: set<nat>, o: Operation, i: nat)
    requires Follows(b, d, dropped, closed) && Orphaned(b, o, i) && o !in dropped
    ensures Orphaned(d, o, i)
  {
  }

  lemma InsertedTracked(b: Board, o: Operation, thread: Thread)
    requires Indexed(b)
    ensures var d := Inserted(b, o, thread, true);
            && |b.channels| < |d.channels| && d.channels[|b.channels|].open
            && if o in b.routes then !OnChannel(d, o, |b.channels|)
               else Clear(b, o) ==> Tracked(d, o, |b.channels|)
  {
  }

  /** Of a tracked run whose receiver is gone and that has been announced, the route is left behind
      exactly when the run has not been told an end. */
  lemma LeftBehind(b: Board, o: Operation, i: nat)
    requires Tracked(b, o, i) && i !in b.announcing
    ensures i < |b.channels|
    ensures !b.channels[i].open ==> (Orphaned(b, o, i) <==> NoTerminal(b.channels[i].events))
  {
  }

  lemma NotOrphaned(b: Board, o: Operation, i: nat)
    requires i < |b.channels| && (b.channels[i].open || !OnChannel(b, o, i))
    ensures !Orphaned(b, o, i)
  {
  }

  lemma FollowsItself(b: Board, dropped: set<Operation>, closed: set<nat>)
    ensures Follows(b, b, dropped, closed)
  {
  }

  lemma FollowsOn(b: Board, c: Board, d: Board, dropped: set<Operation>, closed: set<nat>,
                  more: set<Operation>, others: set<nat>)
    requires Follows(b, c, dropped, closed) && Follows(c, d, more, others)
    ensures Follows(b, d, dropped + more, closed + others)
  {
    hide Underway, Ending;
    forall o, i: nat | i < |b.channels| && OnChannel(d, o, i)
      ensures OnChannel(b, o, i)
    {
      assert OnChannel(c, o, i);
    }
    hide OnChannel;
    forall o, i: nat | Underway(b, o, i) && o !in dropped + more && (i in closed + others ==> i !in b.announcing)
      ensures Underway(d, o, i) || Ending(d, o, i)
      ensures i < |b.channels| && (!b.channels[i].open ==> Underway(d, o, i))
    {
      UnderwayHere(b, o, i);
      assert Underway(c, o, i) || Ending(c, o, i);
    }
  }

  lemma UnderwayHere(b: Board, o: Operation, i: nat)
    requires Underway(b, o, i)
    ensures i < |b.channels|
  {
  }

  lemma TerminalStays(before: seq<ProviderEvent>, after: seq<ProviderEvent>)
    requires before <= after && !NoTerminal(before)
    ensures !NoTerminal(after)
  {
    var event :| event in before && IsTerminal(event);
    assert event in after;
  }

  /** Runs that have ended stay so, when the reading task goes on only by removing their route. */
  lemma EndingStays(b: Board, d: Board)
    requires ChannelsStay(b, d)
    requires d.reader == b.reader || !b.reader.Removing? || b.reader.o !in d.routes
    ensures forall o, i: nat | Ending(b, o, i) :: Ending(d, o, i)
  {
    forall o, i: nat | Ending(b, o, i)
      ensures Ending(d, o, i)
    {
      TerminalStays(b.channels[i].events, d.channels[i].events);
    }
  }

  lemma InsertedFollows(b: Board, o: Operation, thread: Thread, open: bool)
    requires Indexed(b)
    ensures Follows(b, Inserted(b, o, thread, open), {}, {})
  {
    EndingStays(b, Inserted(b, o, thread, open));
  }

  lemma AnnouncedFollows(b: Board, i: nat)
    requires Indexed(b) && i in b.announcing
    ensures Follows(b, Announced(b, i), {}, {})
  {
    var d := Announced(b, i);
    EndingStays(b, d);
    Appended(b.channels[i].events, ConversationStarted(b.announcing[i].thread));
  }

  lemma AnnouncedTracked(b: Board, i: nat, o: Operation)
    requires Indexed(b) && i in b.announcing
    ensures i < |b.channels|
    ensures var d := Announced(b, i);
            && |d.channels| == |b.channels| && i !in d.announcing
            && (b.channels[i].open ==> d.channels[i].open)
            && (Tracked(b, o, i) ==> Tracked(d, o, i))
  {
    AnnouncedFollows(b, i);
  }

  lemma RemovedFollows(b: Board, o: Operation)
    ensures Follows(b, b.(routes := b.routes - {o}), {o}, {})
  {
    EndingStays(b, b.(routes := b.routes - {o}));
  }

  lemma ClosedFollows(b: Board, i: nat)
    requires i < |b.channels|
    ensures Follows(b, b.(channels := b.channels[i := b.channels[i].(open := false)]), {}, {i})
  {
    EndingStays(b, b.(channels := b.channels[i := b.channels[i].(open := false)]));
  }

  /** The reading task has looked a message up. */
  ghost predicate LookedUp(b: Board, d: Board) {
    && b.reader.Idle? && d == b.(reader := d.reader, routes := d.routes)
    && d.routes.Keys == b.routes.Keys && (forall o | o in b.routes :: d.routes[o].channel == b.routes[o].channel)
    && !d.reader.Removing?
    && (d.reader.Sending? && d.reader.closing.ForTurn? ==> OnChannel(b, d.reader.closing.o, d.reader.channel))
  }

  lemma NothingLookedUp(b: Board)
    requires b.reader.Idle?
    ensures LookedUp(b, b)
  {
  }

  lemma LookedUpFollows(b: Board, d: Board)
    requires LookedUp(b, d)
    ensures Follows(b, d, {}, {})
  {
    EndingStays(b, d);
  }

  /** The reading task has made its next step, and the client lives on. */
  ghost predicate ReaderMoved(b: Board, d: Board) {
    match b.reader
    case Sending(i, rest, _) => i < |b.channels| && rest != [] && b.channels[i].open && d == ReaderSent(b)
    case Removing(_, o, _) =>
      d == b.(routes := b.routes - {o}, reader := d.reader) && !d.reader.Removing? && !d.reader.Sending?
    case _ =>
      && d == b.(reader := d.reader) && !d.reader.Removing?
      && (d.reader.Sending? ==> !d.reader.closing.ForTurn?)
  }

  lemma ReaderMovedFollows(b: Board, d: Board)
    requires BoardValid(b) && ReaderMoved(b, d)
    ensures Follows(b, d, {}, {})
  {
    if b.reader.Sending? {
      SentFollows(b);
    } else {
      EndingStays(b, d);
    }
  }

  lemma SentFollows(b: Board)
    requires BoardValid(b) && b.reader.Sending? && b.reader.channel < |b.channels| && b.reader.rest != []
    requires b.channels[b.reader.channel].open
    ensures Follows(b, ReaderSent(b), {}, {})
  {
    var d := ReaderSent(b);
    EndingStays(b, d);
    Appended(b.channels[b.reader.channel].events, b.reader.rest[0]);
  }
}
