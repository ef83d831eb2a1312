/**
 Replication of a server log, for any projection: a numbered log, the projected state as the fold
 of a prefix of that log, and the replica that deliveries and snapshots produce.
 */
module Replication {
  import opened Wrappers
  import opened MachineInts
  import opened Vectors
  import opened Protocol

  /** How events change a projected state, which events concern it, and which ones it cannot apply
      without a snapshot. `blank` is the state before anything is loaded. */
  datatype Projection<!S> = Projection(
    blank: S,
    project: (S, ServerEventBody) -> S,
    concerns: (S, ServerEventBody) -> bool,
    misses: (S, ServerEventBody) -> bool)

  /** The server's log; event `i` of the log carries sequence number `i + 1`. Each projected entity
      starts from its genesis state. */
  datatype ServerLog<S> = ServerLog(events: seq<ServerEvent>, genesis: map<Id, S>)

  ghost predicate ValidLog<S(!new)>(p: Projection<S>, log: ServerLog<S>) {
    && |log.events| <= U64_MAX
    && (forall i | 0 <= i < |log.events| :: log.events[i].sequence == i + 1)
    && (forall i, j | 0 <= i < j < |log.events| :: log.events[i].eventId != log.events[j].eventId)
    && (forall body: ServerEventBody :: p.project(p.blank, body) == p.blank)
  }

  /** The projected state of an entity after the first `n` events. */
  function StateAt<S>(p: Projection<S>, log: ServerLog<S>, entity: Id, n: nat): S
    requires entity in log.genesis && n <= |log.events|
  {
    if n == 0 then log.genesis[entity]
    else p.project(StateAt(p, log, entity, n - 1), log.events[n - 1].body)
  }

  datatype Replica<S> = Replica(view: S, cursor: u64, needsSnapshot: bool, applied: set<Id>)

  function Fresh<S>(p: Projection<S>): Replica<S> {
    Replica(p.blank, 0, false, {})
  }

  /** The reaction to one event, on the projected state. */
  function Receive<S>(p: Projection<S>, r: Replica<S>, event: ServerEvent): (Replica<S>, ReconcileOutcome) {
    if event.eventId in r.applied then (r, DuplicateEvent)
    else
      match ClassifySequence(r.cursor, event.sequence)
      case Duplicate => (r, DuplicateEvent)
      case Gap => (r.(needsSnapshot := true), GapDetected)
      case Next =>
        (Replica(p.project(r.view, event.body), event.sequence,
                 r.needsSnapshot || p.misses(r.view, event.body), r.applied + {event.eventId}),
         if p.concerns(r.view, event.body) then Applied else Unrelated)
  }

  /** An event that was applied before, or is not later than the cursor, changes nothing; a later one than
      the next changes nothing but asks for a snapshot; and the next one is projected, remembered and
      becomes the cursor. */
  lemma WhatIsReceived<S>(p: Projection<S>, r: Replica<S>, event: ServerEvent)
    ensures var (next, outcome) := Receive(p, r, event);
            && (event.eventId in r.applied || event.sequence <= r.cursor ==> next == r && outcome == DuplicateEvent)
            && (event.eventId !in r.applied && event.sequence > r.cursor + 1 ==>
                  && outcome == GapDetected && next.needsSnapshot
                  && next.view == r.view && next.cursor == r.cursor && next.applied == r.applied)
            && (event.eventId !in r.applied && event.sequence == r.cursor + 1 ==>
                  && (outcome == Applied || outcome == Unrelated)
                  && next.cursor == event.sequence && next.applied == r.applied + {event.eventId}
                  && next.view == p.project(r.view, event.body)
                  && (next.needsSnapshot <==> r.needsSnapshot || p.misses(r.view, event.body))
                  && (outcome == Applied <==> p.concerns(r.view, event.body)))
  {
  }

  /** A snapshot starts a replica anew, at its boundary. */
  lemma WhatIsHydrated<S>(view: S, boundary: u64)
    ensures var r := Hydrated(view, boundary);
            r.view == view && r.cursor == boundary && !r.needsSnapshot && r.applied == {}
  {
  }

  function Hydrated<S>(view: S, boundary: u64): Replica<S> {
    Replica(view, boundary, false, {})
  }

  /** What can happen to a replica: any log entry is delivered, in any order and any number of
      times, or a snapshot of any entity at any boundary is loaded. */
  datatype Input = Deliver(entry: nat) | Hydrate(entity: Id, boundary: nat)

  predicate ValidInput<S>(log: ServerLog<S>, input: Input) {
    match input
    case Deliver(entry) => entry < |log.events|
    case Hydrate(entity, boundary) => entity in log.genesis && boundary <= |log.events|
  }

  ghost function Step<S(!new)>(p: Projection<S>, log: ServerLog<S>, r: Replica<S>, input: Input): Replica<S>
    requires ValidLog(p, log) && ValidInput(log, input)
  {
    match input
    case Deliver(entry) => Receive(p, r, log.events[entry]).0
    case Hydrate(entity, boundary) => Hydrated(StateAt(p, log, entity, boundary), boundary)
  }

  ghost function Run<S(!new)>(p: Projection<S>, log: ServerLog<S>, r: Replica<S>, inputs: seq<Input>): Replica<S>
    requires ValidLog(p, log) && forall i | 0 <= i < |inputs| :: ValidInput(log, inputs[i])
  {
    if inputs == [] then r
    else Step(p, log, Run(p, log, r, inputs[..|inputs| - 1]), inputs[|inputs| - 1])
  }

  /** The entity a run last loaded. */
  function LoadedEntity(inputs: seq<Input>): Option<Id> {
    if inputs == [] then None
    else if inputs[|inputs| - 1].Hydrate? then Some(inputs[|inputs| - 1].entity)
    else LoadedEntity(inputs[..|inputs| - 1])
  }

  /** The replica shows a prefix of the log: the entity's state after `cursor` events. */
  ghost predicate ConsistentPrefix<S(!new)>(p: Projection<S>, log: ServerLog<S>, entity: Option<Id>, r: Replica<S>)
    requires ValidLog(p, log)
  {
    && r.cursor <= |log.events|
    && (match entity
        case None => r.view == p.blank
        case Some(c) => c in log.genesis && r.view == StateAt(p, log, c, r.cursor))
    && (forall x | x in r.applied :: exists i :: 0 <= i < r.cursor && log.events[i].eventId == x)
  }

  /** What such a replica shows: nothing before anything is loaded, and otherwise the fold of the events up to
      its cursor, which alone it remembers. */
  lemma WhatAPrefixShows<S(!new)>(p: Projection<S>, log: ServerLog<S>, entity: Option<Id>, r: Replica<S>, x: Id)
    requires ValidLog(p, log) && ConsistentPrefix(p, log, entity, r)
    ensures r.cursor <= |log.events|
    ensures entity.None? ==> r.view == p.blank
    ensures entity.Some? ==> entity.value in log.genesis && r.view == StateAt(p, log, entity.value, r.cursor)
    ensures x in r.applied ==> exists i :: 0 <= i < r.cursor && log.events[i].eventId == x
  {
  }

  lemma StepKeepsPrefix<S(!new)>(p: Projection<S>, log: ServerLog<S>, entity: Option<Id>, r: Replica<S>, input: Input)
    requires ValidLog(p, log) && ConsistentPrefix(p, log, entity, r) && ValidInput(log, input)
    ensures ConsistentPrefix(p, log, if input.Hydrate? then Some(input.entity) else entity, Step(p, log, r, input))
  {
    if input.Deliver? {
      var after := Step(p, log, r, input);
      forall x | x in after.applied
        ensures exists i :: 0 <= i < after.cursor && log.events[i].eventId == x
      {
        if x in r.applied {
          var i :| 0 <= i < r.cursor && log.events[i].eventId == x;
          assert i < after.cursor;
        } else {
          assert log.events[input.entry].eventId == x;
        }
      }
    }
  }

  /** After any run of deliveries (duplicated, reordered, with gaps) and snapshots, the replica is
      the fold of a prefix of the log. */
  lemma {:induction false} EveryRunIsAPrefix<S(!new)>(p: Projection<S>, log: ServerLog<S>, inputs: seq<Input>)
    requires ValidLog(p, log) && forall i | 0 <= i < |inputs| :: ValidInput(log, inputs[i])
    ensures ConsistentPrefix(p, log, LoadedEntity(inputs), Run(p, log, Fresh(p), inputs))
  {
    if inputs != [] {
      var before := inputs[..|inputs| - 1];
      EveryRunIsAPrefix(p, log, before);
      StepKeepsPrefix(p, log, LoadedEntity(before), Run(p, log, Fresh(p), before), inputs[|inputs| - 1]);
    }
  }

  /** The remembered event ids never decide: on a prefix replica the sequence number alone gives
      the same replica and the same outcome. */
  lemma IdsAreRedundant<S(!new)>(p: Projection<S>, log: ServerLog<S>, entity: Option<Id>, r: Replica<S>, entry: nat)
    requires ValidLog(p, log) && ConsistentPrefix(p, log, entity, r) && entry < |log.events|
    ensures var event := log.events[entry];
            var byId := Receive(p, r, event);
            var bySequence := Receive(p, r.(applied := {}), event);
            && byId.1 == bySequence.1
            && byId.0.view == bySequence.0.view
            && byId.0.cursor == bySequence.0.cursor
            && byId.0.needsSnapshot == bySequence.0.needsSnapshot
  {
    var event := log.events[entry];
    if event.eventId in r.applied {
      var i :| 0 <= i < r.cursor && log.events[i].eventId == event.eventId;
      assert i == entry;
    }
  }

  /** Once a replica asks for a snapshot it keeps asking until one is loaded. */
  lemma {:induction false} AsksUntilHydrated<S(!new)>(p: Projection<S>, log: ServerLog<S>, inputs: seq<Input>, at: nat)
    requires ValidLog(p, log) && forall i | 0 <= i < |inputs| :: ValidInput(log, inputs[i])
    requires at <= |inputs| && Run(p, log, Fresh(p), inputs[..at]).needsSnapshot
    requires forall i | at <= i < |inputs| :: inputs[i].Deliver?
    ensures Run(p, log, Fresh(p), inputs).needsSnapshot
    decreases |inputs|
  {
    if at == |inputs| {
      assert inputs[..at] == inputs;
    } else {
      var before := inputs[..|inputs| - 1];
      assert before[..at] == inputs[..at];
      AsksUntilHydrated(p, log, before, at);
    }
  }

  /** Entries `from` up to `until`, delivered in order. */
  function DeliverRange<S>(p: Projection<S>, log: ServerLog<S>, r: Replica<S>, from: nat, until: nat): Replica<S>
    requires from <= until <= |log.events|
    decreases until - from
  {
    if from == until then r else DeliverRange(p, log, Receive(p, r, log.events[from]).0, from + 1, until)
  }

  ghost predicate GapFree<S(!new)>(p: Projection<S>, log: ServerLog<S>, r: Replica<S>, from: nat, until: nat)
    requires from <= until <= |log.events|
    decreases until - from
  {
    from == until
    || (&& Receive(p, r, log.events[from]).1 != GapDetected
        && GapFree(p, log, Receive(p, r, log.events[from]).0, from + 1, until))
  }

  /** Without a gap, no entry of the stream is answered with one. */
  lemma {:induction false} NoGapAnywhere<S(!new)>(p: Projection<S>, log: ServerLog<S>, r: Replica<S>, from: nat,
                                                  until: nat, i: nat)
    requires from <= i < until <= |log.events| && GapFree(p, log, r, from, until)
    ensures Receive(p, DeliverRange(p, log, r, from, i), log.events[i]).1 != GapDetected
    decreases i - from
  {
    if from < i {
      NoGapAnywhere(p, log, Receive(p, r, log.events[from]).0, from + 1, until, i);
    }
  }

  lemma NextInOrder<S(!new)>(p: Projection<S>, log: ServerLog<S>, entity: Id, r: Replica<S>, entry: nat)
    requires ValidLog(p, log) && ConsistentPrefix(p, log, Some(entity), r) && entry < |log.events| && entry <= r.cursor
    ensures var (next, outcome) := Receive(p, r, log.events[entry]);
            && outcome != GapDetected
            && next.cursor == (if r.cursor < entry + 1 then entry + 1 else r.cursor)
            && ConsistentPrefix(p, log, Some(entity), next)
  {
    StepKeepsPrefix(p, log, Some(entity), r, Deliver(entry));
    IdsAreRedundant(p, log, Some(entity), r, entry);
  }

  /** A replica whose cursor is not below the start of an in-order stream reports no gap, and ends
      as the log's prefix up to the later of the two positions. */
  lemma {:induction false} InOrderStreamHasNoGap<S(!new)>(
    p: Projection<S>, log: ServerLog<S>, entity: Id, r: Replica<S>, from: nat, until: nat)
    requires ValidLog(p, log) && ConsistentPrefix(p, log, Some(entity), r)
    requires from <= r.cursor && from <= until <= |log.events|
    ensures GapFree(p, log, r, from, until)
    ensures var end := DeliverRange(p, log, r, from, until);
            end.cursor == (if r.cursor < until then until else r.cursor) && ConsistentPrefix(p, log, Some(entity), end)
    decreases until - from
  {
    if from < until {
      NextInOrder(p, log, entity, r, from);
      InOrderStreamHasNoGap(p, log, entity, Receive(p, r, log.events[from]).0, from + 1, until);
    }
  }

  /** A timeline loaded at a boundary not below the last forwarded event stays in step with the
      stream forwarded after it. */
  lemma HydratedStreamHasNoGap<S(!new)>(
    p: Projection<S>, log: ServerLog<S>, entity: Id, boundary: nat, forwarded: nat, until: nat)
    requires ValidLog(p, log) && entity in log.genesis
    requires forwarded <= boundary <= |log.events| && forwarded <= until <= |log.events|
    ensures var r := Hydrated(StateAt(p, log, entity, boundary), boundary);
            var end := DeliverRange(p, log, r, forwarded, until);
            && GapFree(p, log, r, forwarded, until)
            && end.cursor == (if boundary < until then until else boundary)
            && end.view == StateAt(p, log, entity, end.cursor)
  {
    InOrderStreamHasNoGap(p, log, entity, Hydrated(StateAt(p, log, entity, boundary), boundary), forwarded, until);
  }
}
