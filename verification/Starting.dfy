/**
 Starting runs of an OpenAI-compatible provider: the table of active operations, shared by the tasks that
 start runs, the tasks of the runs, and whoever cancels one.
 */
module Starting {
  import opened Wrappers
  import opened ToolLoop

  datatype Refusal = PlanMode | NeedsReplay | AlreadyActive

  datatype End = Refused(reason: Refusal) | NoSecret | NoResponse | Finished

  /** Where a start, and the run it leads to, stands. */
  datatype Stage = Registered | Authorized | Running | CleaningUp | Over(end: End)

  datatype Attempt = Attempt(operation: Operation, stage: Stage)

  /** A step of one of the tasks: a start, and then the secret, the response, the end of the stream and
      the cleanup of a start made before; or a cancellation. */
  datatype Moment =
    | Start(operation: Operation, plan: bool, previous: bool)
    | ResolveSecret(attempt: nat, ok: bool)
    | Respond(attempt: nat, ok: bool)
    | StreamEnds(attempt: nat)
    | CleanUp(attempt: nat)
    | CancelRun(operation: Operation)

  /** The attempt keeps its operation in the table. */
  predicate Holds(attempt: Attempt) {
    !attempt.stage.Over? || attempt.stage.end.NoSecret?
  }

  predicate HeldBy(attempts: seq<Attempt>, o: Operation, k: nat) {
    k < |attempts| && attempts[k].operation == o && Holds(attempts[k])
  }

  /** The attempt's receiver of cancellations is there. */
  predicate Listens(attempt: Attempt) {
    attempt.stage.Registered? || attempt.stage.Authorized? || attempt.stage.Running?
  }

  /** A start of the operation has failed to resolve its secret. */
  predicate Stuck(attempts: seq<Attempt>, o: Operation) {
    Attempt(o, Over(NoSecret)) in attempts
  }

  /** No attempt is forgotten, and what is over stays so. */
  predicate Later(before: seq<Attempt>, after: seq<Attempt>) {
    && |before| <= |after|
    && forall k | 0 <= k < |before| ::
         after[k].operation == before[k].operation && (before[k].stage.Over? ==> after[k] == before[k])
  }

  /** The starts made meanwhile of operations that are stuck have been refused. */
  predicate RefusedSince(before: seq<Attempt>, after: seq<Attempt>) {
    forall k | |before| <= k < |after| && Stuck(before, after[k].operation) ::
      after[k].stage.Over? && after[k].stage.end.Refused?
  }

  /** An operation is in the table exactly when an attempt holds it, and one attempt does; the sender
      is its own or that of a start that was refused. */
  ghost predicate TableValid(operations: map<Operation, nat>, attempts: seq<Attempt>) {
    && (forall k | 0 <= k < |attempts| && Holds(attempts[k]) :: attempts[k].operation in operations)
    && (forall o | o in operations :: exists k: nat :: HeldBy(attempts, o, k))
    && (forall j, k | 0 <= j < k < |attempts| && Holds(attempts[j]) && Holds(attempts[k]) ::
          attempts[j].operation != attempts[k].operation)
    && forall o | o in operations ::
         && operations[o] < |attempts| && attempts[operations[o]].operation == o
         && (Holds(attempts[operations[o]]) || attempts[operations[o]].stage == Over(Refused(AlreadyActive)))
  }

  /** A start that is refused before the table is looked at leaves it alone. */
  lemma RefuseEarly(operations: map<Operation, nat>, attempts: seq<Attempt>, o: Operation, refusal: Refusal)
    requires TableValid(operations, attempts)
    ensures TableValid(operations, attempts + [Attempt(o, Over(Refused(refusal)))])
  {
    var after := attempts + [Attempt(o, Over(Refused(refusal)))];
    assert forall p, k | HeldBy(attempts, p, k) :: HeldBy(after, p, k);
  }

  /** A start of an active operation takes its sender's place in the table and is refused. */
  lemma RefuseActive(operations: map<Operation, nat>, attempts: seq<Attempt>, o: Operation)
    requires TableValid(operations, attempts) && o in operations
    ensures TableValid(operations[o := |attempts|], attempts + [Attempt(o, Over(Refused(AlreadyActive)))])
  {
    var after := attempts + [Attempt(o, Over(Refused(AlreadyActive)))];
    assert forall p, k | HeldBy(attempts, p, k) :: HeldBy(after, p, k);
  }

  /** Any other start takes a place in the table. */
  lemma EnterNew(operations: map<Operation, nat>, attempts: seq<Attempt>, o: Operation)
    requires TableValid(operations, attempts) && o !in operations
    ensures TableValid(operations[o := |attempts|], attempts + [Attempt(o, Registered)])
  {
    var after := attempts + [Attempt(o, Registered)];
    assert forall p, k | HeldBy(attempts, p, k) :: HeldBy(after, p, k);
    assert HeldBy(after, o, |attempts|);
  }

  class Adapter {
    const style: Style
    // Whose sender of cancellations is kept for each active operation.
    var operations: map<Operation, nat>
    var attempts: seq<Attempt>

    ghost predicate Valid()
      reads this
    {
      TableValid(operations, attempts)
    }

    constructor (style: Style)
      ensures Valid() && attempts == [] && operations == map[] && this.style == style
    {
      this.style := style;
      operations := map[];
      attempts := [];
    }

    /** Checks a start and enters it; the sender is replaced even when the operation is active. */
    method Enter(o: Operation, plan: bool, previous: bool) returns (refusal: Option<Refusal>)
      requires Valid()
      modifies this
      ensures Valid()
      ensures refusal == if plan then Some(PlanMode)
                         else if style.Chat? && previous then Some(NeedsReplay)
                         else if o in old(operations) then Some(AlreadyActive)
                         else None
      ensures var stage := if refusal.Some? then Over(Refused(refusal.value)) else Registered;
              attempts == old(attempts) + [Attempt(o, stage)]
      ensures operations.Keys == if refusal.Some? then old(operations).Keys else old(operations).Keys + {o}
    {
      if plan || (style.Chat? && previous) {
        refusal := Some(if plan then PlanMode else NeedsReplay);
        RefuseEarly(operations, attempts, o, refusal.value);
        hide TableValid;
        attempts := attempts + [Attempt(o, Over(Refused(refusal.value)))];
        return;
      }
      refusal := if o in operations then Some(AlreadyActive) else None;
      if refusal.Some? {
        RefuseActive(operations, attempts, o);
      } else {
        EnterNew(operations, attempts, o);
      }
      hide TableValid;
      var stage := if refusal.Some? then Over(Refused(AlreadyActive)) else Registered;
      operations := operations[o := |attempts|];
      attempts := attempts + [Attempt(o, stage)];
    }

    /** Moves an attempt on; it keeps its operation. */
    method Move(k: nat, stage: Stage)
      requires Valid() && k < |attempts| && !attempts[k].stage.Over? && Holds(attempts[k].(stage := stage))
      modifies this`attempts
      ensures Valid() && attempts == old(attempts)[k := old(attempts)[k].(stage := stage)]
    {
      attempts := attempts[k := attempts[k].(stage := stage)];
      assert forall p, j | HeldBy(old(attempts), p, j) :: HeldBy(attempts, p, j);
    }

    /** Ends an attempt and takes its operation out of the table. */
    method Remove(k: nat, end: End)
      requires Valid() && k < |attempts| && !attempts[k].stage.Over? && !end.NoSecret?
      modifies this
      ensures Valid() && attempts == old(attempts)[k := old(attempts)[k].(stage := Over(end))]
      ensures operations == old(operations) - {old(attempts)[k].operation}
    {
      ghost var before := attempts;
      operations := operations - {attempts[k].operation};
      attempts := attempts[k := attempts[k].(stage := Over(end))];
      forall o | o in operations
        ensures exists j: nat :: HeldBy(attempts, o, j)
      {
        var j: nat :| HeldBy(before, o, j);
        assert HeldBy(attempts, o, j);
      }
    }

    /** A cancellation reaches the run whose sender is kept, while it listens. */
    method Cancel(o: Operation) returns (ok: bool)
      requires Valid()
      ensures ok <==>
                && o in operations
                && var stage := attempts[operations[o]].stage; stage.Registered? || stage.Authorized? || stage.Running?
      ensures Stuck(attempts, o) ==> !ok
    {
      ok := o in operations && Listens(attempts[operations[o]]);
    }

    method Step(moment: Moment)
      requires Valid()
      modifies this
      ensures Valid() && Later(old(attempts), attempts) && RefusedSince(old(attempts), attempts)
      // What each step does to the attempts, and to the table.
      ensures match moment
              case Start(o, plan, previous) =>
                && |attempts| == |old(attempts)| + 1 && old(attempts) <= attempts
                && var refusal := if plan then Some(PlanMode)
                                  else if style.Chat? && previous then Some(NeedsReplay)
                                  else if o in old(operations) then Some(AlreadyActive)
                                  else None;
                   attempts[|old(attempts)|]
                   == Attempt(o, if refusal.Some? then Over(Refused(refusal.value)) else Registered)
              case ResolveSecret(k, ok) =>
                if k < |old(attempts)| && old(attempts)[k].stage.Registered? then
                  var stage := if ok then Authorized else Over(NoSecret);
                  attempts == old(attempts)[k := Attempt(old(attempts)[k].operation, stage)]
                else attempts == old(attempts)
              case Respond(k, ok) =>
                if k < |old(attempts)| && old(attempts)[k].stage.Authorized? then
                  var stage := if ok then Running else Over(NoResponse);
                  attempts == old(attempts)[k := Attempt(old(attempts)[k].operation, stage)]
                else attempts == old(attempts)
              case StreamEnds(k) =>
                if k < |old(attempts)| && old(attempts)[k].stage.Running? then
                  attempts == old(attempts)[k := Attempt(old(attempts)[k].operation, CleaningUp)]
                else attempts == old(attempts)
              case CleanUp(k) =>
                if k < |old(attempts)| && old(attempts)[k].stage.CleaningUp? then
                  attempts == old(attempts)[k := Attempt(old(attempts)[k].operation, Over(End.Finished))]
                else attempts == old(attempts)
              case CancelRun(_) => attempts == old(attempts) && operations == old(operations)
    {
      NothingMoved(attempts);
      if moment.ResolveSecret? || moment.Respond? || moment.StreamEnds? || moment.CleanUp? {
        OneMoved(attempts, moment.attempt);
      }
      hide Adapter.Valid, Stuck, Later, RefusedSince;
      match moment
      case Start(o, plan, previous) =>
        StuckIsRegistered(this, o);
        ghost var before := attempts;
        var _ := Enter(o, plan, previous);
        OneMore(before, attempts[|before|]);
      case ResolveSecret(k, ok) =>
        if k < |attempts| && attempts[k].stage.Registered? {
          Move(k, if ok then Authorized else Over(NoSecret));
        }
      case Respond(k, ok) =>
        if k < |attempts| && attempts[k].stage.Authorized? {
          if ok {
            Move(k, Running);
          } else {
            Remove(k, NoResponse);
          }
        }
      case StreamEnds(k) =>
        if k < |attempts| && attempts[k].stage.Running? {
          Move(k, CleaningUp);
        }
      case CleanUp(k) =>
        if k < |attempts| && attempts[k].stage.CleaningUp? {
          Remove(k, End.Finished);
        }
      case CancelRun(o) =>
        var _ := Cancel(o);
    }

    /** Any interleaving of steps. Once a start of an operation has failed to resolve its secret, every
        later start of that operation is refused. */
    method Run(script: seq<Moment>)
      requires Valid()
      modifies this
      ensures Valid() && Later(old(attempts), attempts) && RefusedSince(old(attempts), attempts)
    {
      for i := 0 to |script|
        invariant Valid() && Later(old(attempts), attempts) && RefusedSince(old(attempts), attempts)
      {
        ghost var here := attempts;
        Step(script[i]);
        RefusedOn(old(attempts), here, attempts);
      }
    }
  }

  lemma NothingMoved(a: seq<Attempt>)
    ensures Later(a, a) && RefusedSince(a, a)
  {
  }

  lemma OneMore(a: seq<Attempt>, attempt: Attempt)
    requires Stuck(a, attempt.operation) ==> attempt.stage.Over? && attempt.stage.end.Refused?
    ensures Later(a, a + [attempt]) && RefusedSince(a, a + [attempt])
  {
  }

  lemma OneMoved(a: seq<Attempt>, k: nat)
    ensures k < |a| && !a[k].stage.Over? ==>
              forall stage :: Later(a, a[k := a[k].(stage := stage)]) && RefusedSince(a, a[k := a[k].(stage := stage)])
  {
  }

  lemma RefusedOn(a: seq<Attempt>, b: seq<Attempt>, c: seq<Attempt>)
    requires Later(a, b) && Later(b, c) && RefusedSince(a, b) && RefusedSince(b, c)
    ensures Later(a, c) && RefusedSince(a, c)
  {
    forall k | |a| <= k < |c| && Stuck(a, c[k].operation)
      ensures c[k].stage.Over? && c[k].stage.end.Refused?
    {
      var j :| 0 <= j < |a| && a[j] == Attempt(c[k].operation, Over(NoSecret));
      assert b[j] == a[j];
    }
  }

  lemma StuckIsRegistered(adapter: Adapter, o: Operation)
    requires adapter.Valid()
    ensures Stuck(adapter.attempts, o) ==> o in adapter.operations
  {
  }

  /** An operation is registered exactly when a start of it is under way, its run is not cleaned up yet,
      or a start of it has failed to resolve its secret. */
  lemma RegisteredExactly(adapter: Adapter, o: Operation)
    requires adapter.Valid()
    ensures o in adapter.operations <==>
              || Stuck(adapter.attempts, o)
              || exists k :: 0 <= k < |adapter.attempts| && adapter.attempts[k].operation == o
                             && !adapter.attempts[k].stage.Over?
  {
    if o in adapter.operations {
      var k: nat :| HeldBy(adapter.attempts, o, k);
      assert adapter.attempts[k] in adapter.attempts;
    }
  }

  /** The failing input: a start without a secret, and a second start of its operation, on an adapter on
      which nothing runs. */
  method StuckAfterOneFailure(style: Style, o: Operation) returns (adapter: Adapter, refusal: Option<Refusal>)
    ensures fresh(adapter) && adapter.Valid() && refusal == Some(AlreadyActive)
    ensures forall k | 0 <= k < |adapter.attempts| :: adapter.attempts[k].stage.Over?
  {
    hide Adapter.Valid;
    adapter := new Adapter(style);
    refusal := adapter.Enter(o, false, false);
    adapter.Move(0, Over(NoSecret));
    refusal := adapter.Enter(o, false, false);
  }
}
