/**
 One run of a provider process that speaks lines of JSON: its events, its tool calls, and the tables
 it shares with the other runs of the adapter.
 */
module GenericProcess {
  import opened Wrappers

  type Operation = nat
  type CallId = nat
  type Output = nat

  datatype Failure = InputClosed | MessageTooLong | InvalidJson | RepeatedCall | ProcessCrashed

  datatype ProviderEvent =
    | Completed
    | Cancelled
    | Failed(failure: Failure)
    | ToolCall(call: CallId)
    | OtherEvent(kind: nat)

  predicate IsTerminal(event: ProviderEvent) {
    event.Completed? || event.Cancelled? || event.Failed?
  }

  datatype Reading = Eof | ReadError | TooLong | BadJson | Event(event: ProviderEvent)

  /** What happens next: an action of another task, or the branch the loop takes. */
  datatype Moment =
    | CancelRequest
    | DuplicateStart
    | ReceiverDrops
    | Resolve(call: CallId, output: Output)
    | OtherForwards(call: CallId, other: Operation)
    | OtherEnds(ended: Operation)
    | OtherLeaves(ended: Operation)
    | NoticeCancel
    | TakeResult(written: bool)
    | Read(reading: Reading)

  /** Why the loop ended. */
  datatype Stop = CancelNoticed | Broken(failure: Failure) | Said(event: ProviderEvent) | ReceiverGone | OutputEnded

  /** The last event of a run. */
  function FinalEvent(stop: Stop): ProviderEvent {
    match stop
    case CancelNoticed => Cancelled
    case Broken(failure) => Failed(failure)
    case Said(event) => event
    case ReceiverGone => Failed(ProcessCrashed)
    case OutputEnded => Failed(ProcessCrashed)
  }

  // ---------------------------------------------------------------------------------------
  // Calls forwarded and answered
  // ---------------------------------------------------------------------------------------

  datatype CallResult = CallResult(call: CallId, output: Output)

  datatype CallStep = Forward(call: CallId) | Answer(call: CallId, output: Output)

  /** The calls that wait for an answer; none when a call is forwarded while it waits or answered
      when it does not. */
  function Waiting(log: seq<CallStep>): Option<set<CallId>> {
    if log == [] then Some({})
    else
      var before, last := Waiting(log[..|log| - 1]), log[|log| - 1];
      if before.None? then None
      else if last.Forward? then
        if last.call in before.value then None else Some(before.value + {last.call})
      else
        if last.call in before.value then Some(before.value - {last.call}) else None
  }

  function Forwards(log: seq<CallStep>): seq<CallId> {
    if log == [] then []
    else Forwards(log[..|log| - 1]) + if log[|log| - 1].Forward? then [log[|log| - 1].call] else []
  }

  function Answers(log: seq<CallStep>): seq<CallId> {
    if log == [] then []
    else Answers(log[..|log| - 1]) + if log[|log| - 1].Answer? then [log[|log| - 1].call] else []
  }

  /** The results handed in. */
  function Results(log: seq<CallStep>): seq<CallResult> {
    if log == [] then []
    else
      var last := log[|log| - 1];
      Results(log[..|log| - 1]) + if last.Answer? then [CallResult(last.call, last.output)] else []
  }

  function CallsOf(results: seq<CallResult>): (calls: seq<CallId>)
    ensures |calls| == |results| && forall i | 0 <= i < |calls| :: calls[i] == results[i].call
  {
    seq(|results|, i requires 0 <= i < |results| => results[i].call)
  }

  lemma {:induction false} ResultsAnswer(log: seq<CallStep>)
    ensures CallsOf(Results(log)) == Answers(log)
  {
    if log != [] {
      ResultsAnswer(log[..|log| - 1]);
    }
  }

  /** Every call forwarded has been answered once or still waits. */
  lemma {:induction false} CallsAreConserved(log: seq<CallStep>)
    requires Waiting(log).Some?
    ensures multiset(Forwards(log)) == multiset(Answers(log)) + multiset(Waiting(log).value)
  {
    if log != [] {
      var before, last := log[..|log| - 1], log[|log| - 1];
      CallsAreConserved(before);
      var held := Waiting(before).value;
      assert log == before + [last];
      LogOneMore(before, last);
      hide Forwards, Answers, Waiting;
      if last.Forward? {
        OneMoreWaits(Forwards(before), Answers(before), held, last.call);
      } else {
        OneLessWaits(Forwards(before), Answers(before), held, last.call);
      }
    }
  }

  lemma CountOneMore(calls: seq<CallId>, call: CallId)
    ensures multiset(calls + [call]) == multiset(calls) + multiset{call}
  {
  }

  lemma OneMoreWaits(forwards: seq<CallId>, answers: seq<CallId>, held: set<CallId>, call: CallId)
    requires multiset(forwards) == multiset(answers) + multiset(held) && call !in held
    ensures multiset(forwards + [call]) == multiset(answers) + multiset(held + {call})
  {
    CountOneMore(forwards, call);
    assert multiset(held + {call}) == multiset(held) + multiset{call};
  }

  lemma OneLessWaits(forwards: seq<CallId>, answers: seq<CallId>, held: set<CallId>, call: CallId)
    requires multiset(forwards) == multiset(answers) + multiset(held) && call in held
    ensures multiset(forwards) == multiset(answers + [call]) + multiset(held - {call})
  {
    CountOneMore(answers, call);
    assert multiset(held) == multiset(held - {call}) + multiset{call};
  }

  /** Between two forwards of one call lies its answer. */
  lemma {:induction false} NotForwardedWhileWaiting(log: seq<CallStep>, p: nat, q: nat)
    requires Waiting(log).Some? && p < q < |log|
    requires log[p].Forward? && log[q] == log[p]
    ensures exists r | p < r < q :: log[r].Answer? && log[r].call == log[p].call
    decreases |log|
  {
    var before := log[..|log| - 1];
    if q < |log| - 1 {
      NotForwardedWhileWaiting(before, p, q);
      var r :| p < r < q && before[r].Answer? && before[r].call == before[p].call;
      assert log[r] == before[r];
    } else {
      Released(before, p);
      var r :| p < r < |before| && before[r].Answer? && before[r].call == before[p].call;
      assert log[r] == before[r];
    }
  }

  lemma {:induction false} Released(log: seq<CallStep>, p: nat)
    requires Waiting(log).Some? && p < |log| && log[p].Forward? && log[p].call !in Waiting(log).value
    ensures exists r | p < r < |log| :: log[r].Answer? && log[r].call == log[p].call
    decreases |log|
  {
    var before, last := log[..|log| - 1], log[|log| - 1];
    if last.Answer? && last.call == log[p].call {
      assert log[|log| - 1] == last;
    } else if p < |log| - 1 {
      Released(before, p);
      var r :| p < r < |before| && before[r].Answer? && before[r].call == before[p].call;
      assert log[r] == before[r];
    }
  }

  lemma LogOneMore(log: seq<CallStep>, step: CallStep)
    ensures Forwards(log + [step]) == if step.Forward? then Forwards(log) + [step.call] else Forwards(log)
    ensures Answers(log + [step]) == if step.Answer? then Answers(log) + [step.call] else Answers(log)
    ensures Results(log + [step])
         == if step.Answer? then Results(log) + [CallResult(step.call, step.output)] else Results(log)
    ensures Waiting(log).Some? && (step.call in Waiting(log).value <==> step.Answer?) ==>
              Waiting(log + [step]) == Some(if step.Forward? then Waiting(log).value + {step.call}
                                            else Waiting(log).value - {step.call})
  {
    assert (log + [step])[..|log|] == log;
  }

  // ---------------------------------------------------------------------------------------
  // The run
  // ---------------------------------------------------------------------------------------

  datatype Signal = Quiet | Requested | SenderGone

  /** The cancel sender an operation has in the table: the run's own, or that of a rejected
      duplicate. */
  datatype Sender = Own | Orphan

  /** The events the process spoke. */
  function Spoken(script: seq<Moment>): seq<ProviderEvent> {
    if script == [] then []
    else
      var last := script[|script| - 1];
      Spoken(script[..|script| - 1]) + Heard(last)
  }

  lemma SpokenOneMore(script: seq<Moment>, i: nat)
    requires i < |script|
    ensures Spoken(script[..i + 1])
         == Spoken(script[..i]) + Heard(script[i])
  {
    assert script[..i + 1][..i] == script[..i];
  }

  function OwnCalls(pending: map<CallId, Operation>, operation: Operation): set<CallId> {
    set call | call in pending && pending[call] == operation
  }

  class ProcessRun {
    const operation: Operation
    // Shared with other tasks.
    var operations: map<Operation, Sender>
    var pending: map<CallId, Operation>
    var results: seq<CallResult>
    var signal: Signal
    var receiverOpen: bool
    // Seen by the outside.
    var emitted: seq<ProviderEvent>
    var written: seq<CallResult>
    ghost var log: seq<CallStep>
    ghost var lost: seq<CallResult>

    /** The calls of this run in the shared table are those that wait, and the results received
        are written in order, up to one that is lost with the process's input. */
    ghost predicate Valid()
      reads this`pending, this`results, this`written, this`log, this`lost
    {
      && Waiting(log) == Some(OwnCalls(pending, operation))
      && Results(log) == written + lost + results
    }

    /** The operation is active, and the run has its own cancel sender until it is asked to stop. */
    ghost predicate Registered()
      reads this`operations, this`signal
    {
      operation in operations && (signal == Quiet ==> operations[operation] == Own)
    }

    /** A run that was not refused: its operation was not active. */
    constructor (operation: Operation, operations: map<Operation, Sender>, pending: map<CallId, Operation>)
      requires operation !in operations && OwnCalls(pending, operation) == {}
      ensures Valid() && Registered() && this.operation == operation && this.pending == pending
      ensures this.operations == operations[operation := Own]
      ensures signal == Quiet && receiverOpen && emitted == [] && written == [] && log == [] && lost == []
    {
      this.operation := operation;
      this.operations := operations[operation := Own];
      this.pending := pending;
      results := [];
      signal := Quiet;
      receiverOpen := true;
      emitted := [];
      written := [];
      log := [];
      lost := [];
    }

    method Send(event: ProviderEvent) returns (ok: bool)
      modifies this`emitted
      ensures ok == receiverOpen
      ensures emitted == if ok then old(emitted) + [event] else old(emitted)
    {
      ok := receiverOpen;
      if ok {
        emitted := emitted + [event];
      }
    }

    /** `cancel` of another task: it reaches the run only through the run's own sender. Whether it does
        or not, the run is then asked to stop. */
    method Cancel() returns (ok: bool)
      requires Registered()
      modifies this`signal
      ensures Registered() && signal != Quiet
      ensures ok == (operations[operation] == Own)
    {
      ok := operation in operations && operations[operation] == Own;
      if ok {
        signal := Requested;
      }
    }

    /** `run` of another task for the same operation. It is refused while the operation is active,
        yet the run has lost its cancel sender, which asks it to stop; a later `cancel` is refused. */
    method StartAgain() returns (ok: bool)
      requires Registered()
      modifies this`operations, this`signal
      ensures Registered() && signal != Quiet
      ensures !ok && operations[operation] == Orphan
      ensures forall o | o != operation :: o in operations <==> o in old(operations)
      ensures forall o | o != operation && o in operations :: operations[o] == old(operations)[o]
    {
      operations := operations[operation := Orphan];
      if signal == Quiet {
        signal := SenderGone;
      }
      ok := false;
    }

    /** `resolve_tool_call` of another task. */
    method ResolveCall(call: CallId, output: Output) returns (ok: bool)
      requires Valid()
      modifies this`pending, this`results, this`log
      ensures Valid()
      ensures ok == (call in old(pending))
      ensures pending == old(pending) - {call}
      ensures ok && old(pending)[call] == operation ==>
                log == old(log) + [Answer(call, output)] && results == old(results) + [CallResult(call, output)]
      ensures !(ok && old(pending)[call] == operation) ==> log == old(log) && results == old(results)
    {
      hide Waiting, Results, Forwards;
      ok := call in pending;
      if ok {
        var owner := pending[call];
        pending := pending - {call};
        if owner == operation {
          LogOneMore(log, Answer(call, output));
          results := results + [CallResult(call, output)];
          log := log + [Answer(call, output)];
          assert OwnCalls(pending, operation) == OwnCalls(old(pending), operation) - {call};
        } else {
          assert OwnCalls(pending, operation) == OwnCalls(old(pending), operation);
        }
      }
    }

    /** What other tasks do. */
    method Interfere(moment: Moment)
      requires Valid() && Registered()
      modifies this`operations, this`pending, this`results, this`signal, this`receiverOpen, this`log
      ensures Valid() && Registered()
      ensures receiverOpen ==> old(receiverOpen)
      ensures signal != Quiet <==> old(signal) != Quiet || Asks(moment)
      ensures old(log) <= log && Forwards(log) == Forwards(old(log))
      ensures OthersStay(operation, old(pending), pending, old(operations), operations, [moment])
      ensures results == old(results)
              || (moment.Resolve? && results == old(results) + [CallResult(moment.call, moment.output)])
    {
      hide Waiting, Results;
      NothingHappens(operation, pending, operations, moment);
      match moment {
        case CancelRequest =>
          var _ := Cancel();
        case DuplicateStart =>
          var _ := StartAgain();
        case ReceiverDrops =>
          receiverOpen := false;
        case Resolve(call, output) =>
          LogOneMore(log, Answer(call, output));
          assert moment in [moment];
          var _ := ResolveCall(call, output);
        case OtherForwards(call, other) =>
          if call !in pending && other != operation {
            pending := pending[call := other];
            assert OwnCalls(pending, operation) == OwnCalls(old(pending), operation);
          }
        case OtherEnds(ended) =>
          if ended != operation {
            assert moment in [moment];
            pending := map call | call in pending && pending[call] != ended :: pending[call];
            assert OwnCalls(pending, operation) == OwnCalls(old(pending), operation);
          }
        case OtherLeaves(ended) =>
          if ended != operation {
            assert moment in [moment];
            operations := operations - {ended};
          }
        case _ =>
      }
    }

    /** Enters a call into the shared table, unless a call of that identifier waits there. */
    method RegisterCall(call: CallId) returns (ok: bool)
      requires Valid()
      modifies this`pending, this`log
      ensures Valid()
      ensures ok == (call !in old(pending))
      ensures ok ==> pending == old(pending)[call := operation] && log == old(log) + [Forward(call)]
      ensures ok ==> Forwards(log) == Forwards(old(log)) + [call]
      ensures !ok ==> pending == old(pending) && log == old(log)
    {
      hide Waiting, Results, Forwards;
      ok := call !in pending;
      if ok {
        LogOneMore(log, Forward(call));
        pending := pending[call := operation];
        log := log + [Forward(call)];
        assert OwnCalls(pending, operation) == OwnCalls(old(pending), operation) + {call};
      }
    }

    /** One reading of the process's output. */
    method HandleReading(reading: Reading, ghost spoken: seq<ProviderEvent>)
      returns (stop: Option<Stop>, terminal: bool)
      requires Valid() && Shown(emitted, receiverOpen, spoken)
      modifies this`pending, this`emitted, this`log
      ensures Valid()
      ensures Progress(Read(reading), spoken, stop, terminal, emitted, receiverOpen)
      ensures stop == match reading
                      case Eof | ReadError => Some(OutputEnded)
                      case TooLong => Some(Broken(MessageTooLong))
                      case BadJson => Some(Broken(InvalidJson))
                      case Event(event) =>
                        if event.ToolCall? && event.call in old(pending) then Some(Broken(RepeatedCall))
                        else if event.Completed? || event.Cancelled? || event.Failed? then Some(Said(event))
                        else if receiverOpen then None
                        else Some(ReceiverGone)
      ensures pending == if reading.Event? && reading.event.ToolCall? && reading.event.call !in old(pending)
                         then old(pending)[reading.event.call := operation] else old(pending)
      ensures Forwards(log) == Forwards(old(log)) + NewCalls(Read(reading), stop)
      ensures old(log) <= log
      ensures OthersStay(operation, old(pending), pending, operations, operations, [])
    {
      hide Waiting, Results, Forwards, OwnCalls, ProcessRun.Valid;
      NothingChanges(operation, pending, operations);
      terminal := false;
      match reading {
        case Eof =>
          return Some(OutputEnded), false;
        case ReadError =>
          return Some(OutputEnded), false;
        case TooLong =>
          var _ := Send(Failed(MessageTooLong));
          return Some(Broken(MessageTooLong)), true;
        case BadJson =>
          var _ := Send(Failed(InvalidJson));
          return Some(Broken(InvalidJson)), true;
        case Event(event) =>
          if event.ToolCall? {
            var registered := RegisterCall(event.call);
            if !registered {
              var _ := Send(Failed(RepeatedCall));
              return Some(Broken(RepeatedCall)), true;
            }
          }
          CallsInOne(event);
          terminal := IsTerminal(event);
          var sent := Send(event);
          if terminal {
            return Some(Said(event)), true;
          }
          return if sent then None else Some(ReceiverGone), false;
      }
    }

    /** One moment of the event loop. */
    method Step(moment: Moment, ghost spoken: seq<ProviderEvent>) returns (stop: Option<Stop>, terminal: bool)
      requires Valid() && Registered() && lost == [] && Shown(emitted, receiverOpen, spoken)
      modifies this
      ensures Valid() && Registered()
      ensures stop.None? ==> lost == []
      ensures Progress(moment, spoken, stop, terminal, emitted, receiverOpen)
      ensures stop == Some(CancelNoticed) ==> moment.NoticeCancel?
      ensures stop == Some(Broken(RepeatedCall)) <==>
                moment.Read? && moment.reading.Event? && moment.reading.event.ToolCall?
                && moment.reading.event.call in old(pending)
      ensures moment.NoticeCancel? ==> stop == if old(signal) == Quiet then None else Some(CancelNoticed)
      ensures signal != Quiet <==> old(signal) != Quiet || Asks(moment)
      ensures moment.TakeResult? && old(results) != [] ==>
                && results == old(results)[1..]
                && written == old(written) + (if moment.written then [old(results)[0]] else [])
                && stop == (if moment.written then None else Some(Broken(InputClosed)))
      ensures OthersStay(operation, old(pending), pending, old(operations), operations, [moment])
      ensures HandedIn(old(written + lost + results), written + lost + results, moment)
      ensures Forwards(log) == Forwards(old(log)) + NewCalls(moment, stop)
    {
      hide Waiting, Results, Forwards, OwnCalls, OthersStay;
      NothingHappens(operation, pending, operations, moment);
      stop, terminal := None, false;
      match moment {
        case NoticeCancel =>
          if signal != Quiet {
            stop := Some(CancelNoticed);
          }
        case TakeResult(ok) =>
          if results != [] {
            var result := results[0];
            results := results[1..];
            if ok {
              written := written + [result];
            } else {
              lost := [result];
              var _ := Send(Failed(InputClosed));
              stop, terminal := Some(Broken(InputClosed)), true;
            }
          }
        case Read(reading) =>
          stop, terminal := HandleReading(reading, spoken);
          assert [] + [moment] == [moment];
          StayLonger(operation, old(pending), pending, operations, operations, [], [moment]);
        case _ =>
          Interfere(moment);
      }
    }

    /** The event loop and its end. Exactly one terminal event is emitted, in last place; before it,
        everything the process spoke, in order. A receiver that goes away sees a prefix. The loop ends
        as cancelled exactly when it looks at its cancel signal after a cancellation or another start
        of the operation, and it never looks past that. */
    method Consume(script: seq<Moment>) returns (stop: Option<Stop>, taken: nat)
      requires Valid() && Registered() && signal == Quiet && receiverOpen && emitted == [] && lost == []
      requires Forwards(log) == []
      modifies this
      ensures Valid() && Registered()
      ensures taken <= |script| && (stop.None? ==> taken == |script|)
      ensures stop.Some? ==> 0 < taken && Causes(script[taken - 1], stop.value) && IsTerminal(FinalEvent(stop.value))
      ensures stop == Some(CancelNoticed) <==> 0 < taken && Noticed(script, taken - 1)
      ensures forall i | 0 <= i < (if stop.None? then taken else taken - 1) ::
                Continues(script[i]) && !Noticed(script, i)
      ensures NoTerminal(Spoken(script[..if stop.None? then taken else taken - 1]))
      ensures Shown(emitted, receiverOpen,
                    if stop.None? then Spoken(script[..taken])
                    else Spoken(script[..taken - 1]) + [FinalEvent(stop.value)])
      ensures var known := if stop.None? || stop == Some(ReceiverGone) then taken else taken - 1;
              Forwards(log) == CallsIn(Spoken(script[..known]))
      ensures OthersStay(operation, old(pending), pending, old(operations), operations, script[..taken])
      ensures AllHandedIn(old(written + lost + results), written + lost + results, script[..taken])
    {
      hide *;
      NothingChanges(operation, pending, operations);
      NothingHandedIn(written + lost + results);
      assert script[..0] == [];
      var terminal := false;
      taken, stop := 0, None;
      Nothing(script);
      while taken < |script| && stop.None?
        invariant Valid() && Registered()
        invariant taken <= |script| && (stop.None? ==> lost == [])
        invariant forall i | 0 <= i < (if stop.None? then taken else taken - 1) ::
                    Continues(script[i]) && !Noticed(script, i)
        invariant signal != Quiet <==> Asked(script, taken)
        invariant stop == Some(CancelNoticed) <==> 0 < taken && Noticed(script, taken - 1)
        invariant stop.None? ==> Shown(emitted, receiverOpen, Spoken(script[..taken]))
        invariant stop.None? ==> NoTerminal(Spoken(script[..taken]))
        invariant stop.None? ==> Forwards(log) == CallsIn(Spoken(script[..taken]))
        invariant stop.Some? ==> 0 < taken && NoTerminal(Spoken(script[..taken - 1]))
        invariant stop.Some? ==>
                    Progress(script[taken - 1], Spoken(script[..taken - 1]), stop, terminal, emitted, receiverOpen)
        invariant stop.Some? ==>
                    Forwards(log) == CallsIn(Spoken(script[..taken - 1])) + NewCalls(script[taken - 1], stop)
        invariant OthersStay(operation, old(pending), pending, old(operations), operations, script[..taken])
        invariant AllHandedIn(old(written + lost + results), written + lost + results, script[..taken])
        decreases |script| - taken
      {
        ghost var p, o, r := pending, operations, written + lost + results;
        ghost var spoken := Spoken(script[..taken]);
        AskedOneMore(script, taken);
        stop, terminal := Step(script[taken], spoken);
        Advance(script, taken, stop, terminal, emitted, receiverOpen);
        assert script[..taken + 1] == script[..taken] + [script[taken]];
        OthersStayOn(operation, old(pending), p, pending, old(operations), o, operations,
                     script[..taken], [script[taken]]);
        HandedInOn(old(written + lost + results), r, written + lost + results, script[..taken], script[taken]);
        taken := taken + 1;
      }
      if stop.Some? {
        LastWord(script[taken - 1], Spoken(script[..taken - 1]), stop.value, terminal, emitted, receiverOpen);
        LastCalls(script, taken - 1, stop.value);
        if stop.value.CancelNoticed? {
          var _ := Send(Cancelled);
        } else if !terminal {
          var _ := Send(Failed(ProcessCrashed));
        }
      }
    }

    /** The task of a run: the loop, what other tasks still do before it cleans up, and the cleanup.
        Afterwards no call of the run waits in the shared table, and of other runs nothing is gone that
        other tasks have not taken. */
    method Run(script: seq<Moment>, late: seq<Moment>) returns (stop: Option<Stop>, taken: nat)
      requires Valid() && Registered() && signal == Quiet && receiverOpen && emitted == [] && log == [] && lost == []
      modifies this
      ensures taken <= |script| && (stop.None? ==> taken == |script|)
      ensures stop.Some? ==> 0 < taken && Causes(script[taken - 1], stop.value) && IsTerminal(FinalEvent(stop.value))
      ensures stop == Some(CancelNoticed) <==> 0 < taken && Noticed(script, taken - 1)
      ensures forall i | 0 <= i < (if stop.None? then taken else taken - 1) ::
                Continues(script[i]) && !Noticed(script, i)
      ensures NoTerminal(Spoken(script[..if stop.None? then taken else taken - 1]))
      ensures Shown(emitted, receiverOpen,
                    if stop.None? then Spoken(script[..taken])
                    else Spoken(script[..taken - 1]) + [FinalEvent(stop.value)])
      ensures var known := if stop.None? || stop == Some(ReceiverGone) then taken else taken - 1;
              Forwards(log) == CallsIn(Spoken(script[..known]))
      ensures Waiting(log).Some? && Results(log) == written + lost + results
      ensures multiset(CallsOf(written)) <= multiset(Forwards(log))
      ensures stop.Some? ==> OwnCalls(pending, operation) == {} && operation !in operations
      // Each result written is one that was handed in.
      ensures forall result | result in written :: Resolve(result.call, result.output) in script[..taken]
      // A call of another run leaves the table only with its result or with its run.
      ensures forall call | call in old(pending) && old(pending)[call] != operation ::
                || (call in pending && pending[call] == old(pending)[call])
                || exists moment | moment in script[..taken] + late ::
                     (moment.Resolve? && moment.call == call) || moment == OtherEnds(old(pending)[call])
      ensures forall o | o in old(operations) && o != operation ::
                || (o in operations && operations[o] == old(operations)[o])
                || OtherLeaves(o) in script[..taken] + late
      ensures forall o | o in operations && o != operation :: o in old(operations)
    {
      hide *;
      NoCallsYet();
      NoResultsYet(this);
      stop, taken := Consume(script);
      ghost var p, o := pending, operations;
      WrittenWereHandedIn(old(written + lost + results), written, lost, results, script[..taken]);
      if stop.Some? {
        ghost var known := Spoken(script[..if stop == Some(ReceiverGone) then taken else taken - 1]);
        Meanwhile(late, CallsIn(known), Spoken(script[..taken - 1]) + [FinalEvent(stop.value)]);
        OthersStayOn(operation, old(pending), p, pending, old(operations), o, operations, script[..taken], late);
        WrittenWereForwarded(this);
        CleanUp();
      } else {
        WrittenWereForwarded(this);
        StayLonger(operation, old(pending), pending, old(operations), operations, script[..taken], late);
      }
      WhoStayed(operation, old(pending), pending, old(operations), operations, script[..taken] + late);
    }

    /** What other tasks do between the loop and the cleanup. */
    method Meanwhile(late: seq<Moment>, ghost forwarded: seq<CallId>, ghost said: seq<ProviderEvent>)
      requires Valid() && Registered() && Forwards(log) == forwarded && Shown(emitted, receiverOpen, said)
      modifies this`operations, this`pending, this`results, this`signal, this`receiverOpen, this`log
      ensures Valid() && Registered() && Forwards(log) == forwarded && Shown(emitted, receiverOpen, said)
      ensures OthersStay(operation, old(pending), pending, old(operations), operations, late)
    {
      hide *;
      NothingChanges(operation, pending, operations);
      assert late[..0] == [];
      for i := 0 to |late|
        invariant Valid() && Registered() && Forwards(log) == forwarded && Shown(emitted, receiverOpen, said)
        invariant OthersStay(operation, old(pending), pending, old(operations), operations, late[..i])
      {
        ghost var p, o := pending, operations;
        ClosedLater(emitted, receiverOpen, said);
        Interfere(late[i]);
        assert late[..i + 1] == late[..i] + [late[i]];
        OthersStayOn(operation, old(pending), p, pending, old(operations), o, operations, late[..i], [late[i]]);
      }
      assert late[..|late|] == late;
    }

    /** The run takes its own calls and its operation out of the tables, and nothing else. */
    method CleanUp()
      modifies this`pending, this`operations
      ensures forall call :: call in pending <==> call in old(pending) && old(pending)[call] != operation
      ensures forall call | call in pending :: pending[call] == old(pending)[call]
      ensures operations == old(operations) - {operation}
      ensures OwnCalls(pending, operation) == {} && operation !in operations
      ensures forall p, o, moments | OthersStay(operation, p, old(pending), o, old(operations), moments) ::
                OthersStay(operation, p, pending, o, operations, moments)
    {
      pending := map call | call in pending && pending[call] != operation :: pending[call];
      operations := operations - {operation};
    }
  }

  /** A start of an active operation ends the run as cancelled, although it is refused itself. */
  method DuplicateEndsTheRun(operation: Operation) returns (run: ProcessRun, stop: Option<Stop>)
    ensures fresh(run) && stop == Some(CancelNoticed) && run.emitted <= [Cancelled]
    ensures run.receiverOpen ==> run.emitted == [Cancelled]
  {
    run := new ProcessRun(operation, map[], map[]);
    var script := [DuplicateStart, NoticeCancel];
    NoCallsYet();
    assert Asks(script[0]);
    assert Noticed(script, 1);
    assert script[..1][..0] == [] && script[..1][0] == DuplicateStart;
    assert Spoken(script[..1]) == [];
    var taken;
    stop, taken := run.Run(script, []);
  }

  /** What happens to calls and operations of other runs than `own`: they go, and calls come, only
      where a moment says so. */
  ghost predicate OthersStay(own: Operation, pb: map<CallId, Operation>, pa: map<CallId, Operation>,
                             ob: map<Operation, Sender>, oa: map<Operation, Sender>, moments: seq<Moment>)
  {
    && (forall call | call in pb && pb[call] != own ::
          (call in pa && pa[call] == pb[call]) || Taken(moments, call, pb[call]))
    && (forall o | o in ob && o != own :: (o in oa && oa[o] == ob[o]) || OtherLeaves(o) in moments)
    && forall o | o in oa && o != own :: o in ob
  }

  /** Another task takes the call out of the table: with its result, or with its run. */
  predicate Taken(moments: seq<Moment>, call: CallId, owner: Operation) {
    exists moment | moment in moments :: (moment.Resolve? && moment.call == call) || moment == OtherEnds(owner)
  }

  lemma NothingChanges(own: Operation, p: map<CallId, Operation>, o: map<Operation, Sender>)
    ensures OthersStay(own, p, p, o, o, [])
  {
  }

  lemma NothingHappens(own: Operation, p: map<CallId, Operation>, o: map<Operation, Sender>, moment: Moment)
    ensures OthersStay(own, p, p, o, o, [moment])
  {
  }

  lemma StayLonger(own: Operation, pb: map<CallId, Operation>, pa: map<CallId, Operation>,
                   ob: map<Operation, Sender>, oa: map<Operation, Sender>, moments: seq<Moment>, more: seq<Moment>)
    requires OthersStay(own, pb, pa, ob, oa, moments)
    ensures OthersStay(own, pb, pa, ob, oa, moments + more)
  {
    assert forall m | m in moments :: m in moments + more;
  }

  lemma OthersStayOn(own: Operation, pa: map<CallId, Operation>, pb: map<CallId, Operation>,
                     pc: map<CallId, Operation>, oa: map<Operation, Sender>, ob: map<Operation, Sender>,
                     oc: map<Operation, Sender>, moments: seq<Moment>, more: seq<Moment>)
    requires OthersStay(own, pa, pb, oa, ob, moments) && OthersStay(own, pb, pc, ob, oc, more)
    ensures OthersStay(own, pa, pc, oa, oc, moments + more)
  {
    assert forall m | m in moments || m in more :: m in moments + more;
  }

  lemma WhoStayed(own: Operation, pb: map<CallId, Operation>, pa: map<CallId, Operation>,
                  ob: map<Operation, Sender>, oa: map<Operation, Sender>, moments: seq<Moment>)
    requires OthersStay(own, pb, pa, ob, oa, moments)
    ensures forall call | call in pb && pb[call] != own ::
              || (call in pa && pa[call] == pb[call])
              || exists moment | moment in moments ::
                   (moment.Resolve? && moment.call == call) || moment == OtherEnds(pb[call])
    ensures forall o | o in ob && o != own :: (o in oa && oa[o] == ob[o]) || OtherLeaves(o) in moments
    ensures forall o | o in oa && o != own :: o in ob
  {
  }

  /** One moment adds at most the result handed in by it. */
  predicate HandedIn(before: seq<CallResult>, after: seq<CallResult>, moment: Moment) {
    after == before || (moment.Resolve? && after == before + [CallResult(moment.call, moment.output)])
  }

  predicate AllHandedIn(before: seq<CallResult>, after: seq<CallResult>, moments: seq<Moment>) {
    forall result | result in after :: result in before || Resolve(result.call, result.output) in moments
  }

  lemma NothingHandedIn(results: seq<CallResult>)
    ensures AllHandedIn(results, results, [])
  {
  }

  lemma HandedInOn(a: seq<CallResult>, b: seq<CallResult>, c: seq<CallResult>, moments: seq<Moment>, moment: Moment)
    requires AllHandedIn(a, b, moments) && HandedIn(b, c, moment)
    ensures AllHandedIn(a, c, moments + [moment])
  {
    assert forall m | m in moments :: m in moments + [moment];
    assert moment in moments + [moment];
  }

  lemma WrittenWereHandedIn(before: seq<CallResult>, written: seq<CallResult>, lost: seq<CallResult>,
                            results: seq<CallResult>, moments: seq<Moment>)
    requires AllHandedIn(before, written + lost + results, moments) && before == []
    ensures forall result | result in written :: Resolve(result.call, result.output) in moments
  {
    assert forall result | result in written :: result in written + lost + results;
  }

  lemma NoResultsYet(run: ProcessRun)
    requires run.Valid() && run.log == []
    ensures run.written + run.lost + run.results == []
  {
  }

  lemma NoCallsYet()
    ensures Forwards([]) == [] && Results([]) == []
  {
  }

  lemma PartOf(a: seq<CallId>, b: seq<CallId>, c: seq<CallId>, d: multiset<CallId>)
    ensures multiset(a) <= multiset(a + b + c) + d
  {
    assert a + b + c == a + (b + c);
  }

  lemma ClosedLater(emitted: seq<ProviderEvent>, open: bool, all: seq<ProviderEvent>)
    requires Shown(emitted, open, all)
    ensures Shown(emitted, false, all)
  {
  }

  /** Every result written answers a call that was forwarded, no call more often than that. */
  lemma WrittenWereForwarded(run: ProcessRun)
    requires run.Valid()
    ensures Waiting(run.log).Some? && Results(run.log) == run.written + run.lost + run.results
    ensures multiset(CallsOf(run.written)) <= multiset(Forwards(run.log))
  {
    CallsAreConserved(run.log);
    ResultsAnswer(run.log);
    hide Waiting, Answers, Results, Forwards;
    CallsJoined(run.written, run.lost, run.results);
    PartOf(CallsOf(run.written), CallsOf(run.lost), CallsOf(run.results), multiset(Waiting(run.log).value));
  }

  lemma CallsJoined(a: seq<CallResult>, b: seq<CallResult>, c: seq<CallResult>)
    ensures CallsOf(a + b + c) == CallsOf(a) + CallsOf(b) + CallsOf(c)
  {
  }

  /** The process's events are spoken, all of them, and nothing else. */
  lemma WhatIsSpoken(script: seq<Moment>, moment: Moment)
    ensures Spoken(script + [moment])
         == Spoken(script) + match moment case Read(Event(event)) => [event] case _ => []
    ensures CallsIn(Spoken(script + [moment]))
         == CallsIn(Spoken(script)) + match moment case Read(Event(ToolCall(call))) => [call] case _ => []
  {
    assert (script + [moment])[..|script|] == script;
    CallsInOneMore(Spoken(script), moment);
  }

  /** What the last moment of a run has the receiver told at the end. */
  lemma LastEventTells(moment: Moment, stop: Stop)
    requires Causes(moment, stop)
    ensures match moment
            case NoticeCancel => FinalEvent(stop) == Cancelled
            case TakeResult(written) => !written && FinalEvent(stop) == Failed(InputClosed)
            case Read(Eof) | Read(ReadError) => FinalEvent(stop) == Failed(ProcessCrashed)
            case Read(TooLong) => FinalEvent(stop) == Failed(MessageTooLong)
            case Read(BadJson) => FinalEvent(stop) == Failed(InvalidJson)
            case Read(Event(event)) =>
              if event.Completed? || event.Cancelled? || event.Failed? then FinalEvent(stop) == event
              else
                || FinalEvent(stop) == Failed(ProcessCrashed)
                || (event.ToolCall? && FinalEvent(stop) == Failed(RepeatedCall))
            case _ => false
  {
  }

  /** While the receiver is there it has seen everything; otherwise a prefix. */
  predicate Shown(emitted: seq<ProviderEvent>, open: bool, all: seq<ProviderEvent>) {
    emitted <= all && (open ==> emitted == all)
  }

  predicate NoTerminal(events: seq<ProviderEvent>) {
    forall event | event in events :: !IsTerminal(event)
  }

  function Heard(moment: Moment): seq<ProviderEvent> {
    if moment.Read? && moment.reading.Event? then [moment.reading.event] else []
  }

  function CallsIn(events: seq<ProviderEvent>): seq<CallId> {
    if events == [] then []
    else
      var last := events[|events| - 1];
      CallsIn(events[..|events| - 1]) + if last.ToolCall? then [last.call] else []
  }

  /** The calls a moment forwards: not a repeated one. */
  function NewCalls(moment: Moment, stop: Option<Stop>): seq<CallId> {
    if stop.None? || stop.value.ReceiverGone? then CallsIn(Heard(moment)) else []
  }

  /** A moment the loop goes on after: not the end of the output, not a line it cannot read, not a
      terminal event. */
  predicate Continues(moment: Moment) {
    moment.Read? ==> moment.reading.Event? && !IsTerminal(moment.reading.event)
  }

  /** Another task asks the run to stop: a cancellation, or a start of the same operation. */
  predicate Asks(moment: Moment) {
    moment.CancelRequest? || moment.DuplicateStart?
  }

  predicate Asked(script: seq<Moment>, n: nat) {
    exists i | 0 <= i < n && i < |script| :: Asks(script[i])
  }

  /** The loop looks at its cancel signal after it was asked to stop. */
  predicate Noticed(script: seq<Moment>, i: nat) {
    i < |script| && script[i].NoticeCancel? && Asked(script, i)
  }

  /** The loop notices that it was asked to stop by a cancellation or another start before; it goes on after
      anything but the end of the output, a line it cannot read and a terminal event; and a receiver that is
      there has seen everything, in order. */
  lemma WhatALoopSees(script: seq<Moment>, i: nat, moment: Moment, emitted: seq<ProviderEvent>, open: bool,
                      all: seq<ProviderEvent>)
    ensures Noticed(script, i) <==>
              && i < |script| && script[i].NoticeCancel?
              && exists k | 0 <= k < i :: script[k].CancelRequest? || script[k].DuplicateStart?
    ensures !moment.Read? ==> Continues(moment)
    ensures moment.Read? ==>
              (Continues(moment) <==> match moment.reading
                 case Event(event) => !event.Completed? && !event.Cancelled? && !event.Failed?
                 case _ => false)
    ensures Shown(emitted, open, all) ==> |emitted| <= |all| && emitted == all[..|emitted|]
    ensures Shown(emitted, open, all) && open ==> emitted == all
    ensures NoTerminal(all) && i < |all| ==> !all[i].Completed? && !all[i].Cancelled? && !all[i].Failed?
  {
    assert i < |all| ==> all[i] in all;
    if i < |script| && exists k | 0 <= k < i :: script[k].CancelRequest? || script[k].DuplicateStart? {
      var k :| 0 <= k < i && (script[k].CancelRequest? || script[k].DuplicateStart?);
      assert Asks(script[k]);
    }
  }

  lemma AskedOneMore(script: seq<Moment>, n: nat)
    requires n < |script|
    ensures Asked(script, n + 1) <==> Asked(script, n) || Asks(script[n])
    ensures Noticed(script, n) <==> script[n].NoticeCancel? && Asked(script, n)
  {
  }

  predicate Causes(moment: Moment, stop: Stop) {
    match stop
    case CancelNoticed => moment.NoticeCancel?
    case OutputEnded => moment == Read(Eof) || moment == Read(ReadError)
    case Said(event) => moment == Read(Event(event)) && IsTerminal(event)
    case ReceiverGone => Heard(moment) != [] && !IsTerminal(moment.reading.event)
    case Broken(failure) =>
      match failure
      case InputClosed => moment == TakeResult(false)
      case MessageTooLong => moment == Read(TooLong)
      case InvalidJson => moment == Read(BadJson)
      case RepeatedCall => Heard(moment) != [] && moment.reading.event.ToolCall?
      case ProcessCrashed => false
  }

  /** What a moment adds to the events seen, and whether the loop has said its last word. */
  predicate Progress(moment: Moment, spoken: seq<ProviderEvent>, stop: Option<Stop>, terminal: bool,
                     emitted: seq<ProviderEvent>, open: bool)
  {
    match stop
    case None => !terminal && Continues(moment) && Shown(emitted, open, spoken + Heard(moment))
    case Some(why) =>
      && Causes(moment, why)
      && terminal == (why.Broken? || why.Said?)
      && (why.ReceiverGone? ==> !open)
      && Shown(emitted, open, spoken + if terminal then [FinalEvent(why)] else [])
  }

  lemma Nothing(script: seq<Moment>)
    ensures !Asked(script, 0)
    ensures Spoken(script[..0]) == [] && CallsIn([]) == [] && NoTerminal([]) && Shown([], true, [])
  {
  }

  lemma CallsInOne(event: ProviderEvent)
    ensures CallsIn([event]) == if event.ToolCall? then [event.call] else []
  {
    assert [event][..0] == [];
  }

  lemma CallsInOneMore(events: seq<ProviderEvent>, moment: Moment)
    ensures CallsIn(events + Heard(moment)) == CallsIn(events) + CallsIn(Heard(moment))
  {
    if Heard(moment) == [] {
      assert events + [] == events;
    } else {
      var event := moment.reading.event;
      assert (events + [event])[..|events|] == events;
      assert [event][..0] == [];
    }
  }

  lemma Advance(script: seq<Moment>, taken: nat, stop: Option<Stop>, terminal: bool,
                emitted: seq<ProviderEvent>, open: bool)
    requires taken < |script| && NoTerminal(Spoken(script[..taken]))
    requires Progress(script[taken], Spoken(script[..taken]), stop, terminal, emitted, open)
    ensures stop.None? ==> Continues(script[taken])
    ensures var spoken := Spoken(script[..taken + 1]);
            && CallsIn(spoken) == CallsIn(Spoken(script[..taken])) + CallsIn(Heard(script[taken]))
            && (stop.None? ==> NoTerminal(spoken) && Shown(emitted, open, spoken)
                               && NewCalls(script[taken], stop) == CallsIn(Heard(script[taken])))
  {
    SpokenOneMore(script, taken);
    CallsInOneMore(Spoken(script[..taken]), script[taken]);
  }

  /** After the last moment the loop emits its last event, unless it has. */
  lemma LastWord(moment: Moment, spoken: seq<ProviderEvent>, stop: Stop, terminal: bool,
                 emitted: seq<ProviderEvent>, open: bool)
    requires Progress(moment, spoken, Some(stop), terminal, emitted, open)
    ensures Causes(moment, stop) && IsTerminal(FinalEvent(stop))
    ensures stop.CancelNoticed? ==> !terminal
    ensures var all := spoken + [FinalEvent(stop)];
            && (terminal ==> Shown(emitted, open, all))
            && (!terminal && !open ==> Shown(emitted, open, all))
            && var last := if stop.CancelNoticed? then Cancelled else Failed(ProcessCrashed);
               (!terminal && open ==> Shown(emitted + [last], open, all))
  {
    assert spoken + [] == spoken;
  }

  lemma LastCalls(script: seq<Moment>, last: nat, stop: Stop)
    requires last < |script|
    ensures CallsIn(Spoken(script[..last])) + NewCalls(script[last], Some(stop))
         == CallsIn(Spoken(script[..if stop == ReceiverGone then last + 1 else last]))
  {
    SpokenOneMore(script, last);
    CallsInOneMore(Spoken(script[..last]), script[last]);
    var calls := CallsIn(Spoken(script[..last]));
    hide Spoken, CallsIn, Heard;
    assert calls + [] == calls;
  }
}
