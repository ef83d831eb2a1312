/**
 Routines: validating a definition, turning a demonstration into one, and replaying it.
 */
module Recording {
  import opened Wrappers
  import opened MachineInts
  import opened Bytes

  /** Text as its UTF-8 bytes. */
  type Text = seq<Byte>

  type Uuid = nat

  datatype Value =
    | Null
    | Bool(b: bool)
    | Number(n: int)
    | String(text: Text)
    | Array(elements: seq<Value>)
    | Object(fields: map<Text, Value>)

  datatype RoutineInputKind = TextKind | NumberKind | BooleanKind | FileReference | SecretReference

  datatype RoutineInput = RoutineInput(key: Text, kind: RoutineInputKind, required: bool)

  datatype ExpectedOutput = ExpectedOutput(key: Text, required: bool)

  datatype RoutineStep =
    | BotPrompt(bot: Uuid, prompt: Text, approval: bool)
    | PluginTool(plugin: Uuid, tool: Text, arguments: Value, approval: bool)
    | RecordOutput(key: Text, template: Text)

  datatype RoutineDefinition = RoutineDefinition(
    inputs: seq<RoutineInput>, steps: seq<RoutineStep>, outputs: seq<ExpectedOutput>)

  datatype Actor = User | Bot

  datatype RecordedAction = RecordedAction(actor: Actor, step: RoutineStep)

  datatype StepStatus = Planned | Succeeded | ApprovalRequired

  datatype StepResult = StepResult(index: u32, status: StepStatus, output: Option<Value>)

  datatype Part = Key | Prompt | Tool | Output | RunInputs | UnknownInput | MissingInput | InputType

  datatype RoutineError = Empty | Invalid(part: Part) | StepFailed

  /** What the model does not look into: which texts are blank and which are identifiers. */
  datatype Texts = Texts(blank: Text -> bool, isUuid: Text -> bool)

  const MAX_STEPS: nat := 256
  const MAX_KEY: nat := 64
  const MAX_TOOL_NAME: nat := 128
  const MAX_TEXT: nat := 32_768

  // ---------------------------------------------------------------------------------------
  // Validation
  // ---------------------------------------------------------------------------------------

  predicate KeyByte(b: Byte) {
    48 <= b <= 57 || 65 <= b <= 90 || 97 <= b <= 122 || b == 95 || b == 45
  }

  predicate ValidKey(key: Text) {
    key != [] && |key| <= MAX_KEY && forall b | b in key :: KeyByte(b)
  }

  predicate IsAscii(text: Text) {
    forall b | b in text :: b < 128
  }

  /** What a step must meet by itself. */
  function LocalError(texts: Texts, step: RoutineStep): Option<RoutineError> {
    match step
    case BotPrompt(_, prompt, _) =>
      if texts.blank(prompt) || |prompt| > MAX_TEXT then Some(Invalid(Prompt)) else None
    case PluginTool(_, tool, arguments, _) =>
      if tool == [] || |tool| > MAX_TOOL_NAME || !IsAscii(tool) || !arguments.Object?
      then Some(Invalid(Tool)) else None
    case RecordOutput(key, template) =>
      if !ValidKey(key) || |template| > MAX_TEXT then Some(Invalid(Output)) else None
  }

  predicate Declares(outputs: seq<ExpectedOutput>, key: Text) {
    exists output | output in outputs :: output.key == key
  }

  function StepError(texts: Texts, outputs: seq<ExpectedOutput>, step: RoutineStep): Option<RoutineError> {
    if LocalError(texts, step).Some? then LocalError(texts, step)
    else if step.RecordOutput? && !Declares(outputs, step.key) then Some(Invalid(Output))
    else None
  }

  /** What a step must be, and what is wrong with it otherwise: a prompt that says something, a tool with a
      short name in ASCII and an object of arguments, an output under a declared key of letters, digits,
      dashes and underscores; and no text longer than 32 KiB. */
  lemma WhatStepsMustBe(texts: Texts, outputs: seq<ExpectedOutput>, step: RoutineStep)
    ensures var error := StepError(texts, outputs, step);
            match step
            case BotPrompt(_, prompt, _) =>
              error == if !texts.blank(prompt) && |prompt| <= 32_768 then None else Some(Invalid(Prompt))
            case PluginTool(_, tool, arguments, _) =>
              error == if 1 <= |tool| <= 128 && (forall b | b in tool :: b < 128) && arguments.Object? then None
                       else Some(Invalid(Tool))
            case RecordOutput(key, template) =>
              error == if 1 <= |key| <= 64 && |template| <= 32_768
                          && (exists output | output in outputs :: output.key == key)
                          && (forall b | b in key ::
                                || ('0' as int <= b as int <= '9' as int) || ('A' as int <= b as int <= 'Z' as int)
                                || ('a' as int <= b as int <= 'z' as int)
                                || b as int == '_' as int || b as int == '-' as int)
                       then None
                       else Some(Invalid(Output))
  {
  }

  predicate KeysValid(definition: RoutineDefinition) {
    && (forall input | input in definition.inputs :: ValidKey(input.key))
    && (forall output | output in definition.outputs :: ValidKey(output.key))
  }

  /** Keys of inputs and outputs are one to 64 letters, digits, dashes and underscores. */
  lemma WhatKeysMustBe(definition: RoutineDefinition, key: Text)
    ensures ValidKey(key) <==>
              && 1 <= |key| <= 64
              && forall b | b in key ::
                   || ('0' as int <= b as int <= '9' as int) || ('A' as int <= b as int <= 'Z' as int)
                   || ('a' as int <= b as int <= 'z' as int)
                   || b as int == '_' as int || b as int == '-' as int
    ensures KeysValid(definition) <==>
              && (forall i | 0 <= i < |definition.inputs| :: ValidKey(definition.inputs[i].key))
              && forall i | 0 <= i < |definition.outputs| :: ValidKey(definition.outputs[i].key)
  {
    assert forall i | 0 <= i < |definition.inputs| :: definition.inputs[i] in definition.inputs;
    assert forall i | 0 <= i < |definition.outputs| :: definition.outputs[i] in definition.outputs;
  }

  /** A definition is valid, or it fails for the first reason in the order they are checked. */
  ghost predicate Verdict(texts: Texts, definition: RoutineDefinition, error: Option<RoutineError>) {
    var n := |definition.steps|;
    if n == 0 || n > MAX_STEPS then error == Some(Empty)
    else if !KeysValid(definition) then error == Some(Invalid(Key))
    else match error
      case None => forall step | step in definition.steps :: StepError(texts, definition.outputs, step).None?
      case Some(e) =>
        exists i | 0 <= i < n ::
          && StepError(texts, definition.outputs, definition.steps[i]) == Some(e)
          && forall k | 0 <= k < i :: StepError(texts, definition.outputs, definition.steps[k]).None?
  }

  method Validate(texts: Texts, definition: RoutineDefinition) returns (error: Option<RoutineError>)
    ensures Verdict(texts, definition, error)
  {
    var steps := definition.steps;
    if |steps| == 0 || |steps| > MAX_STEPS {
      return Some(Empty);
    }
    if !KeysValid(definition) {
      return Some(Invalid(Key));
    }
    for i := 0 to |steps|
      invariant forall k | 0 <= k < i :: StepError(texts, definition.outputs, steps[k]).None?
    {
      match steps[i] {
        case BotPrompt(_, prompt, _) =>
          if texts.blank(prompt) || |prompt| > MAX_TEXT {
            return Some(Invalid(Prompt));
          }
        case PluginTool(_, tool, arguments, _) =>
          if tool == [] || |tool| > MAX_TOOL_NAME || !IsAscii(tool) || !arguments.Object? {
            return Some(Invalid(Tool));
          }
        case RecordOutput(key, template) =>
          if !ValidKey(key) || |template| > MAX_TEXT || !Declares(definition.outputs, key) {
            return Some(Invalid(Output));
          }
      }
    }
    return None;
  }

  /** Two verdicts on one definition are the same. */
  lemma VerdictIsUnique(texts: Texts, definition: RoutineDefinition, a: Option<RoutineError>, b: Option<RoutineError>)
    requires Verdict(texts, definition, a) && Verdict(texts, definition, b)
    ensures a == b
  {
  }

  // ---------------------------------------------------------------------------------------
  // Recording
  // ---------------------------------------------------------------------------------------

  function RecordedSteps(actions: seq<RecordedAction>): (steps: seq<RoutineStep>)
    ensures |steps| == |actions| && forall i | 0 <= i < |actions| :: steps[i] == actions[i].step
  {
    if actions == [] then [] else [actions[0].step] + RecordedSteps(actions[1..])
  }

  function RecordedOutputs(actions: seq<RecordedAction>): (outputs: seq<ExpectedOutput>)
    ensures forall output | output in outputs ::
              && output.required
              && exists i | 0 <= i < |actions| :: actions[i].step.RecordOutput? && actions[i].step.key == output.key
  {
    if actions == [] then []
    else
      var rest := RecordedOutputs(actions[1..]);
      if actions[0].step.RecordOutput? then [ExpectedOutput(actions[0].step.key, true)] + rest else rest
  }

  function RecordedDefinition(actions: seq<RecordedAction>): RoutineDefinition {
    RoutineDefinition([], RecordedSteps(actions), RecordedOutputs(actions))
  }

  /** Between one and 256 actions, each acceptable by itself. */
  predicate CanBeRecorded(texts: Texts, actions: seq<RecordedAction>) {
    1 <= |actions| <= MAX_STEPS && forall action | action in actions :: LocalError(texts, action.step).None?
  }

  /** Turns a demonstration into a draft. It succeeds exactly when there are between one and 256
      actions, each acceptable by itself. */
  method DefinitionFromRecording(texts: Texts, actions: seq<RecordedAction>)
    returns (r: Result<RoutineDefinition, RoutineError>)
    ensures r.Ok? <==> CanBeRecorded(texts, actions)
    ensures r.Ok? ==> r.value == RecordedDefinition(actions) && Verdict(texts, r.value, None)
    ensures r.Err? ==> Verdict(texts, RecordedDefinition(actions), Some(r.error))
  {
    var definition := RecordedDefinition(actions);
    var error := Validate(texts, definition);
    RecordingVerdict(texts, actions);
    if Verdict(texts, definition, None) {
      VerdictIsUnique(texts, definition, error, None);
    }
    return if error.Some? then Err(error.value) else Ok(definition);
  }

  lemma {:induction false} OutputsDeclared(actions: seq<RecordedAction>)
    ensures forall i | 0 <= i < |actions| && actions[i].step.RecordOutput? ::
              Declares(RecordedOutputs(actions), actions[i].step.key)
  {
    if actions != [] {
      OutputsDeclared(actions[1..]);
      var outputs, rest := RecordedOutputs(actions), RecordedOutputs(actions[1..]);
      forall i | 0 <= i < |actions| && actions[i].step.RecordOutput?
        ensures Declares(outputs, actions[i].step.key)
      {
        if i == 0 {
          assert outputs[0] in outputs;
        } else {
          assert actions[i] == actions[1..][i - 1];
          assert forall output | output in rest :: output in outputs;
        }
      }
    }
  }

  /** Recording declares every output it records, so only the steps' own checks can fail. */
  lemma RecordingVerdict(texts: Texts, actions: seq<RecordedAction>)
    ensures Verdict(texts, RecordedDefinition(actions), None) <==> CanBeRecorded(texts, actions)
  {
    var definition := RecordedDefinition(actions);
    OutputsDeclared(actions);
    forall i | 0 <= i < |actions|
      ensures StepError(texts, definition.outputs, definition.steps[i]) == LocalError(texts, actions[i].step)
      ensures actions[i].step.RecordOutput? && LocalError(texts, actions[i].step).None? ==>
              ValidKey(actions[i].step.key)
    {
    }
    hide StepError, LocalError, ValidKey, Declares;
    if 1 <= |actions| <= MAX_STEPS && forall action | action in actions :: LocalError(texts, action.step).None? {
      forall output | output in definition.outputs
        ensures ValidKey(output.key)
      {
        var i :| 0 <= i < |actions| && actions[i].step.RecordOutput? && actions[i].step.key == output.key;
        assert actions[i] in actions;
      }
      assert KeysValid(definition);
    } else if 1 <= |actions| <= MAX_STEPS {
      var action :| action in actions && LocalError(texts, action.step).Some?;
      var i :| 0 <= i < |actions| && actions[i] == action;
      assert definition.steps[i] in definition.steps;
    }
  }

  // ---------------------------------------------------------------------------------------
  // Inputs of a run
  // ---------------------------------------------------------------------------------------

  predicate HasKind(texts: Texts, kind: RoutineInputKind, value: Value) {
    match kind
    case TextKind | FileReference => value.String? && |value.text| <= MAX_TEXT
    case SecretReference => value.String? && texts.isUuid(value.text)
    case NumberKind => value.Number?
    case BooleanKind => value.Bool?
  }

  lemma WhatKindsMean(texts: Texts, value: Value)
    ensures HasKind(texts, TextKind, value) <==> value.String? && |value.text| <= 32_768
    ensures HasKind(texts, FileReference, value) <==> value.String? && |value.text| <= 32_768
    ensures HasKind(texts, SecretReference, value) <==> value.String? && texts.isUuid(value.text)
    ensures HasKind(texts, NumberKind, value) <==> value.Number?
    ensures HasKind(texts, BooleanKind, value) <==> value.Bool?
  {
  }

  predicate Expects(definition: RoutineDefinition, key: Text) {
    exists input | input in definition.inputs :: input.key == key
  }

  predicate Supplied(texts: Texts, input: RoutineInput, fields: map<Text, Value>) {
    if input.key in fields then HasKind(texts, input.kind, fields[input.key]) else !input.required
  }

  /** Exactly the inputs the definition asks for, each of its kind. */
  predicate GoodInputs(texts: Texts, definition: RoutineDefinition, inputs: Value) {
    && inputs.Object?
    && (forall key | key in inputs.fields :: Expects(definition, key))
    && forall input | input in definition.inputs :: Supplied(texts, input, inputs.fields)
  }

  /** All inputs given are expected, and the input at this place is the first that is missing or of
      another kind. */
  predicate FirstUnsupplied(texts: Texts, definition: RoutineDefinition, inputs: Value, i: nat) {
    && inputs.Object? && (forall key | key in inputs.fields :: Expects(definition, key))
    && i < |definition.inputs| && !Supplied(texts, definition.inputs[i], inputs.fields)
    && forall k | 0 <= k < i :: Supplied(texts, definition.inputs[k], inputs.fields)
  }

  /** What a run must be given: an object of the keys the definition has inputs for, each required one among
      them, and each of its kind. */
  lemma WhatInputsMustBe(texts: Texts, definition: RoutineDefinition, inputs: Value, i: nat)
    ensures GoodInputs(texts, definition, inputs) <==>
              && inputs.Object?
              && (forall key | key in inputs.fields ::
                    exists k | 0 <= k < |definition.inputs| :: definition.inputs[k].key == key)
              && forall k | 0 <= k < |definition.inputs| ::
                   var input := definition.inputs[k];
                   if input.key in inputs.fields then HasKind(texts, input.kind, inputs.fields[input.key])
                   else !input.required
    ensures FirstUnsupplied(texts, definition, inputs, i) ==>
              && i < |definition.inputs| && inputs.Object?
              && var input := definition.inputs[i];
                 if input.key in inputs.fields then !HasKind(texts, input.kind, inputs.fields[input.key])
                 else input.required
  {
    assert forall k | 0 <= k < |definition.inputs| :: definition.inputs[k] in definition.inputs;
    forall key
      ensures Expects(definition, key) <==>
                exists k | 0 <= k < |definition.inputs| :: definition.inputs[k].key == key
    {
      if Expects(definition, key) {
        var input :| input in definition.inputs && input.key == key;
        var k :| 0 <= k < |definition.inputs| && definition.inputs[k] == input;
      }
    }
    hide HasKind, Expects;
  }

  lemma OneIsFirst(texts: Texts, definition: RoutineDefinition, inputs: Value, i: nat, j: nat)
    requires FirstUnsupplied(texts, definition, inputs, i) && FirstUnsupplied(texts, definition, inputs, j)
    ensures i == j
  {
  }

  method ValidateInputs(texts: Texts, definition: RoutineDefinition, inputs: Value)
    returns (error: Option<RoutineError>)
    ensures error.None? <==> GoodInputs(texts, definition, inputs)
    ensures !inputs.Object? ==> error == Some(Invalid(RunInputs))
    ensures error == Some(Invalid(UnknownInput)) <==>
              inputs.Object? && exists key | key in inputs.fields :: !Expects(definition, key)
    // Otherwise the first input that is not supplied decides.
    ensures error == Some(Invalid(MissingInput)) <==>
              exists i: nat ::
                FirstUnsupplied(texts, definition, inputs, i) && definition.inputs[i].key !in inputs.fields
    ensures error == Some(Invalid(InputType)) <==>
              exists i: nat ::
                FirstUnsupplied(texts, definition, inputs, i) && definition.inputs[i].key in inputs.fields
  {
    if !inputs.Object? {
      return Some(Invalid(RunInputs));
    }
    if exists key | key in inputs.fields :: !Expects(definition, key) {
      return Some(Invalid(UnknownInput));
    }
    for i := 0 to |definition.inputs|
      invariant forall k | 0 <= k < i :: Supplied(texts, definition.inputs[k], inputs.fields)
    {
      var input := definition.inputs[i];
      assert input in definition.inputs;
      if !Supplied(texts, input, inputs.fields) {
        assert FirstUnsupplied(texts, definition, inputs, i);
        forall j: nat | FirstUnsupplied(texts, definition, inputs, j)
          ensures j == i
        {
          OneIsFirst(texts, definition, inputs, i, j);
        }
      }
      if input.key !in inputs.fields {
        if input.required {
          return Some(Invalid(MissingInput));
        }
      } else if !HasKind(texts, input.kind, inputs.fields[input.key]) {
        return Some(Invalid(InputType));
      }
    }
    return None;
  }

  // ---------------------------------------------------------------------------------------
  // Replay
  // ---------------------------------------------------------------------------------------

  /** What an executor answers for the step at an index. */
  datatype Executor = Executor(
    check: nat -> Option<RoutineError>,
    needsApproval: nat -> Result<bool, RoutineError>,
    execute: nat -> Result<Value, RoutineError>)

  /** A step that a replay passes and goes on from. */
  predicate Passes(executor: Executor, dryRun: bool, i: nat) {
    && executor.check(i).None?
    && (dryRun || (executor.needsApproval(i) == Ok(false) && executor.execute(i).Ok?))
  }

  /** The first step not passed, or the number of steps. */
  function FirstStop(executor: Executor, dryRun: bool, n: nat, i: nat): (stop: nat)
    requires i <= n
    ensures i <= stop <= n
    ensures forall k: nat | i <= k < stop :: Passes(executor, dryRun, k)
    ensures stop < n ==> !Passes(executor, dryRun, stop)
    decreases n - i
  {
    if i == n || !Passes(executor, dryRun, i) then i else FirstStop(executor, dryRun, n, i + 1)
  }

  function PassedResult(executor: Executor, dryRun: bool, i: nat): StepResult
    requires Passes(executor, dryRun, i)
  {
    if dryRun then StepResult(SaturateU32(i), Planned, None)
    else StepResult(SaturateU32(i), Succeeded, Some(executor.execute(i).value))
  }

  /** The results are those of the passed steps and, last, of a step that waits for approval. */
  ghost predicate ReplayResults(executor: Executor, dryRun: bool, n: nat, results: seq<StepResult>) {
    var stop := FirstStop(executor, dryRun, n, 0);
    && |results| == (if stop < n then stop + 1 else n)
    && (forall i | 0 <= i < stop :: results[i] == PassedResult(executor, dryRun, i))
    && (stop < n ==> results[stop] == StepResult(SaturateU32(stop), ApprovalRequired, None))
  }

  /** The step at which a replay stops is one that only waits for approval. */
  predicate Waits(executor: Executor, dryRun: bool, i: nat) {
    !dryRun && executor.check(i).None? && executor.needsApproval(i) == Ok(true)
  }

  function Indices(n: nat): (r: seq<nat>)
    ensures |r| == n && forall i | 0 <= i < n :: r[i] == i
  {
    if n == 0 then [] else Indices(n - 1) + [n - 1]
  }

  /** The steps whose execution is attempted: every one before the stop, and the stop itself when
      it is its execution that failed. */
  function Attempted(executor: Executor, dryRun: bool, n: nat): seq<nat> {
    var stop := FirstStop(executor, dryRun, n, 0);
    if dryRun then []
    else if stop < n && executor.check(stop).None? && executor.needsApproval(stop) == Ok(false)
    then Indices(stop + 1)
    else Indices(stop)
  }

  /** The error of a step that fails. */
  function StopError(executor: Executor, i: nat): Option<RoutineError> {
    if executor.check(i).Some? then executor.check(i)
    else match executor.needsApproval(i)
      case Err(e) => Some(e)
      case Ok(needed) => if needed || executor.execute(i).Ok? then None else Some(executor.execute(i).error)
  }

  /** Which steps a replay passes, which it executes, and what stops it: an executor that refuses the step,
      that fails, or that asks for an approval first, which alone is no error. A dry run only checks. */
  lemma WhatReplaysDo(executor: Executor, n: nat, i: nat)
    ensures Passes(executor, true, i) <==> executor.check(i).None?
    ensures Passes(executor, false, i) <==>
              executor.check(i).None? && executor.needsApproval(i) == Ok(false) && executor.execute(i).Ok?
    ensures Attempted(executor, true, n) == []
    ensures i in Attempted(executor, false, n) <==>
              && i < n && executor.check(i).None? && executor.needsApproval(i) == Ok(false)
              && forall k: nat | k < i :: Passes(executor, false, k)
    ensures executor.check(i).Some? ==> StopError(executor, i) == executor.check(i)
    ensures executor.check(i).None? && executor.needsApproval(i).Err? ==>
              StopError(executor, i) == Some(executor.needsApproval(i).error)
    ensures executor.check(i).None? && executor.needsApproval(i) == Ok(true) ==>
              Waits(executor, false, i) && StopError(executor, i) == None
    ensures executor.check(i).None? && executor.needsApproval(i) == Ok(false) && executor.execute(i).Err? ==>
              StopError(executor, i) == Some(executor.execute(i).error)
  {
    var stop := FirstStop(executor, false, n, 0);
    assert forall k: nat, m: nat :: k in Indices(m) <==> k < m by {
      forall k: nat, m: nat
        ensures k in Indices(m) <==> k < m
      {
        if k < m {
          assert Indices(m)[k] == k;
        }
      }
    }
    if i < n && forall k: nat | k < i :: Passes(executor, false, k) {
      assert i <= stop;
    }
  }

  /** A result for each step passed, in order, and at the end one for a step that waits for approval. */
  lemma WhatResultsAre(executor: Executor, dryRun: bool, n: nat, results: seq<StepResult>, i: nat)
    requires ReplayResults(executor, dryRun, n, results) && i < |results|
    ensures |results| <= n && (i + 1 < |results| ==> Passes(executor, dryRun, i))
    ensures i + 1 == |results| && Passes(executor, dryRun, i) ==> |results| == n
    ensures Passes(executor, true, i) && dryRun ==> results[i] == StepResult(SaturateU32(i), Planned, None)
    ensures Passes(executor, false, i) && !dryRun ==>
              results[i] == StepResult(SaturateU32(i), Succeeded, Some(executor.execute(i).value))
    ensures !Passes(executor, dryRun, i) ==> results[i] == StepResult(SaturateU32(i), ApprovalRequired, None)
    ensures Waits(executor, dryRun, i) <==>
              !dryRun && executor.check(i).None? && executor.needsApproval(i) == Ok(true)
  {
  }

  /** Replays a definition. Nothing is executed unless the definition and the inputs are valid. */
  method Replay(texts: Texts, executor: Executor, definition: RoutineDefinition, inputs: Value, dryRun: bool)
    returns (r: Result<seq<StepResult>, RoutineError>, executed: seq<nat>)
    ensures var n := |definition.steps|;
            var stop := FirstStop(executor, dryRun, n, 0);
            if Verdict(texts, definition, None) && GoodInputs(texts, definition, inputs) then
              && executed == Attempted(executor, dryRun, n)
              && (r.Ok? <==> stop == n || Waits(executor, dryRun, stop))
              && (r.Ok? ==> ReplayResults(executor, dryRun, n, r.value))
              && (r.Err? ==> StopError(executor, stop) == Some(r.error))
            else
              && r.Err? && executed == []
              && (!Verdict(texts, definition, None) ==> Verdict(texts, definition, Some(r.error)))
  {
    executed := [];
    var error := Validate(texts, definition);
    if error.Some? {
      assert Verdict(texts, definition, None) ==> error == None by {
        if Verdict(texts, definition, None) {
          VerdictIsUnique(texts, definition, error, None);
        }
      }
      return Err(error.value), executed;
    }
    if !inputs.Object? {
      return Err(Invalid(RunInputs)), executed;
    }
    error := ValidateInputs(texts, definition, inputs);
    if error.Some? {
      return Err(error.value), executed;
    }
    hide Verdict, GoodInputs;
    var n := |definition.steps|;
    var results: seq<StepResult> := [];
    for i := 0 to n
      invariant FirstStop(executor, dryRun, n, 0) == FirstStop(executor, dryRun, n, i)
      invariant |results| == i
      invariant forall k: nat | k < i :: Passes(executor, dryRun, k) && results[k] == PassedResult(executor, dryRun, k)
      invariant executed == if dryRun then [] else Indices(i)
    {
      var refused := executor.check(i);
      if refused.Some? {
        return Err(refused.value), executed;
      }
      if dryRun {
        results := results + [StepResult(SaturateU32(i), Planned, None)];
      } else {
        var approval := executor.needsApproval(i);
        if approval.Err? {
          return Err(approval.error), executed;
        }
        if approval.value {
          results := results + [StepResult(SaturateU32(i), ApprovalRequired, None)];
          return Ok(results), executed;
        }
        executed := executed + [i];
        var output := executor.execute(i);
        if output.Err? {
          return Err(output.error), executed;
        }
        results := results + [StepResult(SaturateU32(i), Succeeded, Some(output.value))];
      }
    }
    return Ok(results), executed;
  }

  predicate NeedsApproval(step: RoutineStep) {
    !step.RecordOutput? && step.approval
  }

  /** Only a prompt or a tool can need approval, and it says so itself. */
  lemma WhatNeedsApproval(step: RoutineStep)
    ensures NeedsApproval(step) <==> match step
              case BotPrompt(_, _, approval) => approval
              case PluginTool(_, _, _, approval) => approval
              case RecordOutput(_, _) => false
  {
  }

  /** The number of recorded steps before the first one that needs approval. */
  function UntilApproval(actions: seq<RecordedAction>): (k: nat)
    ensures k <= |actions|
    ensures forall i | 0 <= i < k :: !NeedsApproval(actions[i].step)
    ensures k < |actions| ==> NeedsApproval(actions[k].step)
  {
    if actions == [] || NeedsApproval(actions[0].step) then 0 else 1 + UntilApproval(actions[1..])
  }

  lemma FirstStopIs(executor: Executor, dryRun: bool, n: nat, k: nat)
    requires k <= n && forall i: nat | i < k :: Passes(executor, dryRun, i)
    requires k < n ==> !Passes(executor, dryRun, k)
    ensures FirstStop(executor, dryRun, n, 0) == k
  {
  }

  /** An executor that never fails and leaves approval to the steps. */
  predicate Willing(executor: Executor, actions: seq<RecordedAction>) {
    forall i | 0 <= i < |actions| ::
      && executor.check(i).None? && executor.execute(i).Ok?
      && executor.needsApproval(i) == Ok(NeedsApproval(actions[i].step))
  }

  lemma RecordingNeedsNoInputs(texts: Texts, actions: seq<RecordedAction>)
    ensures GoodInputs(texts, RecordedDefinition(actions), Object(map[]))
  {
  }

  /** A dry replay of a recording plans every step and executes none. */
  lemma RecordThenDryRun(executor: Executor, actions: seq<RecordedAction>, results: seq<StepResult>)
    requires Willing(executor, actions) && |actions| <= MAX_STEPS
    ensures var n := |actions|;
            && FirstStop(executor, true, n, 0) == n
            && Attempted(executor, true, n) == []
            && (ReplayResults(executor, true, n, results) <==>
                  |results| == n && forall i | 0 <= i < n :: results[i] == StepResult(i, Planned, None))
  {
    var n := |actions|;
    FirstStopIs(executor, true, n, n);
    forall i | 0 <= i < n
      ensures Passes(executor, true, i) && PassedResult(executor, true, i) == StepResult(i, Planned, None)
    {
    }
    hide Willing, Passes, FirstStop, PassedResult;
  }

  /** A replay of a recording executes exactly the steps before the first one that needs approval,
      and ends by asking for that approval. */
  lemma RecordThenReplay(executor: Executor, actions: seq<RecordedAction>, results: seq<StepResult>)
    requires Willing(executor, actions) && |actions| <= MAX_STEPS
    ensures var n, k := |actions|, UntilApproval(actions);
            && FirstStop(executor, false, n, 0) == k
            && Attempted(executor, false, n) == Indices(k)
            && (k < n ==> Waits(executor, false, k))
            && (ReplayResults(executor, false, n, results) <==>
                  && |results| == (if k < n then k + 1 else n)
                  && (forall i | 0 <= i < k :: results[i] == StepResult(i, Succeeded, Some(executor.execute(i).value)))
                  && (k < n ==> results[k] == StepResult(k, ApprovalRequired, None)))
  {
    var n, k := |actions|, UntilApproval(actions);
    FirstStopIs(executor, false, n, k);
    forall i | 0 <= i < k
      ensures Passes(executor, false, i)
           && PassedResult(executor, false, i) == StepResult(i, Succeeded, Some(executor.execute(i).value))
    {
    }
    hide Willing, Passes, FirstStop, PassedResult, UntilApproval;
  }

  /** Record, then dry-run: succeeds exactly when there are 1 to 256 actions each acceptable by itself,
      plans every recorded step in order and executes none. */
  method RecordAndDryRun(texts: Texts, executor: Executor, actions: seq<RecordedAction>)
    returns (r: Result<seq<StepResult>, RoutineError>, executed: seq<nat>)
    requires Willing(executor, actions)
    ensures r.Ok? <==> CanBeRecorded(texts, actions)
    ensures executed == []
    ensures r.Ok? ==>
              && |r.value| == |actions|
              && forall i | 0 <= i < |actions| :: r.value[i] == StepResult(i, Planned, None)
  {
    var drafted := DefinitionFromRecording(texts, actions);
    if drafted.Err? {
      return Err(drafted.error), [];
    }
    RecordingNeedsNoInputs(texts, actions);
    r, executed := Replay(texts, executor, drafted.value, Object(map[]), true);
    RecordThenDryRun(executor, actions, if r.Ok? then r.value else []);
  }

  /** Record, then replay: succeeds exactly for the same recordings, executes precisely the recorded
      steps before the first that needs approval, in order with matching indices, and ends by asking
      for that approval. */
  method RecordAndReplay(texts: Texts, executor: Executor, actions: seq<RecordedAction>)
    returns (r: Result<seq<StepResult>, RoutineError>, executed: seq<nat>)
    requires Willing(executor, actions)
    ensures r.Ok? <==> CanBeRecorded(texts, actions)
    ensures executed == if r.Ok? then Indices(UntilApproval(actions)) else []
    ensures r.Ok? ==>
              var n, k := |actions|, UntilApproval(actions);
              && |r.value| == (if k < n then k + 1 else n)
              && (forall i | 0 <= i < k :: r.value[i] == StepResult(i, Succeeded, Some(executor.execute(i).value)))
              && (k < n ==> r.value[k] == StepResult(k, ApprovalRequired, None))
  {
    var drafted := DefinitionFromRecording(texts, actions);
    if drafted.Err? {
      return Err(drafted.error), [];
    }
    RecordingNeedsNoInputs(texts, actions);
    r, executed := Replay(texts, executor, drafted.value, Object(map[]), false);
    RecordThenReplay(executor, actions, if r.Ok? then r.value else []);
  }
}
