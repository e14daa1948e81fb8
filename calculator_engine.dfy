/**
 * The calculator execution engine: a calculator definition lists typed
 * inputs, a sequence of steps (each an expression or a call to a registered
 * rule engine, its result stored under the step's id) and the ids to report.
 * Executing it validates the inputs, loads them into a context, runs the
 * steps in order recording a trace entry per step, and collects the outputs.
 *
 * Parsing of expression text, conversion of text to a float and the
 * rendering of floats in messages come from a Runtime value supplied by the
 * caller.
 */
module CalculatorEngine {
  import opened Wrappers
  import opened Text
  import opened ExprEval
  import RuleEngines

  datatype InputType = NumberInput | SelectInput | TextInput | DateInput | BooleanInput

  /** One input field; a default of NoneV means the field has no default. */
  datatype CalculatorInput = CalculatorInput(
    key: string,
    labelText: string,
    kind: InputType,
    required: bool,
    options: Option<seq<string>>,
    min: Option<real>,
    max: Option<real>,
    default: Value)

  /** A step: an expression, or else the name of a rule engine. */
  datatype CalculatorStep = CalculatorStep(
    id: string,
    expression: Option<string>,
    ruleEngine: Option<string>,
    description: string)

  datatype CalculatorDefinition = CalculatorDefinition(
    calculatorId: string,
    name: string,
    description: string,
    inputs: seq<CalculatorInput>,
    steps: seq<CalculatorStep>,
    outputs: seq<string>)

  /** What a step saw (the context before it ran) and what it produced. */
  datatype StepTrace = StepTrace(
    stepId: string,
    description: string,
    expression: Option<string>,
    ruleEngine: Option<string>,
    inputValues: map<string, Value>,
    result: Value)

  datatype ExecutionResult = ExecutionResult(
    calculatorId: string,
    calculatorName: string,
    inputs: map<string, Value>,
    steps: seq<StepTrace>,
    outputs: map<string, Value>,
    success: bool,
    error: Option<string>)

  /**
   * What the engine takes from its host: the expression parser (an error
   * carries the parser's message), float() on text (None where it raises)
   * and str() of a float.
   */
  datatype Runtime = Runtime(
    math: Math,
    parse: string -> Result<Expr, string>,
    parseFloat: string -> Option<real>,
    fmt: real -> string)

  // ------------------------------------------------------------ validation

  /** inputs.get(key): an absent key reads as None. */
  function Get(inputs: map<string, Value>, key: string): Value {
    if key in inputs then inputs[key] else NoneV
  }

  /** float(v): numbers as they are, booleans as 0 or 1, text through the parser. */
  function ToFloat(v: Value, rt: Runtime): (r: Result<real, string>)
    ensures v.Num? ==> r == Ok(v.n)
  {
    match v
    case Num(x) => Ok(x)
    case Bool(b) => Ok(if b then 1.0 else 0.0)
    case Str(s) =>
      (match rt.parseFloat(s)
       case Some(x) => Ok(x)
       case None => Err(NotAFloat + s + "'"))
    case Fn(_) => Err(FloatArgument + "'builtin_function_or_method'")
    case NoneV => Err(FloatArgument + "'NoneType'")
  }

  const NotAFloat := "could not convert string to float: '"
  const FloatArgument := "float() argument must be a string or a real number, not "

  const MissingRequired := "Missing required input: "
  const NotANumber := " must be a number"
  const AtLeast := " must be >= "
  const AtMost := " must be <= "
  const OneOf := " must be one of: "

  function MissingMessage(d: CalculatorInput): string {
    MissingRequired + d.labelText + " (" + d.key + ")"
  }

  function RangeErrors(d: CalculatorInput, x: real, rt: Runtime): seq<string> {
    (if d.min.Some? && x < d.min.value then [d.labelText + AtLeast + rt.fmt(d.min.value)] else [])
    + (if d.max.Some? && x > d.max.value then [d.labelText + AtMost + rt.fmt(d.max.value)] else [])
  }

  /** A select value must be one of the options, when there are any. */
  predicate Allowed(d: CalculatorInput, v: Value) {
    d.options.None? || d.options.value == [] || (v.Str? && v.s in d.options.value)
  }

  /** The messages one input field contributes: at most a lower and an upper bound violation. */
  function InputErrors(d: CalculatorInput, inputs: map<string, Value>, rt: Runtime): (r: seq<string>)
    ensures |r| <= 2
  {
    var value := Get(inputs, d.key);
    if d.required && value == NoneV then [MissingMessage(d)]
    else if value == NoneV then []
    else if d.kind == NumberInput then
      match ToFloat(value, rt)
      case Err(_) => [d.labelText + NotANumber]
      case Ok(x) => RangeErrors(d, x, rt)
    else if d.kind == SelectInput && !Allowed(d, value) then
      [d.labelText + OneOf + Join(d.options.value, ", ")]
    else []
  }

  /** The messages of every input field, in definition order: none without fields, at most two per field. */
  function ValidationErrors(defs: seq<CalculatorInput>, inputs: map<string, Value>, rt: Runtime): (r: seq<string>)
    ensures defs == [] ==> r == []
    ensures |r| <= 2 * |defs|
  {
    if defs == [] then []
    else ValidationErrors(defs[..|defs| - 1], inputs, rt) + InputErrors(defs[|defs| - 1], inputs, rt)
  }

  // ------------------------------------------------------------ loading

  /** The context as loaded so far, and the message of a conversion that raised. */
  datatype Loaded = Loaded(context: map<string, Value>, failure: Option<string>)

  /**
   * Load one field: the supplied value, or the default when the key is
   * absent; nothing when that is None; a number field converted to a float.
   */
  function LoadOne(d: CalculatorInput, inputs: map<string, Value>, ctx: map<string, Value>, rt: Runtime): Loaded {
    var value := if d.key in inputs then inputs[d.key] else d.default;
    if value == NoneV then Loaded(ctx, None)
    else if d.kind == NumberInput then
      match ToFloat(value, rt)
      case Ok(x) => Loaded(ctx[d.key := Num(x)], None)
      case Err(msg) => Loaded(ctx, Some(msg))
    else Loaded(ctx[d.key := value], None)
  }

  /**
   * Load the fields in order, stopping at the first conversion that raises.
   * The context only ever holds defined fields, and never holds None.
   */
  function LoadInputs(defs: seq<CalculatorInput>, inputs: map<string, Value>, rt: Runtime): (l: Loaded)
    ensures forall k :: k in l.context ==> l.context[k] != NoneV && exists i :: 0 <= i < |defs| && defs[i].key == k
  {
    if defs == [] then Loaded(map[], None)
    else
      var prev := LoadInputs(defs[..|defs| - 1], inputs, rt);
      if prev.failure.Some? then prev else LoadOne(defs[|defs| - 1], inputs, prev.context, rt)
  }

  // ------------------------------------------------------------ steps

  /** The text of the error evaluate() raises for an expression. */
  const UnknownRuleEngine := "Unknown rule engine: "
  const NothingToCompute := "' has no expression or rule_engine"

  function InvalidExpression(expression: string, msg: string): string {
    "Invalid expression '" + expression + "': " + msg
  }

  /**
   * The value of one step in a context, or the message of what it raised:
   * a non-empty expression is parsed and evaluated; otherwise a non-empty
   * rule-engine name is looked up and called with the whole context as
   * keyword arguments.
   */
  function StepResult(step: CalculatorStep, ctx: map<string, Value>, rt: Runtime): (r: Result<Value, string>)
    ensures step.expression.Some? && step.expression.value != "" && rt.parse(step.expression.value).Err? ==>
              r == Err(InvalidExpression(step.expression.value, rt.parse(step.expression.value).error))
    ensures step.expression.Some? && step.expression.value != "" && rt.parse(step.expression.value).Ok? ==>
              var v := Eval(rt.parse(step.expression.value).value, ctx, rt.math);
              (r.Ok? <==> v.Ok?) && (r.Ok? ==> r.value == v.value)
    ensures !(step.expression.Some? && step.expression.value != "") && step.ruleEngine.Some? && step.ruleEngine.value != "" ==>
              match RuleEngines.RegistryLookup(step.ruleEngine.value)
              case None => r == Err(UnknownRuleEngine + step.ruleEngine.value)
              case Some(rule) =>
                var v := RuleEngines.Invoke(rule, ctx, rt.math);
                (r.Ok? <==> v.Ok?) && (r.Ok? ==> r.value == v.value)
    ensures !(step.expression.Some? && step.expression.value != "") && !(step.ruleEngine.Some? && step.ruleEngine.value != "") ==>
              r.Err?
  {
    if step.expression.Some? && step.expression.value != "" then
      var text := step.expression.value;
      match rt.parse(text)
      case Err(msg) => Err(InvalidExpression(text, msg))
      case Ok(tree) =>
        (match Eval(tree, ctx, rt.math)
         case Ok(v) => Ok(v)
         case Err(e) => Err(InvalidExpression(text, ErrorText(e, rt.fmt))))
    else if step.ruleEngine.Some? && step.ruleEngine.value != "" then
      match RuleEngines.RegistryLookup(step.ruleEngine.value)
      case None => Err(UnknownRuleEngine + step.ruleEngine.value)
      case Some(rule) =>
        (match RuleEngines.Invoke(rule, ctx, rt.math)
         case Ok(v) => Ok(v)
         case Err(e) => Err(ErrorText(e, rt.fmt)))
    else Err("Step '" + step.id + NothingToCompute)
  }

  function TraceOf(step: CalculatorStep, ctx: map<string, Value>, v: Value): StepTrace {
    StepTrace(step.id, step.description, step.expression, step.ruleEngine, ctx, v)
  }

  /** The context after a traced step: its snapshot with the result stored under the step id. */
  function After(t: StepTrace): map<string, Value> {
    t.inputValues[t.stepId := t.result]
  }

  /** The context, the trace so far, and the message of a step that raised. */
  datatype Run = Run(context: map<string, Value>, trace: seq<StepTrace>, failure: Option<string>)

  function RunSteps(steps: seq<CalculatorStep>, ctx: map<string, Value>, rt: Runtime): (r: Run)
    ensures |r.trace| <= |steps|
    ensures r.failure.None? <==> |r.trace| == |steps|
  {
    if steps == [] then Run(ctx, [], None)
    else
      var prev := RunSteps(steps[..|steps| - 1], ctx, rt);
      var step := steps[|steps| - 1];
      if prev.failure.Some? then prev
      else
        match StepResult(step, prev.context, rt)
        case Ok(v) => Run(prev.context[step.id := v], prev.trace + [TraceOf(step, prev.context, v)], None)
        case Err(msg) => Run(prev.context, prev.trace, Some(msg))
  }

  /** The listed keys the context holds, with their values. */
  function Collect(keys: seq<string>, ctx: map<string, Value>): (out: map<string, Value>)
    ensures forall k :: k in out <==> k in keys && k in ctx
    ensures forall k :: k in out ==> out[k] == ctx[k]
  {
    if keys == [] then map[]
    else
      var prev := Collect(keys[..|keys| - 1], ctx);
      var last := keys[|keys| - 1];
      assert keys == keys[..|keys| - 1] + [last];
      if last in ctx then prev[last := ctx[last]] else prev
  }

  // ------------------------------------------------------------ execution

  function Failed(def: CalculatorDefinition, inputs: map<string, Value>, steps: seq<StepTrace>, msg: string): ExecutionResult {
    ExecutionResult(def.calculatorId, def.name, inputs, steps, map[], false, Some(msg))
  }

  /** The result of execute(): validation, loading, the steps, the outputs. */
  function ExecutionOf(def: CalculatorDefinition, inputs: map<string, Value>, rt: Runtime): (r: ExecutionResult)
    ensures r.success <==> r.error.None?
    ensures r.success ==> |r.steps| == |def.steps|
    ensures |r.steps| <= |def.steps|
  {
    var errors := ValidationErrors(def.inputs, inputs, rt);
    if errors != [] then Failed(def, inputs, [], Join(errors, "; "))
    else
      var loaded := LoadInputs(def.inputs, inputs, rt);
      if loaded.failure.Some? then Failed(def, inputs, [], loaded.failure.value)
      else
        var run := RunSteps(def.steps, loaded.context, rt);
        if run.failure.Some? then Failed(def, inputs, run.trace, run.failure.value)
        else ExecutionResult(def.calculatorId, def.name, inputs, run.trace, Collect(def.outputs, run.context), true, None)
  }

  /** The engine's context once execute() returns. */
  function FinalContext(def: CalculatorDefinition, inputs: map<string, Value>, rt: Runtime): map<string, Value> {
    if ValidationErrors(def.inputs, inputs, rt) != [] then map[]
    else
      var loaded := LoadInputs(def.inputs, inputs, rt);
      if loaded.failure.Some? then loaded.context
      else RunSteps(def.steps, loaded.context, rt).context
  }

  class CalculatorEngine {
    const definition: CalculatorDefinition
    const runtime: Runtime
    var context: map<string, Value>
    var trace: seq<StepTrace>

    constructor(definition: CalculatorDefinition, runtime: Runtime)
      ensures this.definition == definition && this.runtime == runtime
      ensures context == map[] && trace == []
    {
      this.definition := definition;
      this.runtime := runtime;
      context := map[];
      trace := [];
    }

    /** validate_inputs: every field's messages, in definition order. */
    method ValidateInputs(inputs: map<string, Value>) returns (errors: seq<string>)
      ensures errors == ValidationErrors(definition.inputs, inputs, runtime)
    {
      var defs := definition.inputs;
      errors := [];
      var i := 0;
      while i < |defs|
        invariant 0 <= i <= |defs|
        invariant errors == ValidationErrors(defs[..i], inputs, runtime)
      {
        assert defs[..i + 1][..i] == defs[..i];
        var fieldErrors := CheckInput(defs[i], inputs);
        errors := errors + fieldErrors;
        i := i + 1;
      }
      assert defs[..i] == defs;
    }

    /** The body of validate_inputs' loop for one field. */
    method CheckInput(d: CalculatorInput, inputs: map<string, Value>) returns (errors: seq<string>)
      ensures errors == InputErrors(d, inputs, runtime)
    {
      errors := [];
      var value := Get(inputs, d.key);
      if d.required && value == NoneV {
        errors := errors + [MissingMessage(d)];
        return;
      }
      if value == NoneV {
        return;
      }
      if d.kind == NumberInput {
        var x := ToFloat(value, runtime);
        if x.Err? {
          errors := errors + [d.labelText + NotANumber];
        } else {
          if d.min.Some? && x.value < d.min.value {
            errors := errors + [d.labelText + AtLeast + runtime.fmt(d.min.value)];
          }
          if d.max.Some? && x.value > d.max.value {
            errors := errors + [d.labelText + AtMost + runtime.fmt(d.max.value)];
          }
        }
      } else if d.kind == SelectInput {
        if !Allowed(d, value) {
          errors := errors + [d.labelText + OneOf + Join(d.options.value, ", ")];
        }
      }
    }

    /**
     * _execute_step: on success the result is stored under the step id and
     * the trace entry holds the context as it was before; a step that
     * raises leaves the context as it was.
     */
    method ExecuteStep(step: CalculatorStep) returns (r: Result<StepTrace, string>)
      modifies this
      ensures trace == old(trace)
      ensures StepResult(step, old(context), runtime).Ok? ==>
        var v := StepResult(step, old(context), runtime).value;
        r == Ok(TraceOf(step, old(context), v)) && context == old(context)[step.id := v]
      ensures StepResult(step, old(context), runtime).Err? ==>
        r == Err(StepResult(step, old(context), runtime).error) && context == old(context)
    {
      var snapshot := context;
      var result: Value;
      if step.expression.Some? && step.expression.value != "" {
        var text := step.expression.value;
        var tree := runtime.parse(text);
        if tree.Err? {
          return Err(InvalidExpression(text, tree.error));
        }
        var v := Eval(tree.value, context, runtime.math);
        if v.Err? {
          return Err(InvalidExpression(text, ErrorText(v.error, runtime.fmt)));
        }
        result := v.value;
      } else if step.ruleEngine.Some? && step.ruleEngine.value != "" {
        var rule := RuleEngines.RegistryLookup(step.ruleEngine.value);
        if rule.None? {
          return Err(UnknownRuleEngine + step.ruleEngine.value);
        }
        var v := RuleEngines.Invoke(rule.value, context, runtime.math);
        if v.Err? {
          return Err(ErrorText(v.error, runtime.fmt));
        }
        result := v.value;
      } else {
        return Err("Step '" + step.id + NothingToCompute);
      }
      context := context[step.id := result];
      r := Ok(TraceOf(step, snapshot, result));
    }

    /** execute: the result is ExecutionOf, and the engine keeps the final context and the trace. */
    method Execute(inputs: map<string, Value>) returns (result: ExecutionResult)
      modifies this
      ensures result == ExecutionOf(definition, inputs, runtime)
      ensures context == FinalContext(definition, inputs, runtime)
      ensures trace == result.steps
    {
      context := map[];
      trace := [];
      var errors := ValidateInputs(inputs);
      if errors != [] {
        return Failed(definition, inputs, [], Join(errors, "; "));
      }
      var failure := LoadContext(inputs);
      if failure.Some? {
        return Failed(definition, inputs, [], failure.value);
      }
      failure := RunAllSteps();
      if failure.Some? {
        return Failed(definition, inputs, trace, failure.value);
      }
      var outputs := CollectOutputs();
      result := ExecutionResult(definition.calculatorId, definition.name, inputs, trace, outputs, true, None);
    }

    /** The loading loop of execute: each field's value (or default), converted, until a conversion raises. */
    method LoadContext(inputs: map<string, Value>) returns (failure: Option<string>)
      requires context == map[]
      modifies this
      ensures LoadInputs(definition.inputs, inputs, runtime) == Loaded(context, failure)
      ensures trace == old(trace)
    {
      var defs := definition.inputs;
      var i := 0;
      while i < |defs|
        invariant 0 <= i <= |defs|
        invariant LoadInputs(defs[..i], inputs, runtime) == Loaded(context, None)
        invariant trace == old(trace)
      {
        var d := defs[i];
        assert defs[..i + 1][..i] == defs[..i];
        var value := if d.key in inputs then inputs[d.key] else d.default;
        if value != NoneV {
          if d.kind == NumberInput {
            var x := ToFloat(value, runtime);
            if x.Err? {
              LoadFailureStays(defs, inputs, runtime, i + 1);
              return Some(x.error);
            }
            value := Num(x.value);
          }
          context := context[d.key := value];
        }
        i := i + 1;
      }
      assert defs[..i] == defs;
      failure := None;
    }

    /** The step loop of execute: each step in order, until one raises. */
    method RunAllSteps() returns (failure: Option<string>)
      requires trace == []
      modifies this
      ensures RunSteps(definition.steps, old(context), runtime) == Run(context, trace, failure)
    {
      var steps := definition.steps;
      var j := 0;
      while j < |steps|
        invariant 0 <= j <= |steps|
        invariant RunSteps(steps[..j], old(context), runtime) == Run(context, trace, None)
      {
        assert steps[..j + 1][..j] == steps[..j];
        var entry := ExecuteStep(steps[j]);
        if entry.Err? {
          RunFailureStays(steps, old(context), runtime, j + 1);
          return Some(entry.error);
        }
        trace := trace + [entry.value];
        j := j + 1;
      }
      assert steps[..j] == steps;
      failure := None;
    }

    /** The output loop of execute: the listed outputs present in the context. */
    method CollectOutputs() returns (outputs: map<string, Value>)
      ensures outputs == Collect(definition.outputs, context)
    {
      outputs := map[];
      var k := 0;
      while k < |definition.outputs|
        invariant 0 <= k <= |definition.outputs|
        invariant outputs == Collect(definition.outputs[..k], context)
      {
        var key := definition.outputs[k];
        assert definition.outputs[..k + 1][..k] == definition.outputs[..k];
        if key in context {
          outputs := outputs[key := context[key]];
        }
        k := k + 1;
      }
      assert definition.outputs[..k] == definition.outputs;
    }
  }

  /** Once a conversion has raised, loading the remaining fields changes nothing. */
  lemma {:induction false} LoadFailureStays(defs: seq<CalculatorInput>, inputs: map<string, Value>, rt: Runtime, i: nat)
    requires i <= |defs| && LoadInputs(defs[..i], inputs, rt).failure.Some?
    ensures LoadInputs(defs, inputs, rt) == LoadInputs(defs[..i], inputs, rt)
  {
    if i < |defs| {
      assert defs[..|defs| - 1][..i] == defs[..i];
      LoadFailureStays(defs[..|defs| - 1], inputs, rt, i);
    } else {
      assert defs[..i] == defs;
    }
  }

  /** Once a step has raised, the remaining steps do not run. */
  lemma {:induction false} RunFailureStays(steps: seq<CalculatorStep>, ctx: map<string, Value>, rt: Runtime, j: nat)
    requires j <= |steps| && RunSteps(steps[..j], ctx, rt).failure.Some?
    ensures RunSteps(steps, ctx, rt) == RunSteps(steps[..j], ctx, rt)
  {
    if j < |steps| {
      assert steps[..|steps| - 1][..j] == steps[..j];
      RunFailureStays(steps[..|steps| - 1], ctx, rt, j);
    } else {
      assert steps[..j] == steps;
    }
  }

  // ------------------------------------------------------------ properties of validation

  /** No message at all exactly when no field contributes one. */
  lemma {:induction false} ValidationErrorsEmptyIff(defs: seq<CalculatorInput>, inputs: map<string, Value>, rt: Runtime)
    ensures ValidationErrors(defs, inputs, rt) == [] <==>
      forall i :: 0 <= i < |defs| ==> InputErrors(defs[i], inputs, rt) == []
  {
    if defs != [] {
      var init := defs[..|defs| - 1];
      ValidationErrorsEmptyIff(init, inputs, rt);
      assert forall i :: 0 <= i < |init| ==> init[i] == defs[i];
    }
  }

  /** Every required field that is absent or None gets its own "Missing required input" message. */
  lemma {:induction false} MissingRequiredReported(defs: seq<CalculatorInput>, inputs: map<string, Value>, rt: Runtime, k: nat)
    requires k < |defs| && defs[k].required && Get(inputs, defs[k].key) == NoneV
    ensures MissingMessage(defs[k]) in ValidationErrors(defs, inputs, rt)
  {
    var init := defs[..|defs| - 1];
    if k < |defs| - 1 {
      assert init[k] == defs[k];
      MissingRequiredReported(init, inputs, rt, k);
    } else {
      assert InputErrors(defs[k], inputs, rt) == [MissingMessage(defs[k])];
    }
  }

  /** The messages for an empty submission: one per required field, in order. */
  function RequiredMessages(defs: seq<CalculatorInput>): seq<string> {
    if defs == [] then []
    else
      var last := defs[|defs| - 1];
      RequiredMessages(defs[..|defs| - 1]) + (if last.required then [MissingMessage(last)] else [])
  }

  /** With nothing supplied, validation reports exactly the required fields and nothing else. */
  lemma {:induction false} NothingSuppliedReportsRequired(defs: seq<CalculatorInput>, rt: Runtime)
    ensures ValidationErrors(defs, map[], rt) == RequiredMessages(defs)
  {
    if defs != [] {
      NothingSuppliedReportsRequired(defs[..|defs| - 1], rt);
    }
  }

  /** A missing required input stops execution before any step, with a message that mentions "required". */
  lemma MissingRequiredFailsExecution(def: CalculatorDefinition, inputs: map<string, Value>, rt: Runtime, k: nat)
    requires k < |def.inputs| && def.inputs[k].required && Get(inputs, def.inputs[k].key) == NoneV
    ensures var res := ExecutionOf(def, inputs, rt);
      !res.success && res.steps == [] && res.outputs == map[] && res.error.Some?
      && Contains(Lower(res.error.value), "required")
  {
    var errors := ValidationErrors(def.inputs, inputs, rt);
    MissingRequiredReported(def.inputs, inputs, rt, k);
    var j :| 0 <= j < |errors| && errors[j] == MissingMessage(def.inputs[k]);
    JoinedMentionsRequired(errors, j, def.inputs[k]);
  }

  lemma JoinedMentionsRequired(errors: seq<string>, j: nat, d: CalculatorInput)
    requires j < |errors| && errors[j] == MissingMessage(d)
    ensures Contains(Lower(Join(errors, "; ")), "required")
  {
    JoinContains(errors, "; ", j);
    MissingMessageMentionsRequired(d);
    ContainsTransitive(Join(errors, "; "), MissingMessage(d), "required");
    LowerKeepsContains(Join(errors, "; "), "required");
    LowerOfRequired();
  }

  lemma MissingMessageMentionsRequired(d: CalculatorInput)
    ensures Contains(MissingMessage(d), "required")
  {
    var msg := MissingMessage(d);
    assert msg == "Missing required input: " + (d.labelText + " (" + d.key + ")");
    assert msg[8..16] == "required";
    assert OccursAt("required", msg, 8);
  }

  lemma LowerOfRequired()
    ensures Lower("required") == "required"
  {
    var r := Lower("required");
    assert forall i :: 0 <= i < |r| ==> r[i] == "required"[i];
  }

  // ------------------------------------------------------------ properties of loading

  /** Loading one field only adds keys. */
  lemma LoadOneKeeps(d: CalculatorInput, inputs: map<string, Value>, ctx: map<string, Value>, rt: Runtime, key: string)
    requires key in ctx
    ensures key in LoadOne(d, inputs, ctx, rt).context
  {
  }

  /** After a validation that passed and a load that did not raise, every required field is in the context. */
  lemma {:induction false} RequiredInputsLoaded(defs: seq<CalculatorInput>, inputs: map<string, Value>, rt: Runtime, k: nat)
    requires k < |defs| && defs[k].required
    requires ValidationErrors(defs, inputs, rt) == [] && LoadInputs(defs, inputs, rt).failure.None?
    ensures defs[k].key in LoadInputs(defs, inputs, rt).context
  {
    var init := defs[..|defs| - 1];
    var last := defs[|defs| - 1];
    var prev := LoadInputs(init, inputs, rt);
    assert prev.failure.None?;
    if k < |defs| - 1 {
      assert init[k] == defs[k];
      RequiredInputsLoaded(init, inputs, rt, k);
      LoadOneKeeps(last, inputs, prev.context, rt, defs[k].key);
    } else {
      assert InputErrors(last, inputs, rt) == [];
    }
  }

  // ------------------------------------------------------------ properties of the steps

  /** The context once the traced steps have run: the start, or the last snapshot plus its result. */
  function ContextAfter(ctx0: map<string, Value>, trace: seq<StepTrace>): map<string, Value> {
    if trace == [] then ctx0 else After(trace[|trace| - 1])
  }

  /**
   * The trace follows the steps in order: each entry is for its step, the
   * first holds the starting context and every later one the context its
   * predecessor left.
   */
  ghost predicate Linked(steps: seq<CalculatorStep>, ctx0: map<string, Value>, trace: seq<StepTrace>) {
    |trace| <= |steps|
    && (forall i :: 0 <= i < |trace| ==> trace[i] == TraceOf(steps[i], trace[i].inputValues, trace[i].result))
    && (|trace| > 0 ==> trace[0].inputValues == ctx0)
    && (forall i, j :: 0 <= i < j < |trace| && j == i + 1 ==> trace[j].inputValues == After(trace[i]))
  }

  /** Each entry records the value its step computes in the context the entry holds. */
  predicate Computed(steps: seq<CalculatorStep>, trace: seq<StepTrace>, rt: Runtime) {
    |trace| <= |steps|
    && forall i :: 0 <= i < |trace| ==> StepResult(steps[i], trace[i].inputValues, rt) == Ok(trace[i].result)
  }

  /** The trace of the steps that ran is linked, and the context is the one the last entry left. */
  lemma {:induction false} RunStepsChains(steps: seq<CalculatorStep>, ctx0: map<string, Value>, rt: Runtime)
    ensures var r := RunSteps(steps, ctx0, rt);
      Linked(steps, ctx0, r.trace) && r.context == ContextAfter(ctx0, r.trace)
  {
    if steps != [] {
      var init := steps[..|steps| - 1];
      var step := steps[|steps| - 1];
      assert steps == init + [step];
      RunStepsChains(init, ctx0, rt);
      var prev := RunSteps(init, ctx0, rt);
      LinkedWider(init, step, ctx0, prev.trace);
      if prev.failure.None? {
        var res := StepResult(step, prev.context, rt);
        if res.Ok? {
          LinkedExtend(init, step, ctx0, prev.trace, res.value);
        }
      }
    }
  }

  /** A linked trace stays linked when another step is planned after the ones it covers. */
  lemma LinkedWider(init: seq<CalculatorStep>, step: CalculatorStep, ctx0: map<string, Value>, trace: seq<StepTrace>)
    requires Linked(init, ctx0, trace)
    ensures Linked(init + [step], ctx0, trace)
  {
    var steps := init + [step];
    assert forall i :: 0 <= i < |init| ==> steps[i] == init[i];
  }

  /** Tracing the next step in the context the trace left extends the link. */
  lemma LinkedExtend(init: seq<CalculatorStep>, step: CalculatorStep, ctx0: map<string, Value>, trace: seq<StepTrace>, v: Value)
    requires Linked(init, ctx0, trace) && |trace| == |init|
    ensures var t := TraceOf(step, ContextAfter(ctx0, trace), v);
      Linked(init + [step], ctx0, trace + [t]) && ContextAfter(ctx0, trace + [t]) == ContextAfter(ctx0, trace)[step.id := v]
  {
    var steps := init + [step];
    var next := trace + [TraceOf(step, ContextAfter(ctx0, trace), v)];
    assert forall i :: 0 <= i < |init| ==> steps[i] == init[i];
    assert forall i :: 0 <= i < |trace| ==> next[i] == trace[i];
  }

  /** Each entry of the trace records its step's value in the context the entry holds. */
  lemma {:induction false} RunStepsComputed(steps: seq<CalculatorStep>, ctx0: map<string, Value>, rt: Runtime)
    ensures Computed(steps, RunSteps(steps, ctx0, rt).trace, rt)
  {
    if steps != [] {
      var init := steps[..|steps| - 1];
      var step := steps[|steps| - 1];
      RunStepsComputed(init, ctx0, rt);
      var prev := RunSteps(init, ctx0, rt);
      assert forall i :: 0 <= i < |init| ==> init[i] == steps[i];
      if prev.failure.None? {
        var res := StepResult(step, prev.context, rt);
        if res.Ok? {
          var trace := prev.trace + [TraceOf(step, prev.context, res.value)];
          assert forall i :: 0 <= i < |prev.trace| ==> trace[i] == prev.trace[i];
        }
      }
    }
  }

  /** A run that stopped did so at the step that raised, and its failure is that step's message. */
  lemma {:induction false} RunStopsAtFailure(steps: seq<CalculatorStep>, ctx0: map<string, Value>, rt: Runtime)
    requires RunSteps(steps, ctx0, rt).failure.Some?
    ensures var r := RunSteps(steps, ctx0, rt);
      StepResult(steps[|r.trace|], r.context, rt) == Err(r.failure.value)
  {
    var init := steps[..|steps| - 1];
    var prev := RunSteps(init, ctx0, rt);
    if prev.failure.Some? {
      RunStopsAtFailure(init, ctx0, rt);
      assert init[|prev.trace|] == steps[|prev.trace|];
    }
  }

  /** A value stays under its key through every later step that does not reuse the key. */
  lemma {:induction false} ChainKeeps(steps: seq<CalculatorStep>, ctx0: map<string, Value>, trace: seq<StepTrace>, i: nat, k: nat)
    requires Linked(steps, ctx0, trace) && i < k <= |trace|
    requires forall j :: i < j < k ==> steps[j].id != steps[i].id
    ensures steps[i].id in After(trace[k - 1]) && After(trace[k - 1])[steps[i].id] == trace[i].result
  {
    assert trace[k - 1].stepId == steps[k - 1].id;
    if k - 1 > i {
      ChainKeeps(steps, ctx0, trace, i, k - 1);
      assert trace[k - 1].inputValues == After(trace[k - 2]);
    }
  }

  /**
   * A run that validated and loaded: the trace is linked from the loaded
   * context and records each step's value; a failure is the message of the
   * first step that raised, with the steps before it still in the trace.
   */
  lemma ExecutionTrace(def: CalculatorDefinition, inputs: map<string, Value>, rt: Runtime)
    requires ValidationErrors(def.inputs, inputs, rt) == [] && LoadInputs(def.inputs, inputs, rt).failure.None?
    ensures var res := ExecutionOf(def, inputs, rt);
      var ctx0 := LoadInputs(def.inputs, inputs, rt).context;
      Linked(def.steps, ctx0, res.steps) && Computed(def.steps, res.steps, rt)
      && (!res.success ==> StepResult(def.steps[|res.steps|], ContextAfter(ctx0, res.steps), rt) == Err(res.error.value))
      && (res.success ==> FinalContext(def, inputs, rt) == ContextAfter(ctx0, res.steps))
  {
    var ctx0 := LoadInputs(def.inputs, inputs, rt).context;
    RunStepsChains(def.steps, ctx0, rt);
    RunStepsComputed(def.steps, ctx0, rt);
    if RunSteps(def.steps, ctx0, rt).failure.Some? {
      RunStopsAtFailure(def.steps, ctx0, rt);
    }
  }

  /**
   * After a successful execution a step's result is in the context under
   * its id, unless a later step reuses the id, and is reported when the id
   * is listed as an output.
   */
  lemma StoredUnderId(def: CalculatorDefinition, inputs: map<string, Value>, rt: Runtime, i: nat)
    requires ExecutionOf(def, inputs, rt).success && i < |def.steps|
    requires forall j :: i < j < |def.steps| ==> def.steps[j].id != def.steps[i].id
    ensures var res := ExecutionOf(def, inputs, rt);
      var id := def.steps[i].id;
      id in FinalContext(def, inputs, rt) && FinalContext(def, inputs, rt)[id] == res.steps[i].result
      && (id in def.outputs ==> id in res.outputs && res.outputs[id] == res.steps[i].result)
  {
    var ctx0 := LoadInputs(def.inputs, inputs, rt).context;
    RunStoresUnderId(def.steps, ctx0, rt, i);
  }

  /** After a run that completed, a step's result is under its id unless a later step reuses the id. */
  lemma RunStoresUnderId(steps: seq<CalculatorStep>, ctx0: map<string, Value>, rt: Runtime, i: nat)
    requires RunSteps(steps, ctx0, rt).failure.None? && i < |steps|
    requires forall j :: i < j < |steps| ==> steps[j].id != steps[i].id
    ensures var r := RunSteps(steps, ctx0, rt);
      steps[i].id in r.context && r.context[steps[i].id] == r.trace[i].result
  {
    RunStepsChains(steps, ctx0, rt);
    ChainKeeps(steps, ctx0, RunSteps(steps, ctx0, rt).trace, i, |steps|);
  }
}
