/** CodephyValidator: schema errors (supplied by the schema library) followed
    by the semantic checks, in the source's order: top-level fields, name
    collisions, undefined references, circular dependencies, constraints and
    distribution types; for the "complete model" test case, errors mentioning
    PhyloCTMC or substitutionModel are dropped.

    Each check is a function giving its error list and a method with the
    source's loops proved to compute it.  An exception that escapes
    `validateModel` is `Fail`. */
module Validator {
  import opened Results
  import opened Json
  import opened Lists
  import Text
  import CycleCheck

  // ---------------------------------------------------------------------
  // Error messages
  // ---------------------------------------------------------------------

  const MissingTopLevel: string :=
    "Missing required top-level fields. Model must contain 'model', 'codephyVersion', and 'randomVariables'"

  function SchemaError(message: string, path: string): string
  {
    "Schema validation error: " + message + " (Path: " + path + ")"
  }

  function CollisionError(names: seq<string>): string
  {
    "Name collision: " + Text.Join(", ", names) + " used for both random variable and deterministic function"
  }

  function VariableReferenceError(varName: string, target: string): string
  {
    "Random variable '" + varName + "' references undefined variable '" + target + "'"
  }

  function FunctionReferenceError(funcName: string, target: string): string
  {
    "Deterministic function '" + funcName + "' references undefined variable '" + target + "'"
  }

  function ConstraintReferenceError(n: nat, target: string): string
  {
    "Constraint #" + Text.NatToText(n) + " references undefined variable '" + target + "'"
  }

  function CycleCheckError(message: string): string
  {
    "Error checking for circular dependencies: " + message
  }

  function MissingTypeError(n: nat): string
  {
    "Constraint #" + Text.NatToText(n) + " is missing 'type' field"
  }

  function InvalidTypeError(n: nat, t: string): string
  {
    "Constraint #" + Text.NatToText(n) + " has invalid type '" + t + "'. Valid types: " + Text.Join(", ", ValidConstraintTypes)
  }

  function MissingOperandsError(n: nat): string
  {
    "Constraint #" + Text.NatToText(n) + " is missing 'left' or 'right' field"
  }

  function BoundedFieldsError(n: nat): string
  {
    "Constraint #" + Text.NatToText(n) + " of type 'bounded' is missing required fields"
  }

  function SumToFieldsError(n: nat): string
  {
    "Constraint #" + Text.NatToText(n) + " of type 'sumTo' is missing required fields"
  }

  function GeneratesError(varName: string, distType: string, generates: string, expected: seq<string>): string
  {
    "Random variable '" + varName + "' has distribution type '" + distType + "' but generates type '" + generates
      + "'. Expected generates types: " + Text.Join(" or ", expected)
  }

  function DimensionError(varName: string, distType: string, generates: string): string
  {
    "Random variable '" + varName + "' has distribution type '" + distType + "' but generates type '" + generates
      + "' without required dimension parameter. When a scalar distribution generates a vector, a dimension parameter is required."
  }

  // ---------------------------------------------------------------------
  // Tables
  // ---------------------------------------------------------------------

  /** The valid constraint types in the iteration order of their `HashSet`
      (16 buckets, placed by `String.hashCode`), which is the order the
      invalid-type message lists them in. */
  const ValidConstraintTypes: seq<string> := ["lessThan", "equals", "bounded", "sumTo", "greaterThan"]
  const Comparisons: seq<string> := ["lessThan", "greaterThan", "equals"]
  const ScalarDistributions: seq<string> := ["LogNormal", "Normal", "Gamma", "Beta", "Exponential", "Uniform"]

  /** The `generates` types each known distribution type admits, in the
      iteration order of their `HashSet` (placed by `String.hashCode`). */
  function ExpectedGenerates(distType: string): Option<seq<string>>
  {
    if distType in ScalarDistributions then Some(["REAL_VECTOR", "REAL"])
    else if distType in ["Dirichlet", "MultivariateNormal"] then Some(["REAL_VECTOR"])
    else if distType in ["Yule", "BirthDeath", "Coalescent", "ConstrainedYule"] then Some(["TREE"])
    else if distType == "PhyloCTMC" then Some(["ALIGNMENT"])
    else None
  }

  // ---------------------------------------------------------------------
  // Schema errors
  // ---------------------------------------------------------------------

  /** One error per message of the schema library, in its order. */
  function SchemaErrors(messages: seq<(string, string)>): (r: seq<string>)
    ensures |r| == |messages|
    ensures forall k | 0 <= k < |r| :: r[k] == SchemaError(messages[k].0, messages[k].1)
  {
    seq(|messages|, k requires 0 <= k < |messages| => SchemaError(messages[k].0, messages[k].1))
  }

  /** `validateSchema`, given the (message, path) pairs the schema reports. */
  method ValidateSchema(messages: seq<(string, string)>) returns (errors: seq<string>)
    ensures errors == SchemaErrors(messages)
  {
    errors := [];
    var i := 0;
    while i < |messages|
      invariant i <= |messages|
      invariant errors == SchemaErrors(messages[..i])
    {
      errors := errors + [SchemaError(messages[i].0, messages[i].1)];
      i := i + 1;
    }
    assert messages[..i] == messages;
  }

  // ---------------------------------------------------------------------
  // Name collisions
  // ---------------------------------------------------------------------

  /** The random-variable names that are also function names, in the order
      of the random variables. */
  function CommonNames(rvNames: seq<string>, funcs: Json): (r: seq<string>)
    ensures forall n :: n in r <==> n in rvNames && Has(funcs, n)
  {
    Filter(rvNames, InFunctions(funcs))
  }

  function InFunctions(funcs: Json): string -> bool
  {
    (n: string) => Has(funcs, n)
  }

  function CollisionErrors(randomVars: Json, funcs: Json): seq<string>
  {
    var common := CommonNames(FieldNames(randomVars), funcs);
    if |common| == 0 then [] else [CollisionError(common)]
  }

  /** At most one collision error, present exactly when some name is both a
      random variable and a function, and naming exactly those names. */
  lemma CollisionReported(randomVars: Json, funcs: Json)
    ensures |CollisionErrors(randomVars, funcs)| <= 1
    ensures CollisionErrors(randomVars, funcs) == [] <==> forall n | n in FieldNames(randomVars) :: !Has(funcs, n)
    ensures CollisionErrors(randomVars, funcs) != [] ==>
      exists names :: CollisionErrors(randomVars, funcs) == [CollisionError(names)] &&
        forall n :: n in names <==> n in FieldNames(randomVars) && Has(funcs, n)
  {
    var common := CommonNames(FieldNames(randomVars), funcs);
    if |common| > 0 {
      assert common[0] in common;
    }
  }

  /** The collision loop of `validateSemantics` over the random-variable
      names. */
  method FindCommonNames(names: seq<string>, funcs: Json) returns (common: seq<string>)
    ensures common == CommonNames(names, funcs)
  {
    common := [];
    var i := 0;
    while i < |names|
      invariant i <= |names|
      invariant common == Filter(names[..i], InFunctions(funcs))
    {
      FilterAppend(names[..i], [names[i]], InFunctions(funcs));
      assert names[..i + 1] == names[..i] + [names[i]];
      if Has(funcs, names[i]) {
        common := common + [names[i]];
      }
      i := i + 1;
    }
    assert names[..i] == names;
  }

  /** The name-collision check of `validateSemantics`. */
  method NameCollisions(randomVars: Json, funcs: Json) returns (errors: seq<string>)
    ensures errors == CollisionErrors(randomVars, funcs)
  {
    var common := FindCommonNames(FieldNames(randomVars), funcs);
    errors := if |common| == 0 then [] else [CollisionError(common)];
  }

  // ---------------------------------------------------------------------
  // Undefined references
  // ---------------------------------------------------------------------

  /** A textual value naming neither a random variable nor a function. */
  predicate Undefined(value: Json, names: seq<string>)
  {
    value.TextNode? && value.s !in names
  }

  /** The error for one distribution parameter; the complete-model test case
      exempts the name "substitutionModel". */
  function ParameterError(varName: string, names: seq<string>, hkyComplete: bool, value: Json): seq<string>
  {
    if Undefined(value, names) && !(hkyComplete && value.s == "substitutionModel")
    then [VariableReferenceError(varName, value.s)] else []
  }

  /** The parameters of a variable's distribution (none unless both the
      distribution and its parameters are present). */
  function Parameters(def: Json): seq<(string, Json)>
  {
    if Has(def, "distribution") && Has(Path(def, "distribution"), "parameters")
    then Fields(Path(Path(def, "distribution"), "parameters")) else []
  }

  function ParameterErrors(varName: string, names: seq<string>, hkyComplete: bool): ((string, Json)) -> seq<string>
  {
    (p: (string, Json)) => ParameterError(varName, names, hkyComplete, p.1)
  }

  function VariableErrors(names: seq<string>, hkyComplete: bool): ((string, Json)) -> seq<string>
  {
    (e: (string, Json)) => Collect(Parameters(e.1), ParameterErrors(e.0, names, hkyComplete))
  }

  /** The error for one function argument. */
  function ArgumentError(funcName: string, names: seq<string>, value: Json): seq<string>
  {
    if Undefined(value, names) then [FunctionReferenceError(funcName, value.s)] else []
  }

  function ArgumentErrors(funcName: string, names: seq<string>): ((string, Json)) -> seq<string>
  {
    (a: (string, Json)) => ArgumentError(funcName, names, a.1)
  }

  /** A function's arguments (none unless `arguments` is present). */
  function Arguments(def: Json): seq<(string, Json)>
  {
    if Has(def, "arguments") then Fields(Path(def, "arguments")) else []
  }

  function FunctionErrors(names: seq<string>): ((string, Json)) -> seq<string>
  {
    (e: (string, Json)) => Collect(Arguments(e.1), ArgumentErrors(e.0, names))
  }

  /** The elements of the constraints array, numbered from 1 (`size()` is 0
      for anything but an array or an object). */
  function Numbered(constraints: Json): (r: seq<(nat, Json)>)
    ensures |r| == if constraints.Array? then |constraints.items| else 0
    ensures forall k | 0 <= k < |r| :: constraints.Array? && r[k] == (k + 1, constraints.items[k])
  {
    if constraints.Array? then seq(|constraints.items|, k requires 0 <= k < |constraints.items| => (k + 1, constraints.items[k]))
    else []
  }

  function OperandError(n: nat, names: seq<string>, c: Json, field: string): seq<string>
  {
    if Has(c, field) && Undefined(Path(c, field), names) then [ConstraintReferenceError(n, Path(c, field).s)] else []
  }

  function OperandErrors(names: seq<string>): ((nat, Json)) -> seq<string>
  {
    (e: (nat, Json)) => OperandError(e.0, names, e.1, "left") + OperandError(e.0, names, e.1, "right")
  }

  /** The names a reference may use. */
  function AllNames(randomVars: Json, funcs: Json): seq<string>
  {
    FieldNames(randomVars) + FieldNames(funcs)
  }

  predicate HkyComplete(model: Json)
  {
    Has(model, "model") && AsText(Path(model, "model")) == "hky_complete"
  }

  /** What `checkReferences` returns or throws. */
  function ReferenceErrors(model: Json, randomVars: Json, funcs: Json): Result<seq<string>>
  {
    var names := AllNames(randomVars, funcs);
    var vars := Collect(Fields(randomVars), VariableErrors(names, HkyComplete(model)));
    var fns := Collect(Fields(funcs), FunctionErrors(names));
    if !Has(model, "constraints") then Ok(vars + fns)
    else
      var constraints := Path(model, "constraints");
      if IndexedNull(constraints) then Fail(NullPointer)
      else Ok(vars + fns + Collect(Numbered(constraints), OperandErrors(names)))
  }

  /** `e` reports a reference, found where it says, to a name outside `names`. */
  ghost predicate ReportsUndefined(e: string, names: seq<string>)
  {
    (exists who: string, t: string | t !in names :: e == VariableReferenceError(who, t)) ||
    (exists who: string, t: string | t !in names :: e == FunctionReferenceError(who, t)) ||
    (exists n: nat, t: string | t !in names :: e == ConstraintReferenceError(n, t))
  }

  lemma ParameterErrorShape(varName: string, names: seq<string>, hkyComplete: bool, value: Json, e: string)
    requires e in ParameterError(varName, names, hkyComplete, value)
    ensures value.TextNode? && value.s !in names && e == VariableReferenceError(varName, value.s)
  {
  }

  lemma ArgumentErrorShape(funcName: string, names: seq<string>, value: Json, e: string)
    requires e in ArgumentError(funcName, names, value)
    ensures value.TextNode? && value.s !in names && e == FunctionReferenceError(funcName, value.s)
  {
  }

  lemma VariableErrorsUndefined(vars: seq<(string, Json)>, names: seq<string>, hkyComplete: bool)
    ensures forall e | e in Collect(vars, VariableErrors(names, hkyComplete)) :: ReportsUndefined(e, names)
  {
    forall e | e in Collect(vars, VariableErrors(names, hkyComplete)) ensures ReportsUndefined(e, names) {
      CollectMember(vars, VariableErrors(names, hkyComplete), e);
      var i :| 0 <= i < |vars| && e in VariableErrors(names, hkyComplete)(vars[i]);
      CollectMember(Parameters(vars[i].1), ParameterErrors(vars[i].0, names, hkyComplete), e);
      var k :| 0 <= k < |Parameters(vars[i].1)| && e in ParameterErrors(vars[i].0, names, hkyComplete)(Parameters(vars[i].1)[k]);
      var value := Parameters(vars[i].1)[k].1;
      ParameterErrorShape(vars[i].0, names, hkyComplete, value, e);
    }
  }

  lemma FunctionErrorsUndefined(funcs: seq<(string, Json)>, names: seq<string>)
    ensures forall e | e in Collect(funcs, FunctionErrors(names)) :: ReportsUndefined(e, names)
  {
    forall e | e in Collect(funcs, FunctionErrors(names)) ensures ReportsUndefined(e, names) {
      CollectMember(funcs, FunctionErrors(names), e);
      var i :| 0 <= i < |funcs| && e in FunctionErrors(names)(funcs[i]);
      CollectMember(Arguments(funcs[i].1), ArgumentErrors(funcs[i].0, names), e);
      var k :| 0 <= k < |Arguments(funcs[i].1)| && e in ArgumentErrors(funcs[i].0, names)(Arguments(funcs[i].1)[k]);
      var value := Arguments(funcs[i].1)[k].1;
      ArgumentErrorShape(funcs[i].0, names, value, e);
    }
  }

  lemma OperandErrorsUndefined(numbered: seq<(nat, Json)>, names: seq<string>)
    ensures forall e | e in Collect(numbered, OperandErrors(names)) :: ReportsUndefined(e, names)
  {
    forall e | e in Collect(numbered, OperandErrors(names)) ensures ReportsUndefined(e, names) {
      CollectMember(numbered, OperandErrors(names), e);
      var i :| 0 <= i < |numbered| && e in OperandErrors(names)(numbered[i]);
      var (n, c) := numbered[i];
      if e in OperandError(n, names, c, "left") {
        assert e == ConstraintReferenceError(n, Path(c, "left").s);
      } else {
        assert e == ConstraintReferenceError(n, Path(c, "right").s);
      }
    }
  }

  /** Every reference error names a target that is neither a random variable
      nor a function, and says where it was found. */
  lemma ReferenceErrorsAreUndefined(model: Json, randomVars: Json, funcs: Json)
    ensures var r := ReferenceErrors(model, randomVars, funcs);
      r.Ok? ==> forall e | e in r.value :: ReportsUndefined(e, AllNames(randomVars, funcs))
  {
    var names := AllNames(randomVars, funcs);
    VariableErrorsUndefined(Fields(randomVars), names, HkyComplete(model));
    FunctionErrorsUndefined(Fields(funcs), names);
    if Has(model, "constraints") && !IndexedNull(Path(model, "constraints")) {
      OperandErrorsUndefined(Numbered(Path(model, "constraints")), names);
    }
  }

  /** Conversely, an undefined textual parameter of a random variable's
      distribution is reported, unless it is the exempt "substitutionModel"
      of the complete-model test case. */
  lemma UndefinedParameterReported(model: Json, randomVars: Json, funcs: Json, i: nat, k: nat)
    requires i < |Fields(randomVars)|
    requires k < |Parameters(Fields(randomVars)[i].1)|
    requires var value := Parameters(Fields(randomVars)[i].1)[k].1;
      Undefined(value, AllNames(randomVars, funcs)) && !(HkyComplete(model) && value.s == "substitutionModel")
    ensures var r := ReferenceErrors(model, randomVars, funcs);
      r.Ok? ==> VariableReferenceError(Fields(randomVars)[i].0, Parameters(Fields(randomVars)[i].1)[k].1.s) in r.value
  {
    var names, hkyComplete := AllNames(randomVars, funcs), HkyComplete(model);
    var entry := Fields(randomVars)[i];
    var e := ParameterReported(entry.0, entry.1, names, hkyComplete, k);
    assert e in VariableErrors(names, hkyComplete)(entry);
    CollectHas(Fields(randomVars), VariableErrors(names, hkyComplete), i, e);
    VariableErrorsReturned(model, randomVars, funcs, e);
  }

  /** The error an undefined parameter adds to its variable's errors. */
  lemma ParameterReported(varName: string, def: Json, names: seq<string>, hkyComplete: bool, k: nat) returns (e: string)
    requires k < |Parameters(def)|
    requires var value := Parameters(def)[k].1;
      Undefined(value, names) && !(hkyComplete && value.s == "substitutionModel")
    ensures e == VariableReferenceError(varName, Parameters(def)[k].1.s)
    ensures e in Collect(Parameters(def), ParameterErrors(varName, names, hkyComplete))
  {
    e := VariableReferenceError(varName, Parameters(def)[k].1.s);
    assert ParameterErrors(varName, names, hkyComplete)(Parameters(def)[k]) == [e];
    CollectHas(Parameters(def), ParameterErrors(varName, names, hkyComplete), k, e);
  }

  /** Every random-variable error is among the errors `checkReferences` returns. */
  lemma VariableErrorsReturned(model: Json, randomVars: Json, funcs: Json, e: string)
    requires e in Collect(Fields(randomVars), VariableErrors(AllNames(randomVars, funcs), HkyComplete(model)))
    ensures var r := ReferenceErrors(model, randomVars, funcs); r.Ok? ==> e in r.value
  {
  }

  /** An undefined textual argument of a function is reported. */
  lemma UndefinedArgumentReported(model: Json, randomVars: Json, funcs: Json, i: nat, k: nat)
    requires i < |Fields(funcs)|
    requires k < |Arguments(Fields(funcs)[i].1)|
    requires Undefined(Arguments(Fields(funcs)[i].1)[k].1, AllNames(randomVars, funcs))
    ensures var r := ReferenceErrors(model, randomVars, funcs);
      r.Ok? ==> FunctionReferenceError(Fields(funcs)[i].0, Arguments(Fields(funcs)[i].1)[k].1.s) in r.value
  {
    var names := AllNames(randomVars, funcs);
    var entry := Fields(funcs)[i];
    var e := FunctionReferenceError(entry.0, Arguments(entry.1)[k].1.s);
    assert e in ArgumentErrors(entry.0, names)(Arguments(entry.1)[k]);
    CollectHas(Arguments(entry.1), ArgumentErrors(entry.0, names), k, e);
    assert e in FunctionErrors(names)(entry);
    CollectHas(Fields(funcs), FunctionErrors(names), i, e);
  }

  /** An undefined textual `left` or `right` operand of the k-th constraint
      is reported under that constraint's number, k + 1. */
  lemma UndefinedOperandReported(model: Json, randomVars: Json, funcs: Json, k: nat, field: string)
    requires Has(model, "constraints") && Path(model, "constraints").Array?
    requires k < |Path(model, "constraints").items|
    requires field == "left" || field == "right"
    requires Has(Path(model, "constraints").items[k], field)
    requires Undefined(Path(Path(model, "constraints").items[k], field), AllNames(randomVars, funcs))
    ensures var r := ReferenceErrors(model, randomVars, funcs);
      r.Ok? ==> ConstraintReferenceError(k + 1, Path(Path(model, "constraints").items[k], field).s) in r.value
  {
    var names := AllNames(randomVars, funcs);
    var numbered := Numbered(Path(model, "constraints"));
    var c := Path(model, "constraints").items[k];
    var e := ConstraintReferenceError(k + 1, Path(c, field).s);
    assert numbered[k] == (k + 1, c);
    assert e in OperandError(k + 1, names, c, field);
    assert e in OperandErrors(names)(numbered[k]);
    CollectHas(numbered, OperandErrors(names), k, e);
  }

  /** Constraints given as a non-empty object make the reference check throw. */
  lemma ObjectConstraintsThrow(model: Json, randomVars: Json, funcs: Json)
    requires Has(model, "constraints") && Path(model, "constraints").Object?
    ensures ReferenceErrors(model, randomVars, funcs).Fail? <==> |Path(model, "constraints").fields| > 0
  {
  }

  /** The parameter loop of `checkReferences` for one random variable. */
  method CheckParameters(varName: string, def: Json, names: seq<string>, hkyComplete: bool) returns (errors: seq<string>)
    ensures errors == Collect(Parameters(def), ParameterErrors(varName, names, hkyComplete))
  {
    var params := Parameters(def);
    errors := [];
    var j := 0;
    while j < |params|
      invariant j <= |params|
      invariant errors == Collect(params[..j], ParameterErrors(varName, names, hkyComplete))
    {
      var value := params[j].1;
      var found: seq<string> := [];
      if value.TextNode? && value.s !in names {
        if !(hkyComplete && value.s == "substitutionModel") {
          found := [VariableReferenceError(varName, value.s)];
        }
      }
      CollectStep(params, j, ParameterErrors(varName, names, hkyComplete), found);
      errors := errors + found;
      j := j + 1;
    }
    assert params[..j] == params;
  }

  /** The argument loop of `checkReferences` for one function. */
  method CheckArguments(funcName: string, def: Json, names: seq<string>) returns (errors: seq<string>)
    ensures errors == Collect(Arguments(def), ArgumentErrors(funcName, names))
  {
    var args := Arguments(def);
    errors := [];
    var j := 0;
    while j < |args|
      invariant j <= |args|
      invariant errors == Collect(args[..j], ArgumentErrors(funcName, names))
    {
      var value := args[j].1;
      var found: seq<string> := [];
      if value.TextNode? && value.s !in names {
        found := [FunctionReferenceError(funcName, value.s)];
      }
      CollectStep(args, j, ArgumentErrors(funcName, names), found);
      errors := errors + found;
      j := j + 1;
    }
    assert args[..j] == args;
  }

  /** The operand loop of `checkReferences` over the numbered constraints. */
  method CheckOperands(numbered: seq<(nat, Json)>, names: seq<string>) returns (errors: seq<string>)
    ensures errors == Collect(numbered, OperandErrors(names))
  {
    errors := [];
    var i := 0;
    while i < |numbered|
      invariant i <= |numbered|
      invariant errors == Collect(numbered[..i], OperandErrors(names))
    {
      var (n, c) := numbered[i];
      var found := OperandError(n, names, c, "left") + OperandError(n, names, c, "right");
      CollectStep(numbered, i, OperandErrors(names), found);
      errors := errors + found;
      i := i + 1;
    }
    assert numbered[..i] == numbered;
  }

  /** The loop of `checkReferences` over the random variables. */
  method CheckVariables(vars: seq<(string, Json)>, names: seq<string>, hkyComplete: bool) returns (errors: seq<string>)
    ensures errors == Collect(vars, VariableErrors(names, hkyComplete))
  {
    errors := [];
    var i := 0;
    while i < |vars|
      invariant i <= |vars|
      invariant errors == Collect(vars[..i], VariableErrors(names, hkyComplete))
    {
      var found := CheckParameters(vars[i].0, vars[i].1, names, hkyComplete);
      CollectStep(vars, i, VariableErrors(names, hkyComplete), found);
      errors := errors + found;
      i := i + 1;
    }
    assert vars[..i] == vars;
  }

  /** The loop of `checkReferences` over the deterministic functions. */
  method CheckFunctions(funcs: seq<(string, Json)>, names: seq<string>) returns (errors: seq<string>)
    ensures errors == Collect(funcs, FunctionErrors(names))
  {
    errors := [];
    var i := 0;
    while i < |funcs|
      invariant i <= |funcs|
      invariant errors == Collect(funcs[..i], FunctionErrors(names))
    {
      var found := CheckArguments(funcs[i].0, funcs[i].1, names);
      CollectStep(funcs, i, FunctionErrors(names), found);
      errors := errors + found;
      i := i + 1;
    }
    assert funcs[..i] == funcs;
  }

  /** `checkReferences`: variables, functions, then constraint operands. */
  method CheckReferences(model: Json, randomVars: Json, funcs: Json) returns (r: Result<seq<string>>)
    ensures r == ReferenceErrors(model, randomVars, funcs)
  {
    var names := AllNames(randomVars, funcs);
    var varErrors := CheckVariables(Fields(randomVars), names, HkyComplete(model));
    var funcErrors := CheckFunctions(Fields(funcs), names);
    if !Has(model, "constraints") {
      return Ok(varErrors + funcErrors);
    }
    var constraints := Path(model, "constraints");
    if IndexedNull(constraints) {
      return Fail(NullPointer);
    }
    var operandErrors := CheckOperands(Numbered(constraints), names);
    r := Ok(varErrors + funcErrors + operandErrors);
  }

  // ---------------------------------------------------------------------
  // Constraints
  // ---------------------------------------------------------------------

  /** The fields a constraint of a valid type must carry. */
  function RequiredFields(t: string): seq<string>
  {
    if t in Comparisons then ["left", "right"]
    else if t == "bounded" then ["variable", "lower", "upper"]
    else if t == "sumTo" then ["variables", "target"]
    else []
  }

  /** The errors of constraint number n. */
  function ConstraintErrors(n: nat, c: Json): seq<string>
  {
    if !Has(c, "type") then [MissingTypeError(n)]
    else
      var t := AsText(Path(c, "type"));
      var invalid := if t in ValidConstraintTypes then [] else [InvalidTypeError(n, t)];
      var incomplete :=
        if t in Comparisons then (if !Has(c, "left") || !Has(c, "right") then [MissingOperandsError(n)] else [])
        else if t == "bounded" then (if !Has(c, "variable") || !Has(c, "lower") || !Has(c, "upper") then [BoundedFieldsError(n)] else [])
        else if t == "sumTo" then (if !Has(c, "variables") || !Has(c, "target") then [SumToFieldsError(n)] else [])
        else [];
      invalid + incomplete
  }

  /** A constraint of a valid type has every field its type requires. */
  predicate Complete(c: Json, t: string)
  {
    forall f | f in RequiredFields(t) :: Has(c, f)
  }

  /** The verdict on a constraint whose type is a comparison. */
  lemma ComparisonVerdict(n: nat, c: Json, t: string)
    requires Has(c, "type") && t == AsText(Path(c, "type")) && t in Comparisons
    ensures t in ValidConstraintTypes
    ensures ConstraintErrors(n, c) == if Complete(c, t) then [] else [MissingOperandsError(n)]
  {
    assert RequiredFields(t) == ["left", "right"];
    assert Complete(c, t) <==> Has(c, "left") && Has(c, "right");
  }

  /** The verdict on a `bounded` constraint. */
  lemma BoundedVerdict(n: nat, c: Json, t: string)
    requires Has(c, "type") && t == AsText(Path(c, "type")) && t == "bounded"
    ensures t in ValidConstraintTypes
    ensures ConstraintErrors(n, c) == if Complete(c, t) then [] else [BoundedFieldsError(n)]
  {
    assert RequiredFields(t) == ["variable", "lower", "upper"];
    assert Complete(c, t) <==> Has(c, "variable") && Has(c, "lower") && Has(c, "upper");
  }

  /** The verdict on a `sumTo` constraint. */
  lemma SumToVerdict(n: nat, c: Json, t: string)
    requires Has(c, "type") && t == AsText(Path(c, "type")) && t == "sumTo"
    ensures t in ValidConstraintTypes
    ensures ConstraintErrors(n, c) == if Complete(c, t) then [] else [SumToFieldsError(n)]
  {
    assert RequiredFields(t) == ["variables", "target"];
    assert Complete(c, t) <==> Has(c, "variables") && Has(c, "target");
  }

  /** The verdict on a constraint of an unknown type. */
  lemma UnknownTypeVerdict(n: nat, c: Json, t: string)
    requires Has(c, "type") && t == AsText(Path(c, "type")) && t !in ValidConstraintTypes
    ensures ConstraintErrors(n, c) == [InvalidTypeError(n, t)]
  {
  }

  /** A constraint gets at most one error, and none exactly when it has a
      valid type and every field that type requires. */
  lemma ConstraintVerdict(n: nat, c: Json)
    ensures |ConstraintErrors(n, c)| <= 1
    ensures ConstraintErrors(n, c) == [] <==>
      Has(c, "type") && AsText(Path(c, "type")) in ValidConstraintTypes && Complete(c, AsText(Path(c, "type")))
    ensures !Has(c, "type") ==> ConstraintErrors(n, c) == [MissingTypeError(n)]
  {
    if Has(c, "type") {
      var t := AsText(Path(c, "type"));
      if t in Comparisons {
        ComparisonVerdict(n, c, t);
      } else if t == "bounded" {
        BoundedVerdict(n, c, t);
      } else if t == "sumTo" {
        SumToVerdict(n, c, t);
      } else {
        assert t !in ValidConstraintTypes;
        UnknownTypeVerdict(n, c, t);
      }
    }
  }

  function ConstraintChecks(): ((nat, Json)) -> seq<string>
  {
    (e: (nat, Json)) => ConstraintErrors(e.0, e.1)
  }

  /** What `validateConstraints` returns or throws. */
  function ConstraintsErrors(constraints: Json): Result<seq<string>>
  {
    if IndexedNull(constraints) then Fail(NullPointer)
    else Ok(Collect(Numbered(constraints), ConstraintChecks()))
  }

  /** No more constraint errors than constraints. */
  lemma ConstraintErrorsBounded(constraints: Json)
    requires !IndexedNull(constraints)
    ensures |ConstraintsErrors(constraints).value| <= Size(constraints)
  {
    var numbered := Numbered(constraints);
    forall i | 0 <= i < |numbered| ensures |ConstraintChecks()(numbered[i])| <= 1 {
      ConstraintVerdict(numbered[i].0, numbered[i].1);
    }
    CollectBound(numbered, ConstraintChecks());
  }

  /** The checks of constraint number n in `validateConstraints`. */
  method CheckConstraint(n: nat, c: Json) returns (errors: seq<string>)
    ensures errors == ConstraintErrors(n, c)
  {
    if !Has(c, "type") {
      return [MissingTypeError(n)];
    }
    errors := [];
    var t := AsText(Path(c, "type"));
    if t !in ValidConstraintTypes {
      errors := errors + [InvalidTypeError(n, t)];
    }
    if t in Comparisons {
      if !Has(c, "left") || !Has(c, "right") {
        errors := errors + [MissingOperandsError(n)];
      }
    } else if t == "bounded" {
      if !Has(c, "variable") || !Has(c, "lower") || !Has(c, "upper") {
        errors := errors + [BoundedFieldsError(n)];
      }
    } else if t == "sumTo" {
      if !Has(c, "variables") || !Has(c, "target") {
        errors := errors + [SumToFieldsError(n)];
      }
    }
  }

  /** `validateConstraints`. */
  method ValidateConstraints(constraints: Json) returns (r: Result<seq<string>>)
    ensures r == ConstraintsErrors(constraints)
  {
    if IndexedNull(constraints) {
      return Fail(NullPointer);
    }
    var numbered := Numbered(constraints);
    var errors: seq<string> := [];
    var i := 0;
    while i < |numbered|
      invariant i <= |numbered|
      invariant errors == Collect(numbered[..i], ConstraintChecks())
    {
      var found := CheckConstraint(i + 1, numbered[i].1);
      CollectStep(numbered, i, ConstraintChecks(), found);
      errors := errors + found;
      i := i + 1;
    }
    assert numbered[..i] == numbered;
    r := Ok(errors);
  }

  // ---------------------------------------------------------------------
  // Distribution types
  // ---------------------------------------------------------------------

  /** The distribution of a variable definition, when it names both its
      type and what it generates. */
  predicate Typed(def: Json)
  {
    Has(def, "distribution") && Has(Path(def, "distribution"), "type") && Has(Path(def, "distribution"), "generates")
  }

  function DistType(def: Json): string { AsText(Path(Path(def, "distribution"), "type")) }
  function Generates(def: Json): string { AsText(Path(Path(def, "distribution"), "generates")) }

  predicate HasDimension(def: Json)
  {
    var dist := Path(def, "distribution");
    Has(dist, "parameters") && Has(Path(dist, "parameters"), "dimension")
  }

  /** The errors of one random variable's distribution. */
  function DistributionErrors(varName: string, def: Json): seq<string>
  {
    if !Typed(def) then []
    else
      var t, g := DistType(def), Generates(def);
      var expected := ExpectedGenerates(t);
      (if expected.Some? && g !in expected.value then [GeneratesError(varName, t, g, expected.value)] else []) +
      (if g == "REAL_VECTOR" && t in ScalarDistributions && !HasDimension(def) then [DimensionError(varName, t, g)] else [])
  }

  /** A variable gets at most one distribution error: a scalar
      distribution admits "REAL_VECTOR", so the dimension check never adds
      to a generates-type error. */
  lemma DistributionErrorAtMostOne(varName: string, def: Json)
    ensures |DistributionErrors(varName, def)| <= 1
  {
    if Typed(def) && Generates(def) == "REAL_VECTOR" && DistType(def) in ScalarDistributions {
      assert ExpectedGenerates(DistType(def)).value[0] == Generates(def);
    }
  }

  /** A variable gets a distribution error exactly when its generates
      type is not one its distribution type admits, or when a scalar
      distribution generates a vector without a dimension.  Unknown
      distribution types are never flagged. */
  lemma DistributionVerdict(varName: string, def: Json)
    ensures DistributionErrors(varName, def) != [] <==>
      Typed(def) && ExpectedGenerates(DistType(def)).Some? &&
      (Generates(def) !in ExpectedGenerates(DistType(def)).value ||
       (Generates(def) == "REAL_VECTOR" && DistType(def) in ScalarDistributions && !HasDimension(def)))
  {
  }

  function DistributionChecks(): ((string, Json)) -> seq<string>
  {
    (e: (string, Json)) => DistributionErrors(e.0, e.1)
  }

  /** The checks of one random variable in `validateDistributions`. */
  method CheckDistribution(name: string, def: Json) returns (errors: seq<string>)
    ensures errors == DistributionErrors(name, def)
  {
    errors := [];
    if Typed(def) {
      var t, g := DistType(def), Generates(def);
      var expected := ExpectedGenerates(t);
      if expected.Some? && g !in expected.value {
        errors := errors + [GeneratesError(name, t, g, expected.value)];
      }
      if g == "REAL_VECTOR" && t in ScalarDistributions {
        if !HasDimension(def) {
          errors := errors + [DimensionError(name, t, g)];
        }
      }
    }
  }

  /** `validateDistributions`. */
  method ValidateDistributions(randomVars: Json) returns (errors: seq<string>)
    ensures errors == Collect(Fields(randomVars), DistributionChecks())
  {
    var vars := Fields(randomVars);
    errors := [];
    var i := 0;
    while i < |vars|
      invariant i <= |vars|
      invariant errors == Collect(vars[..i], DistributionChecks())
    {
      var found := CheckDistribution(vars[i].0, vars[i].1);
      CollectStep(vars, i, DistributionChecks(), found);
      errors := errors + found;
      i := i + 1;
    }
    assert vars[..i] == vars;
  }

  // ---------------------------------------------------------------------
  // Semantic validation
  // ---------------------------------------------------------------------

  predicate HasTopLevelFields(model: Json)
  {
    Has(model, "model") && Has(model, "codephyVersion") && Has(model, "randomVariables")
  }

  function RandomVars(model: Json): Json { Path(model, "randomVariables") }
  function Functions(model: Json): Json { Path(model, "deterministicFunctions") }

  /** `order` is the iteration order of the dependency graph's names. */
  predicate KeyOrder(model: Json, order: seq<string>)
  {
    CycleCheck.ListsNames(order, RandomVars(model), Functions(model))
  }

  /** The errors of the cycle check, or the one error replacing them when
      the check throws.  `settle` false is the search as written; true is
      the corrected search. */
  function CycleErrors(model: Json, order: seq<string>, settle: bool): seq<string>
    requires KeyOrder(model, order)
  {
    var r := CycleCheck.CycleCheckResult(RandomVars(model), Functions(model), order, settle);
    if r.Ok? then r.value else [CycleCheckError(r.message)]
  }

  /** What `validateSemantics` returns or throws, over the cycle search
      `settle` selects. */
  function SemanticErrors(model: Json, order: seq<string>, settle: bool): Result<seq<string>>
    requires KeyOrder(model, order)
  {
    if !HasTopLevelFields(model) then Ok([MissingTopLevel])
    else
      var rv, fs := RandomVars(model), Functions(model);
      var refs := ReferenceErrors(model, rv, fs);
      if refs.Fail? then Fail(refs.message)
      else
        var constraints := if Has(model, "constraints") then ConstraintsErrors(Path(model, "constraints")) else Ok([]);
        if constraints.Fail? then Fail(NullPointer)
        else Ok(CollisionErrors(rv, fs) + refs.value + CycleErrors(model, order, settle) + constraints.value
                + Collect(Fields(rv), DistributionChecks()))
  }

  /** With the corrected search, the cycle check never contributes "Error
      checking for circular dependencies": that search cannot throw. */
  lemma CycleCheckNeverFails(model: Json, order: seq<string>)
    requires KeyOrder(model, order)
    ensures CycleCheck.CycleCheckResult(RandomVars(model), Functions(model), order, true).Ok?
    ensures CycleErrors(model, order, true) == CycleCheck.CycleCheckResult(RandomVars(model), Functions(model), order, true).value
  {
    CycleCheck.CorrectedCheckNeverThrows(RandomVars(model), Functions(model), order);
  }

  /** A model whose two functions each take "f" as an argument. */
  const StaleMarkModel: Json :=
    Object([("model", TextNode("m")), ("codephyVersion", TextNode("1.0")),
            ("randomVariables", Object([])), ("deterministicFunctions", CycleCheck.TwoFunctions)])

  /** As written, the search's stale marks make the semantic check report
      "Error checking for circular dependencies" for this model, where the
      corrected search reports the loop on "f". */
  lemma StaleMarkReported()
    ensures KeyOrder(StaleMarkModel, ["f", "g"])
    ensures CycleErrors(StaleMarkModel, ["f", "g"], false) == [CycleCheckError("fromIndex = -1")]
    ensures CycleErrors(StaleMarkModel, ["f", "g"], true) == ["Circular dependency detected: " + "f" + " -> " + "f"]
  {
    StaleMarkModelParts();
    CycleCheck.StaleMarkThrows();
  }

  lemma StaleMarkModelParts()
    ensures RandomVars(StaleMarkModel) == Object([])
    ensures Functions(StaleMarkModel) == CycleCheck.TwoFunctions
  {
    StaleMarkRandomVars();
    StaleMarkFunctions();
  }

  lemma StaleMarkRandomVars()
    ensures Lookup(StaleMarkModel.fields, "randomVariables") == Some(Object([]))
  {
    var fields := StaleMarkModel.fields;
    assert fields[2..][0] == ("randomVariables", Object([]));
    assert Lookup(fields[1..], "randomVariables") == Some(Object([]));
  }

  lemma StaleMarkFunctions()
    ensures Lookup(StaleMarkModel.fields, "deterministicFunctions") == Some(CycleCheck.TwoFunctions)
  {
    var fields := StaleMarkModel.fields;
    assert fields[3..][0] == ("deterministicFunctions", CycleCheck.TwoFunctions);
    assert Lookup(fields[2..], "deterministicFunctions") == Some(CycleCheck.TwoFunctions);
    assert Lookup(fields[1..], "deterministicFunctions") == Some(CycleCheck.TwoFunctions);
  }

  lemma StaleMarkModelFields()
    ensures HasTopLevelFields(StaleMarkModel) && !Has(StaleMarkModel, "constraints")
  {
    var fields := StaleMarkModel.fields;
    assert Lookup(fields[1..], "codephyVersion").Some?;
    assert Lookup(fields[2..], "randomVariables").Some?;
    assert Lookup(fields[1..], "randomVariables").Some?;
    assert Lookup(fields[4..], "constraints") == None;
    assert Lookup(fields[3..], "constraints") == None;
    assert Lookup(fields[2..], "constraints") == None;
    assert Lookup(fields[1..], "constraints") == None;
  }

  /** The semantic check of that model, as written, lists the exception
      message among its errors instead of the loop. */
  lemma StaleMarkInSemanticErrors()
    ensures KeyOrder(StaleMarkModel, ["f", "g"])
    ensures SemanticErrors(StaleMarkModel, ["f", "g"], false).Ok?
    ensures CycleCheckError("fromIndex = -1") in SemanticErrors(StaleMarkModel, ["f", "g"], false).value
  {
    StaleMarkReported();
    StaleMarkModelFields();
    var rv, fs := RandomVars(StaleMarkModel), Functions(StaleMarkModel);
    assert ReferenceErrors(StaleMarkModel, rv, fs).Ok?;
    var e := CycleErrors(StaleMarkModel, ["f", "g"], false);
    assert e[0] == CycleCheckError("fromIndex = -1");
  }

  /** So the as-written validation of that model is invalid and reports the
      exception message. */
  lemma StaleMarkValidation(schema: seq<(string, string)>)
    ensures KeyOrder(StaleMarkModel, ["f", "g"])
    ensures Validation(StaleMarkModel, schema, ["f", "g"], false).Ok?
    ensures !Validation(StaleMarkModel, schema, ["f", "g"], false).value.valid
    ensures CycleCheckError("fromIndex = -1") in Validation(StaleMarkModel, schema, ["f", "g"], false).value.errors
  {
    StaleMarkInSemanticErrors();
    StaleMarkModelStrict();
  }

  lemma StaleMarkModelStrict()
    ensures !Lenient(StaleMarkModel)
  {
    assert AsText(Path(StaleMarkModel, "model")) == "m";
    assert !Text.Contains("m", "PhyloCTMC");
  }

  /** A null constraint makes the reference check throw before the
      constraint check runs, so the constraint check cannot throw after it. */
  lemma ConstraintsCheckedAfterReferences(model: Json, randomVars: Json, funcs: Json)
    requires Has(model, "constraints") && ReferenceErrors(model, randomVars, funcs).Ok?
    ensures ConstraintsErrors(Path(model, "constraints")).Ok?
  {
  }

  /** `validateSemantics`. */
  method ValidateSemantics(model: Json, order: seq<string>, settle: bool) returns (r: Result<seq<string>>)
    requires KeyOrder(model, order)
    ensures r == SemanticErrors(model, order, settle)
  {
    if !HasTopLevelFields(model) {
      return Ok([MissingTopLevel]);
    }
    var randomVars := RandomVars(model);
    var funcs := Functions(model);
    var errors := NameCollisions(randomVars, funcs);
    var refs := CheckReferences(model, randomVars, funcs);
    if refs.Fail? {
      return Fail(refs.message);
    }
    errors := errors + refs.value;
    var cycles := CycleCheck.CheckCircularDependencies(randomVars, funcs, order, settle);
    var cycleErrors := if cycles.Ok? then cycles.value else [CycleCheckError(cycles.message)];
    assert cycleErrors == CycleErrors(model, order, settle);
    errors := errors + cycleErrors;
    var constraintErrors := [];
    if Has(model, "constraints") {
      ConstraintsCheckedAfterReferences(model, randomVars, funcs);
      var constraints := ValidateConstraints(Path(model, "constraints"));
      constraintErrors := constraints.value;
    }
    var dists := ValidateDistributions(randomVars);
    errors := errors + constraintErrors + dists;
    r := Ok(errors);
  }

  // ---------------------------------------------------------------------
  // The whole validation
  // ---------------------------------------------------------------------

  datatype ValidationResult = ValidationResult(valid: bool, errors: seq<string>)

  /** The complete-model test case: the model name is "hky_complete" or
      mentions PhyloCTMC. */
  predicate Lenient(model: Json)
  {
    Has(model, "model") &&
    (AsText(Path(model, "model")) == "hky_complete" || Text.Contains(AsText(Path(model, "model")), "PhyloCTMC"))
  }

  /** An error the complete-model test case drops. */
  predicate Suppressed(e: string)
  {
    Text.Contains(e, "PhyloCTMC") || Text.Contains(e, "substitutionModel")
  }

  function Kept(): string -> bool
  {
    (e: string) => !Suppressed(e)
  }

  /** What `validateModel` returns or throws, given the schema library's
      messages and the dependency graph's name order. */
  function Validation(model: Json, schema: seq<(string, string)>, order: seq<string>, settle: bool): Result<ValidationResult>
    requires KeyOrder(model, order)
  {
    var semantic := SemanticErrors(model, order, settle);
    if semantic.Fail? then Fail(semantic.message)
    else
      var all := SchemaErrors(schema) + semantic.value;
      var errors := if Lenient(model) then Filter(all, Kept()) else all;
      Ok(ValidationResult(|errors| == 0, errors))
  }

  /** The model is valid exactly when no error is reported; schema errors
      come first, then the semantic ones, and only the complete-model test
      case drops errors: exactly those mentioning PhyloCTMC or
      substitutionModel, keeping the order of the rest. */
  lemma ValidationVerdict(model: Json, schema: seq<(string, string)>, order: seq<string>, settle: bool)
    requires KeyOrder(model, order)
    ensures var r := Validation(model, schema, order, settle);
      r.Ok? ==>
        (r.value.valid <==> r.value.errors == []) &&
        (!Lenient(model) ==> r.value.errors == SchemaErrors(schema) + SemanticErrors(model, order, settle).value) &&
        (Lenient(model) ==>
          r.value.errors == Filter(SchemaErrors(schema), Kept()) + Filter(SemanticErrors(model, order, settle).value, Kept()) &&
          forall e :: e in r.value.errors <==> (e in SchemaErrors(schema) || e in SemanticErrors(model, order, settle).value) && !Suppressed(e))
  {
    var semantic := SemanticErrors(model, order, settle);
    if semantic.Ok? {
      FilterAppend(SchemaErrors(schema), semantic.value, Kept());
    }
  }

  /** Without the top-level fields the semantic check reports only that, and
      (outside the complete-model test case) the model is invalid. */
  lemma MissingFieldsOnly(model: Json, schema: seq<(string, string)>, order: seq<string>, settle: bool)
    requires KeyOrder(model, order) && !HasTopLevelFields(model)
    ensures SemanticErrors(model, order, settle) == Ok([MissingTopLevel])
    ensures !Lenient(model) ==>
      Validation(model, schema, order, settle) == Ok(ValidationResult(false, SchemaErrors(schema) + [MissingTopLevel]))
  {
  }

  /** Validation throws exactly when the model has the top-level fields and
      its constraints are a non-empty object. */
  lemma ValidationThrows(model: Json, schema: seq<(string, string)>, order: seq<string>, settle: bool)
    requires KeyOrder(model, order)
    ensures Validation(model, schema, order, settle).Fail? <==>
      HasTopLevelFields(model) && Has(model, "constraints") && IndexedNull(Path(model, "constraints"))
  {
  }

  /** The filtering loop of `validateModel` for the complete-model test case. */
  method DropSuppressed(errors: seq<string>) returns (kept: seq<string>)
    ensures kept == Filter(errors, Kept())
  {
    kept := [];
    var i := 0;
    while i < |errors|
      invariant i <= |errors|
      invariant kept == Filter(errors[..i], Kept())
    {
      FilterAppend(errors[..i], [errors[i]], Kept());
      assert errors[..i + 1] == errors[..i] + [errors[i]];
      if !Text.Contains(errors[i], "PhyloCTMC") && !Text.Contains(errors[i], "substitutionModel") {
        kept := kept + [errors[i]];
      }
      i := i + 1;
    }
    assert errors[..i] == errors;
  }

  /** `validateModel`. */
  method ValidateModel(model: Json, schema: seq<(string, string)>, order: seq<string>, settle: bool) returns (r: Result<ValidationResult>)
    requires KeyOrder(model, order)
    ensures r == Validation(model, schema, order, settle)
  {
    var errors := ValidateSchema(schema);
    var semantic := ValidateSemantics(model, order, settle);
    if semantic.Fail? {
      return Fail(semantic.message);
    }
    errors := errors + semantic.value;
    if Lenient(model) {
      errors := DropSuppressed(errors);
    }
    r := Ok(ValidationResult(|errors| == 0, errors));
  }
}
