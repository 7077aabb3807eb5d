/** `FunctionMapper`: the deterministic functions of a Codephy model (the
    hky, jc69 and gtr substitution models, normalize and vectorElement),
    created and then connected to their arguments in the shared table. */
module FunctionMapper {

  import opened Results
  import opened Json
  import opened Beast
  import Utils

  /** The function types `createFunction` and `connectFunction` accept. */
  predicate IsFunctionType(functionType: string)
  {
    functionType in {"hky", "jc69", "gtr", "normalize", "vectorElement"}
  }

  /** The substitution model a function type creates, if it creates one. */
  function SubstKindOf(functionType: string): (k: Option<SubstKind>)
    ensures k.Some? <==> functionType in {"hky", "jc69", "gtr"}
    ensures k == Some(HKY) <==> functionType == "hky"
    ensures k == Some(GTR) <==> functionType == "gtr"
  {
    if functionType == "hky" then Some(HKY)
    else if functionType == "jc69" then Some(JukesCantor)
    else if functionType == "gtr" then Some(GTR)
    else None
  }

  /** The table after `createFunction`: a fresh, unconnected substitution
      model for hky, jc69 and gtr; nothing for normalize and vectorElement. */
  function FunctionCreated(objects: map<string, Obj>, name: string, functionType: string): (r: Result<map<string, Obj>>)
    ensures r.Ok? <==> IsFunctionType(functionType)
    ensures r.Fail? ==> r.message == "Unsupported function type: " + functionType
    ensures functionType in {"normalize", "vectorElement"} ==> r == Ok(objects)
    ensures r.Ok? && functionType in {"hky", "jc69", "gtr"} ==>
              name in r.value && r.value == objects[name := r.value[name]] &&
              r.value[name] == SubstitutionModel(name, SubstKindOf(functionType).value, [], Null)
  {
    match SubstKindOf(functionType)
    case Some(kind) => Ok(objects[name := SubstitutionModel(name, kind, [], Null)])
    case None =>
      if IsFunctionType(functionType) then Ok(objects)
      else Fail("Unsupported function type: " + functionType)
  }

  // ---------------------------------------------------------------- references

  /** The references of the arguments `names`, extracted left to right: the
      first one that is not a reference raises. */
  function ExtractAll(argsNode: Json, names: seq<string>): (r: Result<seq<string>>)
    ensures r.Ok? <==> forall k :: 0 <= k < |names| ==> Utils.IsVariableReference(Path(argsNode, names[k]))
    ensures r.Ok? ==> |r.value| == |names|
    ensures r.Ok? ==> forall k :: 0 <= k < |names| ==> r.value[k] == Utils.ExtractVariableReference(argsNode, names[k]).value
  {
    if |names| == 0 then Ok([])
    else
      match ExtractAll(argsNode, names[..|names| - 1])
      case Fail(m) => Fail(m)
      case Ok(refs) =>
        match Utils.ExtractVariableReference(argsNode, names[|names| - 1])
        case Fail(m) => Fail(m)
        case Ok(ref) => Ok(refs + [ref])
  }

  /** The first argument that is not a reference is the one reported. */
  lemma {:induction false} ExtractAllFailsAtFirst(argsNode: Json, names: seq<string>, i: nat)
    requires i < |names| && !Utils.IsVariableReference(Path(argsNode, names[i]))
    requires forall k :: 0 <= k < i ==> Utils.IsVariableReference(Path(argsNode, names[k]))
    ensures ExtractAll(argsNode, names) == Fail("Cannot extract variable reference from parameter: " + names[i])
  {
    var front := names[..|names| - 1];
    var message := "Cannot extract variable reference from parameter: " + names[i];
    if i < |names| - 1 {
      assert front[i] == names[i];
      assert forall k :: 0 <= k < i ==> Utils.IsVariableReference(Path(argsNode, front[k]));
      ExtractAllFailsAtFirst(argsNode, front, i);
      assert ExtractAll(argsNode, front) == Fail(message);
    } else {
      assert forall k :: 0 <= k < |front| ==> Utils.IsVariableReference(Path(argsNode, front[k]));
      assert ExtractAll(argsNode, front).Ok?;
      assert Utils.ExtractVariableReference(argsNode, names[|names| - 1]) == Fail(message);
    }
  }

  /** `(Parameter) beastObjects.get(ref)` for each reference, left to right. */
  function CastAll(objects: map<string, Obj>, refs: seq<string>): (r: Result<seq<Obj>>)
    ensures r.Ok? <==> forall k :: 0 <= k < |refs| ==> Get(objects, refs[k]).Null? || IsParameter(Get(objects, refs[k]))
    ensures r.Ok? ==> |r.value| == |refs| && forall k :: 0 <= k < |refs| ==> r.value[k] == Get(objects, refs[k])
    ensures r.Fail? ==> r.message == ClassCast
  {
    if |refs| == 0 then Ok([])
    else
      match CastAll(objects, refs[..|refs| - 1])
      case Fail(m) => Fail(m)
      case Ok(values) =>
        var target := Get(objects, refs[|refs| - 1]);
        match Cast(target, IsParameter(target))
        case Fail(m) => Fail(m)
        case Ok(value) => Ok(values + [value])
  }

  /** The exchange rates of a GTR model, in the order they are read. */
  const GtrRateNames: seq<string> := ["rateAC", "rateAG", "rateAT", "rateCG", "rateCT", "rateGT"]

  /** `(T) beastObjects.get(name)` followed by a call on it, for the
      substitution model of kind `kind`. */
  function ModelInput(objects: map<string, Obj>, name: string, kind: SubstKind): (r: Result<Obj>)
    ensures r.Ok? <==> Get(objects, name).SubstitutionModel? && Get(objects, name).subst == kind
    ensures r.Ok? ==> r.value == objects[name]
    ensures Get(objects, name).Null? ==> r == Fail(NullPointer)
    ensures r.Fail? && !Get(objects, name).Null? ==> r == Fail(ClassCast)
  {
    var model := Get(objects, name);
    if !(model.Null? || (model.SubstitutionModel? && model.subst == kind)) then Fail(ClassCast)
    else if model.Null? then Fail(NullPointer)
    else Ok(model)
  }

  // ---------------------------------------------------------------- connect

  /** `connectHKYModel`: kappa, then the base frequencies, then the model. */
  function HKYConnected(objects: map<string, Obj>, name: string, funcNode: Json): (r: Result<map<string, Obj>>)
    ensures var argsNode := Path(funcNode, "arguments");
            var kappa := ParameterInput(objects, argsNode, "kappa");
            var freq := ParameterInput(objects, argsNode, "baseFrequencies");
            var model := ModelInput(objects, name, HKY);
            if kappa.Fail? then r == Fail(kappa.message)
            else if freq.Fail? then r == Fail(freq.message)
            else if model.Fail? then r == Fail(model.message)
            else r == Ok(objects[name := SubstitutionModel(model.value.id, HKY, [kappa.value], freq.value)])
  {
    var argsNode := Path(funcNode, "arguments");
    var kappa := ParameterInput(objects, argsNode, "kappa");
    if kappa.Fail? then Fail(kappa.message)
    else
      var freq := ParameterInput(objects, argsNode, "baseFrequencies");
      if freq.Fail? then Fail(freq.message)
      else
        var model := ModelInput(objects, name, HKY);
        if model.Fail? then Fail(model.message)
        else Ok(objects[name := SubstitutionModel(model.value.id, HKY, [kappa.value], freq.value)])
  }

  /** `connectGTRModel`: the six rate references, then their casts, then
      the base frequencies, then the model. */
  function GTRConnected(objects: map<string, Obj>, name: string, funcNode: Json): (r: Result<map<string, Obj>>)
    ensures var argsNode := Path(funcNode, "arguments");
            var refs := ExtractAll(argsNode, GtrRateNames);
            refs.Fail? ==> r == Fail(refs.message)
    ensures r.Ok? ==> name in objects && objects[name].SubstitutionModel? && name in r.value &&
                      r.value == objects[name := r.value[name]]
    ensures r.Ok? ==> var model := r.value[name];
              model.SubstitutionModel? && model.subst == GTR && model.id == objects[name].id &&
              |model.rates| == 6 &&
              forall k :: 0 <= k < 6 ==>
                model.rates[k] == Get(objects, Utils.ExtractVariableReference(Path(funcNode, "arguments"), GtrRateNames[k]).value)
  {
    var argsNode := Path(funcNode, "arguments");
    match ExtractAll(argsNode, GtrRateNames)
    case Fail(m) => Fail(m)
    case Ok(refs) =>
      match CastAll(objects, refs)
      case Fail(m) => Fail(m)
      case Ok(rates) =>
        var freq := ParameterInput(objects, argsNode, "baseFrequencies");
        if freq.Fail? then Fail(freq.message)
        else
          var model := ModelInput(objects, name, GTR);
          if model.Fail? then Fail(model.message)
          else Ok(objects[name := SubstitutionModel(model.value.id, GTR, rates, freq.value)])
  }

  /** `connectNormalizeFunction`: an array of values is left alone; a single
      reference makes the function's name another name for the referenced
      object (null when there is none). */
  function NormalizeConnected(objects: map<string, Obj>, name: string, funcNode: Json): (r: Result<map<string, Obj>>)
    ensures var argsNode := Path(funcNode, "arguments");
            if Path(argsNode, "values").Array? then r == Ok(objects)
            else if !Utils.IsVariableReference(Path(argsNode, "values")) then
              r == Fail("Cannot extract variable reference from parameter: values")
            else r == Ok(objects[name := Get(objects, Utils.ExtractVariableReference(argsNode, "values").value)])
  {
    var argsNode := Path(funcNode, "arguments");
    if Path(argsNode, "values").Array? then Ok(objects)
    else
      match Utils.ExtractVariableReference(argsNode, "values")
      case Fail(m) => Fail(m)
      case Ok(ref) => Ok(objects[name := Get(objects, ref)])
  }

  /** `connectVectorElementFunction`: a one-value parameter holding the
      vector's entry at `index` (Jackson's `asInt`), stored under the
      function's name; an index outside the vector raises, and a null
      vector leaves the table alone. */
  function VectorElementConnected(objects: map<string, Obj>, name: string, funcNode: Json): (r: Result<map<string, Obj>>)
    ensures var argsNode := Path(funcNode, "arguments");
            var vector := ParameterInput(objects, argsNode, "vector");
            var index := AsInt(Path(argsNode, "index"));
            if vector.Fail? then r == Fail(vector.message)
            else if vector.value.Null? then r == Ok(objects)
            else if 0 <= index < |vector.value.values| then
              r == Ok(objects[name := RealParameter(name, [vector.value.values[index]], None, None)])
            else r == Fail(IndexOutOfBounds)
  {
    var argsNode := Path(funcNode, "arguments");
    var vector := ParameterInput(objects, argsNode, "vector");
    var index := AsInt(Path(argsNode, "index"));
    if vector.Fail? then Fail(vector.message)
    else if !vector.value.RealParameter? then Ok(objects)
    else if 0 <= index < |vector.value.values| then
      Ok(objects[name := RealParameter(name, [vector.value.values[index]], None, None)])
    else Fail(IndexOutOfBounds)
  }

  /** The table after `connectFunction`, or its exception. */
  function FunctionConnected(objects: map<string, Obj>, name: string, functionType: string, funcNode: Json): (r: Result<map<string, Obj>>)
    ensures !IsFunctionType(functionType) ==> r == Fail("Unsupported function type: " + functionType)
    ensures functionType == "jc69" ==> r == Ok(objects)
  {
    if functionType == "hky" then HKYConnected(objects, name, funcNode)
    else if functionType == "jc69" then Ok(objects)
    else if functionType == "gtr" then GTRConnected(objects, name, funcNode)
    else if functionType == "normalize" then NormalizeConnected(objects, name, funcNode)
    else if functionType == "vectorElement" then VectorElementConnected(objects, name, funcNode)
    else Fail("Unsupported function type: " + functionType)
  }

  /** Connecting a function sets at most the function's own entry and
      leaves every other entry as it was. */
  lemma ConnectedOnlyTouchesName(objects: map<string, Obj>, name: string, functionType: string, funcNode: Json)
    requires FunctionConnected(objects, name, functionType, funcNode).Ok?
    ensures SetsAtMost(objects, FunctionConnected(objects, name, functionType, funcNode).value, name)
  {
    if functionType == "hky" {
      HKYSetsAtMostName(objects, name, funcNode);
    } else if functionType == "gtr" {
      GTRSetsAtMostName(objects, name, funcNode);
    } else if functionType == "normalize" {
      NormalizeSetsAtMostName(objects, name, funcNode);
    } else if functionType == "vectorElement" {
      VectorElementSetsAtMostName(objects, name, funcNode);
    }
  }

  /** `after` is `before`, or `before` with the entry `name` set. */
  predicate SetsAtMost(before: map<string, Obj>, after: map<string, Obj>, name: string)
  {
    after == before || (name in after && after == before[name := after[name]])
  }

  lemma HKYSetsAtMostName(objects: map<string, Obj>, name: string, funcNode: Json)
    requires HKYConnected(objects, name, funcNode).Ok?
    ensures SetsAtMost(objects, HKYConnected(objects, name, funcNode).value, name)
  {
  }

  lemma GTRSetsAtMostName(objects: map<string, Obj>, name: string, funcNode: Json)
    requires GTRConnected(objects, name, funcNode).Ok?
    ensures SetsAtMost(objects, GTRConnected(objects, name, funcNode).value, name)
  {
  }

  lemma NormalizeSetsAtMostName(objects: map<string, Obj>, name: string, funcNode: Json)
    requires NormalizeConnected(objects, name, funcNode).Ok?
    ensures SetsAtMost(objects, NormalizeConnected(objects, name, funcNode).value, name)
  {
  }

  lemma VectorElementSetsAtMostName(objects: map<string, Obj>, name: string, funcNode: Json)
    requires VectorElementConnected(objects, name, funcNode).Ok?
    ensures SetsAtMost(objects, VectorElementConnected(objects, name, funcNode).value, name)
  {
  }

  /** Connecting a substitution model succeeds only on a model of the
      matching kind, and keeps that model's kind. */
  lemma ConnectedModelKeepsKind(objects: map<string, Obj>, name: string, functionType: string, funcNode: Json)
    requires functionType in {"hky", "gtr"}
    requires FunctionConnected(objects, name, functionType, funcNode).Ok?
    ensures var r := FunctionConnected(objects, name, functionType, funcNode).value;
            name in objects && objects[name].SubstitutionModel? && name in r && r[name].SubstitutionModel? &&
            r[name].subst == objects[name].subst == SubstKindOf(functionType).value
  {
  }

  /** Connecting a substitution model right after creating it never fails
      on the model itself: only its arguments can make it raise. */
  lemma CreatedModelConnects(objects: map<string, Obj>, name: string, functionType: string, funcNode: Json)
    requires functionType in {"hky", "gtr"}
    ensures var created := FunctionCreated(objects, name, functionType).value;
            var argsNode := Path(funcNode, "arguments");
            var connected := FunctionConnected(created, name, functionType, funcNode);
            connected.Ok? <==>
              (functionType == "hky" ==> ParameterInput(created, argsNode, "kappa").Ok?) &&
              (functionType == "gtr" ==> ExtractAll(argsNode, GtrRateNames).Ok? &&
                                         CastAll(created, ExtractAll(argsNode, GtrRateNames).value).Ok?) &&
              ParameterInput(created, argsNode, "baseFrequencies").Ok?
  {
    var created := FunctionCreated(objects, name, functionType).value;
    assert ModelInput(created, name, SubstKindOf(functionType).value).Ok?;
  }

  /** The reference loop of `connectGTRModel`. */
  method ExtractReferences(argsNode: Json, names: seq<string>) returns (r: Result<seq<string>>)
    ensures r == ExtractAll(argsNode, names)
  {
    var refs: seq<string> := [];
    for i := 0 to |names|
      invariant ExtractAll(argsNode, names[..i]) == Ok(refs)
    {
      assert names[..i + 1][..i] == names[..i];
      var ref := Utils.ExtractVariableReference(argsNode, names[i]);
      if ref.Fail? {
        RestFails(argsNode, names, i + 1, ref.message);
        return Fail(ref.message);
      }
      refs := refs + [ref.value];
    }
    assert names[..|names|] == names;
    return Ok(refs);
  }

  /** Once a prefix of the names fails, every longer prefix fails the same way. */
  lemma {:induction false} RestFails(argsNode: Json, names: seq<string>, i: nat, message: string)
    requires i <= |names|
    requires ExtractAll(argsNode, names[..i]) == Fail(message)
    ensures ExtractAll(argsNode, names) == Fail(message)
    decreases |names| - i
  {
    if i < |names| {
      assert names[..i + 1][..i] == names[..i];
      RestFails(argsNode, names, i + 1, message);
    } else {
      assert names[..i] == names;
    }
  }

  /** The cast loop of `connectGTRModel`. */
  method CastParameters(objects: map<string, Obj>, refs: seq<string>) returns (r: Result<seq<Obj>>)
    ensures r == CastAll(objects, refs)
  {
    var values: seq<Obj> := [];
    for i := 0 to |refs|
      invariant CastAll(objects, refs[..i]) == Ok(values)
    {
      assert refs[..i + 1][..i] == refs[..i];
      var target := Get(objects, refs[i]);
      if !(target.Null? || IsParameter(target)) {
        assert CastAll(objects, refs[..i + 1]).Fail?;
        CastRestFails(objects, refs, i + 1);
        return Fail(ClassCast);
      }
      values := values + [target];
    }
    assert refs[..|refs|] == refs;
    return Ok(values);
  }

  lemma {:induction false} CastRestFails(objects: map<string, Obj>, refs: seq<string>, i: nat)
    requires i <= |refs|
    requires CastAll(objects, refs[..i]).Fail?
    ensures CastAll(objects, refs) == Fail(ClassCast)
    decreases |refs| - i
  {
    if i < |refs| {
      assert refs[..i + 1][..i] == refs[..i];
      CastRestFails(objects, refs, i + 1);
    } else {
      assert refs[..i] == refs;
    }
  }

  class FunctionMapper {

    const table: ObjectTable

    constructor(table: ObjectTable)
      ensures this.table == table
    {
      this.table := table;
    }

    /** `createFunction`. */
    method CreateFunction(name: string, functionType: string, funcNode: Json) returns (outcome: Outcome)
      modifies table
      ensures Effect(FunctionCreated(old(table.objects), name, functionType), outcome, old(table.objects), table.objects)
    {
      if functionType == "hky" {
        table.Put(name, SubstitutionModel(name, HKY, [], Null));
      } else if functionType == "jc69" {
        table.Put(name, SubstitutionModel(name, JukesCantor, [], Null));
      } else if functionType == "gtr" {
        table.Put(name, SubstitutionModel(name, GTR, [], Null));
      } else if functionType == "normalize" || functionType == "vectorElement" {
        // connected later; nothing to create
      } else {
        return Thrown("Unsupported function type: " + functionType);
      }
      outcome := Done;
    }

    /** `connectFunction`. */
    method ConnectFunction(name: string, functionType: string, funcNode: Json) returns (outcome: Outcome)
      modifies table
      ensures Effect(FunctionConnected(old(table.objects), name, functionType, funcNode), outcome, old(table.objects), table.objects)
    {
      if functionType == "hky" {
        outcome := ConnectHKYModel(name, funcNode);
      } else if functionType == "jc69" {
        outcome := Done;
      } else if functionType == "gtr" {
        outcome := ConnectGTRModel(name, funcNode);
      } else if functionType == "normalize" {
        outcome := ConnectNormalizeFunction(name, funcNode);
      } else if functionType == "vectorElement" {
        outcome := ConnectVectorElementFunction(name, funcNode);
      } else {
        outcome := Thrown("Unsupported function type: " + functionType);
      }
    }

    /** `connectHKYModel`. */
    method ConnectHKYModel(name: string, funcNode: Json) returns (outcome: Outcome)
      modifies table
      ensures Effect(HKYConnected(old(table.objects), name, funcNode), outcome, old(table.objects), table.objects)
    {
      var argsNode := Path(funcNode, "arguments");
      var kappa := ParameterInput(table.objects, argsNode, "kappa");
      if kappa.Fail? {
        return Thrown(kappa.message);
      }
      var freq := ParameterInput(table.objects, argsNode, "baseFrequencies");
      if freq.Fail? {
        return Thrown(freq.message);
      }
      var model := ModelInput(table.objects, name, HKY);
      if model.Fail? {
        return Thrown(model.message);
      }
      table.Put(name, SubstitutionModel(model.value.id, HKY, [kappa.value], freq.value));
      outcome := Done;
    }

    /** `connectGTRModel`. */
    method ConnectGTRModel(name: string, funcNode: Json) returns (outcome: Outcome)
      modifies table
      ensures Effect(GTRConnected(old(table.objects), name, funcNode), outcome, old(table.objects), table.objects)
    {
      var argsNode := Path(funcNode, "arguments");
      var refs := ExtractReferences(argsNode, GtrRateNames);
      if refs.Fail? {
        return Thrown(refs.message);
      }
      var rates := CastParameters(table.objects, refs.value);
      if rates.Fail? {
        return Thrown(rates.message);
      }
      var freq := ParameterInput(table.objects, argsNode, "baseFrequencies");
      if freq.Fail? {
        return Thrown(freq.message);
      }
      var model := ModelInput(table.objects, name, GTR);
      if model.Fail? {
        return Thrown(model.message);
      }
      table.Put(name, SubstitutionModel(model.value.id, GTR, rates.value, freq.value));
      outcome := Done;
    }

    /** `connectNormalizeFunction`. */
    method ConnectNormalizeFunction(name: string, funcNode: Json) returns (outcome: Outcome)
      modifies table
      ensures Effect(NormalizeConnected(old(table.objects), name, funcNode), outcome, old(table.objects), table.objects)
    {
      var argsNode := Path(funcNode, "arguments");
      if !Path(argsNode, "values").Array? {
        var valueRef := Utils.ExtractVariableReference(argsNode, "values");
        if valueRef.Fail? {
          return Thrown(valueRef.message);
        }
        table.Put(name, Get(table.objects, valueRef.value));
      }
      outcome := Done;
    }

    /** `connectVectorElementFunction`. */
    method ConnectVectorElementFunction(name: string, funcNode: Json) returns (outcome: Outcome)
      modifies table
      ensures Effect(VectorElementConnected(old(table.objects), name, funcNode), outcome, old(table.objects), table.objects)
    {
      var argsNode := Path(funcNode, "arguments");
      var vector := ParameterInput(table.objects, argsNode, "vector");
      if vector.Fail? {
        return Thrown(vector.message);
      }
      var index := AsInt(Path(argsNode, "index"));
      if vector.value.RealParameter? {
        if !(0 <= index < |vector.value.values|) {
          return Thrown(IndexOutOfBounds);
        }
        table.Put(name, RealParameter(name, [vector.value.values[index]], None, None));
      }
      outcome := Done;
    }
  }
}
