/** The read-only part of `ModelBuilder`: the searches it runs over the
    Codephy model (clock use, observed variables, the first PhyloCTMC, the
    first substitution-model function, gamma site rates) and the rules that
    pick the prior's distributions, the state nodes and the operators out of
    the shared table. `beastObjects` is a `HashMap`, so every rule over it
    is stated as membership, whatever the order of iteration. */
module ModelSelection {

  import opened Results
  import opened Json
  import opened Beast
  import Text
  import Lists

  // ---------------------------------------------------------------- the model

  /** `model.path("randomVariables").fields()`, empty when absent. */
  function RandomVariables(model: Json): seq<(string, Json)>
  {
    Fields(Path(model, "randomVariables"))
  }

  /** `model.path("deterministicFunctions").fields()`, empty when absent. */
  function DeterministicFunctions(model: Json): seq<(string, Json)>
  {
    Fields(Path(model, "deterministicFunctions"))
  }

  function DistributionType(varNode: Json): string
  {
    AsText(Path(Path(varNode, "distribution"), "type"))
  }

  function DistributionParameters(varNode: Json): Json
  {
    Path(Path(varNode, "distribution"), "parameters")
  }

  function FunctionType(funcNode: Json): string
  {
    AsText(Path(funcNode, "function"))
  }

  predicate IsPhyloCTMCEntry(entry: (string, Json))
  {
    DistributionType(entry.1) == "PhyloCTMC"
  }

  /** A function naming one of the clocks. */
  predicate IsClockEntry(entry: (string, Json))
  {
    FunctionType(entry.1) in {"strictClock", "relaxedClock", "uncorrelatedClock"}
  }

  /** A PhyloCTMC variable with a `rate` or `branchRates` parameter. */
  predicate IsRatedEntry(entry: (string, Json))
  {
    IsPhyloCTMCEntry(entry) &&
    (Has(DistributionParameters(entry.1), "rate") || Has(DistributionParameters(entry.1), "branchRates"))
  }

  /** A PhyloCTMC variable with a `siteRates` parameter. */
  predicate IsGammaEntry(entry: (string, Json))
  {
    IsPhyloCTMCEntry(entry) && Has(DistributionParameters(entry.1), "siteRates")
  }

  /** A function the model builder takes for the substitution model: the
      upper-case names "HKY", "JC69" and "GTR". */
  predicate IsSubstitutionEntry(entry: (string, Json))
  {
    FunctionType(entry.1) in {"HKY", "JC69", "GTR"}
  }

  /** The model asks for a molecular clock. */
  predicate UsesClock(model: Json)
  {
    AnyEntry(DeterministicFunctions(model), IsClockEntry) || AnyEntry(RandomVariables(model), IsRatedEntry)
  }

  /** Some entry satisfies p. */
  predicate AnyEntry(entries: seq<(string, Json)>, p: ((string, Json)) -> bool)
  {
    exists i :: 0 <= i < |entries| && p(entries[i])
  }

  /** The model asks for gamma rate heterogeneity. */
  predicate UsesGamma(model: Json)
  {
    exists i :: 0 <= i < |RandomVariables(model)| && IsGammaEntry(RandomVariables(model)[i])
  }

  /** `doesModelUseClock`: the function loop, then the variable loop, each
      returning at the first hit. */
  method DoesModelUseClock(model: Json) returns (useClock: bool)
    ensures useClock == UsesClock(model)
  {
    useClock := AnyMatch(DeterministicFunctions(model), IsClockEntry);
    if !useClock {
      useClock := AnyMatch(RandomVariables(model), IsRatedEntry);
    }
  }

  /** The gamma search of `setupSiteModel`, stopping at the first hit. */
  method FindSiteRates(model: Json) returns (useGamma: bool)
    ensures useGamma == UsesGamma(model)
  {
    var variables := RandomVariables(model);
    useGamma := false;
    var i := 0;
    while i < |variables|
      invariant 0 <= i <= |variables|
      invariant forall k :: 0 <= k < i ==> !IsGammaEntry(variables[k])
    {
      if IsGammaEntry(variables[i]) {
        useGamma := true;
        break;
      }
      i := i + 1;
    }
  }

  /** One of the loops of `doesModelUseClock`: true at the first entry
      `p` accepts, false after the last. */
  method AnyMatch(entries: seq<(string, Json)>, p: ((string, Json)) -> bool) returns (hit: bool)
    ensures hit == AnyEntry(entries, p)
  {
    for i := 0 to |entries|
      invariant forall k :: 0 <= k < i ==> !p(entries[k])
    {
      if p(entries[i]) {
        return true;
      }
    }
    return false;
  }

  // ---------------------------------------------------------------- observed variables

  /** `buildObservationMap`: each random variable's name mapped to whether
      it has an `observedValue`, a later entry of the same name overwriting
      an earlier one. */
  function ObservationMap(variables: seq<(string, Json)>): map<string, bool>
  {
    if |variables| == 0 then map[]
    else
      var last := variables[|variables| - 1];
      ObservationMap(variables[..|variables| - 1])[last.0 := Has(last.1, "observedValue")]
  }

  /** Every random variable, and nothing else, has an entry. */
  lemma {:induction false} ObservationMapKeys(variables: seq<(string, Json)>)
    ensures ObservationMap(variables).Keys == set i | 0 <= i < |variables| :: variables[i].0
  {
    if |variables| > 0 {
      var front := variables[..|variables| - 1];
      ObservationMapKeys(front);
      assert forall i :: 0 <= i < |front| ==> front[i] == variables[i];
      assert (set i | 0 <= i < |variables| :: variables[i].0)
          == (set i | 0 <= i < |front| :: front[i].0) + {variables[|variables| - 1].0};
    }
  }

  /** The entry of a name records the last variable of that name. */
  lemma {:induction false} ObservationMapLast(variables: seq<(string, Json)>, i: nat)
    requires i < |variables|
    requires forall j :: i < j < |variables| ==> variables[j].0 != variables[i].0
    ensures variables[i].0 in ObservationMap(variables)
    ensures ObservationMap(variables)[variables[i].0] == Has(variables[i].1, "observedValue")
  {
    var front := variables[..|variables| - 1];
    if i < |variables| - 1 {
      assert front[i] == variables[i];
      ObservationMapLast(front, i);
    }
  }

  /** The loop of `buildObservationMap`. */
  method BuildObservationMap(model: Json) returns (observed: map<string, bool>)
    ensures observed == ObservationMap(RandomVariables(model))
  {
    var variables := RandomVariables(model);
    observed := map[];
    for i := 0 to |variables|
      invariant observed == ObservationMap(variables[..i])
    {
      assert variables[..i + 1][..i] == variables[..i];
      observed := observed[variables[i].0 := Has(variables[i].1, "observedValue")];
    }
    assert variables[..|variables|] == variables;
  }

  /** The random variable `id` is known to have observed data. */
  predicate Observed(observed: map<string, bool>, id: string)
  {
    id in observed && observed[id]
  }

  // ---------------------------------------------------------------- the prior

  /** A distribution stored under a key ending in "Prior": the first loop of
      `setupPrior` takes all of these. */
  predicate PriorKeyed(objects: map<string, Obj>, k: string)
  {
    k in objects && Text.EndsWith(k, "Prior") && IsDistribution(objects[k])
  }

  /** A distribution the second loop of `setupPrior` adds: not the
      likelihood or posterior, not an observed variable, not a tree
      likelihood. */
  predicate ImplicitPrior(observed: map<string, bool>, d: Obj)
  {
    IsDistribution(d) && d.id != "likelihood" && d.id != "posterior" && !Observed(observed, d.id) && !d.TreeLikelihood?
  }

  /** The distributions `setupPrior` puts in the prior. */
  ghost predicate PriorMember(objects: map<string, Obj>, observed: map<string, bool>, d: Obj)
  {
    (exists k :: PriorKeyed(objects, k) && objects[k] == d) || (d in objects.Values && ImplicitPrior(observed, d))
  }

  /** No object is stored under two keys ending in "Prior". */
  ghost predicate PriorKeysDistinct(objects: map<string, Obj>)
  {
    forall k1, k2 :: PriorKeyed(objects, k1) && PriorKeyed(objects, k2) && k1 != k2 ==> objects[k1] != objects[k2]
  }

  /** The first loop of `setupPrior`: every distribution under a "Prior" key. */
  method PriorKeyedDistributions(objects: map<string, Obj>, keys: seq<string>) returns (priors: seq<Obj>)
    requires forall k :: k in objects <==> k in keys
    requires forall i, j :: 0 <= i < j < |keys| ==> keys[i] != keys[j]
    ensures forall d :: d in priors <==> exists k :: PriorKeyed(objects, k) && objects[k] == d
    ensures PriorKeysDistinct(objects) ==> forall a, b :: 0 <= a < b < |priors| ==> priors[a] != priors[b]
  {
    priors := [];
    for i := 0 to |keys|
      invariant forall d :: d in priors <==> exists j :: 0 <= j < i && PriorKeyed(objects, keys[j]) && objects[keys[j]] == d
      invariant PriorKeysDistinct(objects) ==> forall a, b :: 0 <= a < b < |priors| ==> priors[a] != priors[b]
    {
      if PriorKeyed(objects, keys[i]) {
        if PriorKeysDistinct(objects) {
          NextPriorIsNew(objects, keys, i, priors);
        }
        priors := priors + [objects[keys[i]]];
      }
    }
    KeyedPriorsComplete(objects, keys, priors);
  }

  /** Once every key has been looked at, the distributions found are those
      under "Prior" keys. */
  lemma KeyedPriorsComplete(objects: map<string, Obj>, keys: seq<string>, priors: seq<Obj>)
    requires forall k :: k in objects <==> k in keys
    requires forall d :: d in priors <==> exists j :: 0 <= j < |keys| && PriorKeyed(objects, keys[j]) && objects[keys[j]] == d
    ensures forall d :: d in priors <==> exists k :: PriorKeyed(objects, k) && objects[k] == d
  {
    forall d | exists k :: PriorKeyed(objects, k) && objects[k] == d
      ensures d in priors
    {
      var k :| PriorKeyed(objects, k) && objects[k] == d;
      var j :| 0 <= j < |keys| && keys[j] == k;
    }
  }

  /** With distinct keys and no object under two "Prior" keys, the
      distribution under the i-th key is not among those of earlier keys. */
  lemma NextPriorIsNew(objects: map<string, Obj>, keys: seq<string>, i: nat, priors: seq<Obj>)
    requires i < |keys| && PriorKeyed(objects, keys[i]) && PriorKeysDistinct(objects)
    requires forall i, j :: 0 <= i < j < |keys| ==> keys[i] != keys[j]
    requires forall d :: d in priors <==> exists j :: 0 <= j < i && PriorKeyed(objects, keys[j]) && objects[keys[j]] == d
    ensures objects[keys[i]] !in priors
  {
    forall a | 0 <= a < |priors| ensures priors[a] != objects[keys[i]] {
      assert priors[a] in priors;
      var j :| 0 <= j < i && PriorKeyed(objects, keys[j]) && objects[keys[j]] == priors[a];
      assert keys[j] != keys[i];
    }
  }

  /** `setupPrior`'s selection: the "Prior"-keyed distributions, then every
      other distribution the rules admit that is not already there. */
  method SelectPriors(objects: map<string, Obj>, observed: map<string, bool>) returns (priors: seq<Obj>)
    ensures forall d :: d in priors <==> PriorMember(objects, observed, d)
    ensures PriorKeysDistinct(objects) ==> forall a, b :: 0 <= a < b < |priors| ==> priors[a] != priors[b]
  {
    var keys := KeysInSomeOrder(objects);
    priors := PriorKeyedDistributions(objects, keys);
    ghost var first := priors;
    for i := 0 to |keys|
      invariant first <= priors
      invariant forall d :: d in priors <==> d in first || exists j :: 0 <= j < i && objects[keys[j]] == d && ImplicitPrior(observed, d)
      invariant PriorKeysDistinct(objects) ==> forall a, b :: 0 <= a < b < |priors| ==> priors[a] != priors[b]
    {
      var d := objects[keys[i]];
      if IsDistribution(d) && !(d in priors || d.id == "likelihood" || d.id == "posterior") &&
         !Observed(observed, d.id) && !d.TreeLikelihood? {
        priors := priors + [d];
      }
    }
    forall d | d in objects.Values && ImplicitPrior(observed, d)
      ensures d in priors
    {
      var k :| k in objects && objects[k] == d;
      var j :| 0 <= j < |keys| && keys[j] == k;
    }
  }

  /** The tree likelihood never enters the prior unless it is stored under a
      "Prior" key. */
  lemma TreeLikelihoodStaysOut(objects: map<string, Obj>, observed: map<string, bool>, d: Obj)
    requires d.TreeLikelihood?
    requires forall k :: k in objects && objects[k] == d ==> !Text.EndsWith(k, "Prior")
    ensures !PriorMember(objects, observed, d)
  {
  }

  // ---------------------------------------------------------------- the state

  /** A state node `setupState` keeps: parameters and trees (never an
      alignment), and "clockRate" only when a clock is used. */
  predicate StateRule(o: Obj, useClock: bool)
  {
    IsStateNode(o) && !o.Alignment? && (o.id != "clockRate" || useClock)
  }

  /** A loop over `beastObjects.values()` that keeps the objects `keep`
      accepts: the shape of `setupState` and of the logger item loops of
      `setupMCMC`. */
  method SelectValues(objects: map<string, Obj>, keep: Obj -> bool) returns (chosen: seq<Obj>)
    ensures forall o :: o in chosen <==> o in objects.Values && keep(o)
  {
    var keys := KeysInSomeOrder(objects);
    chosen := [];
    for i := 0 to |keys|
      invariant forall o :: o in chosen <==> exists j :: 0 <= j < i && objects[keys[j]] == o && keep(o)
    {
      var o := objects[keys[i]];
      if keep(o) {
        chosen := chosen + [o];
      }
    }
    forall o | o in objects.Values && keep(o)
      ensures o in chosen
    {
      var k :| k in objects && objects[k] == o;
      var j :| 0 <= j < |keys| && keys[j] == k;
    }
  }

  // ---------------------------------------------------------------- the operators

  /** A parameter `setupOperators` moves and the file logger records:
      every parameter, except "clockRate" when no clock is used. */
  predicate SampledParameter(o: Obj, useClock: bool)
  {
    o.RealParameter? && (o.id != "clockRate" || useClock)
  }

  /** The operator of a parameter: a delta exchange for a vector, a scale
      operator otherwise, of weight 1. */
  function ParameterOperator(p: Obj): (op: Obj)
    requires p.RealParameter?
    ensures op.Operator? && op.id == p.id + "Operator" && op.target == p && op.weight == 1.0
    ensures op.operator == DeltaExchange <==> |p.values| > 1
    ensures op.operator == Scale <==> |p.values| <= 1
  {
    Operator(p.id + "Operator", if |p.values| > 1 then DeltaExchange else Scale, p, 1.0)
  }

  /** The suffix and weight of each of the seven tree operators. */
  const TreeOperatorSuffixes: seq<string> :=
    ["SubtreeSlide", "NarrowExchange", "WideExchange", "WilsonBalding", "TreeScaler", "RootHeightScaler", "Uniform"]
  const TreeOperatorKinds: seq<OperatorKind> :=
    [SubtreeSlide, NarrowExchange, WideExchange, WilsonBalding, TreeScaler, RootHeightScaler, UniformOperator]
  const TreeOperatorWeights: seq<real> := [5.0, 5.0, 3.0, 3.0, 3.0, 3.0, 30.0]

  /** The seven operators of a tree. */
  function TreeOperators(t: Obj): (ops: seq<Obj>)
    requires t.Tree?
    ensures |ops| == 7
    ensures forall k :: 0 <= k < 7 ==> ops[k].Operator? && ops[k].target == t
    ensures forall a, b :: 0 <= a < b < 7 ==> ops[a].id != ops[b].id
    ensures forall k :: 0 <= k < 7 ==> Text.StartsWith(ops[k].id, t.id)
    ensures ops == [Operator(t.id + "SubtreeSlide", SubtreeSlide, t, 5.0),
                    Operator(t.id + "NarrowExchange", NarrowExchange, t, 5.0),
                    Operator(t.id + "WideExchange", WideExchange, t, 3.0),
                    Operator(t.id + "WilsonBalding", WilsonBalding, t, 3.0),
                    Operator(t.id + "TreeScaler", TreeScaler, t, 3.0),
                    Operator(t.id + "RootHeightScaler", RootHeightScaler, t, 3.0),
                    Operator(t.id + "Uniform", UniformOperator, t, 30.0)]
  {
    var ops := seq(7, k requires 0 <= k < 7 =>
      Operator(t.id + TreeOperatorSuffixes[k], TreeOperatorKinds[k], t, TreeOperatorWeights[k]));
    forall a, b | 0 <= a < b < 7
      ensures ops[a].id != ops[b].id
    {
      SuffixesDiffer(t.id, TreeOperatorSuffixes[a], TreeOperatorSuffixes[b]);
    }
    forall k | 0 <= k < 7
      ensures Text.StartsWith(ops[k].id, t.id)
    {
      assert (t.id + TreeOperatorSuffixes[k])[..|t.id|] == t.id;
    }
    ops
  }

  lemma SuffixesDiffer(prefix: string, s1: string, s2: string)
    requires s1 != s2
    ensures prefix + s1 != prefix + s2
  {
    assert (prefix + s1)[|prefix|..] == s1;
    assert (prefix + s2)[|prefix|..] == s2;
  }

  /** The operators `setupOperators` makes for one object of the snapshot. */
  predicate OperatorOf(o: Obj, useClock: bool, op: Obj)
  {
    (SampledParameter(o, useClock) && op == ParameterOperator(o)) || (o.Tree? && op in TreeOperators(o))
  }

  /** The two loops of `setupOperators` over one snapshot of the table:
      parameter operators first, then the tree operators. */
  method CollectOperators(objects: map<string, Obj>, useClock: bool) returns (operators: seq<Obj>)
    ensures forall op :: op in operators <==> exists k :: k in objects && OperatorOf(objects[k], useClock, op)
    ensures forall a :: 0 <= a < |operators| ==> operators[a].Operator?
    ensures forall a :: 0 <= a < |operators| ==> operators[a].target.RealParameter? || operators[a].target.Tree?
    ensures forall a, b :: 0 <= a < b < |operators| && operators[a].target.Tree? ==> operators[b].target.Tree?
  {
    var keys := KeysInSomeOrder(objects);
    var parameterOps: seq<Obj> := [];
    for i := 0 to |keys|
      invariant forall a :: 0 <= a < |parameterOps| ==> parameterOps[a].Operator? && parameterOps[a].target.RealParameter?
      invariant forall op :: op in parameterOps <==>
                  exists j :: 0 <= j < i && SampledParameter(objects[keys[j]], useClock) && op == ParameterOperator(objects[keys[j]])
    {
      var o := objects[keys[i]];
      if SampledParameter(o, useClock) {
        parameterOps := parameterOps + [ParameterOperator(o)];
      }
    }
    var treeOps: seq<Obj> := [];
    for i := 0 to |keys|
      invariant forall a :: 0 <= a < |treeOps| ==> treeOps[a].Operator? && treeOps[a].target.Tree?
      invariant forall op :: op in treeOps <==> exists j :: 0 <= j < i && objects[keys[j]].Tree? && op in TreeOperators(objects[keys[j]])
    {
      var o := objects[keys[i]];
      if o.Tree? {
        treeOps := treeOps + TreeOperators(o);
      }
    }
    operators := parameterOps + treeOps;
    forall op | op in operators
      ensures exists k :: k in objects && OperatorOf(objects[k], useClock, op)
    {
      var j :| 0 <= j < |keys| && OperatorOf(objects[keys[j]], useClock, op);
      assert keys[j] in objects;
    }
    forall op | exists k :: k in objects && OperatorOf(objects[k], useClock, op)
      ensures op in operators
    {
      var k :| k in objects && OperatorOf(objects[k], useClock, op);
      var j :| 0 <= j < |keys| && keys[j] == k;
      if SampledParameter(objects[k], useClock) && op == ParameterOperator(objects[k]) {
        assert op in parameterOps;
      } else {
        assert op in treeOps;
      }
    }
  }

  /** `beastObjects.put(op.getID(), op)` for each operator in turn. */
  function PutAll(objects: map<string, Obj>, operators: seq<Obj>): (r: map<string, Obj>)
    requires forall a :: 0 <= a < |operators| ==> operators[a].Operator?
    ensures r.Keys == objects.Keys + set a | 0 <= a < |operators| :: operators[a].id
  {
    if |operators| == 0 then objects
    else
      var front := operators[..|operators| - 1];
      var last := operators[|operators| - 1];
      assert forall a :: 0 <= a < |front| ==> front[a] == operators[a];
      assert (set a | 0 <= a < |operators| :: operators[a].id) == (set a | 0 <= a < |front| :: front[a].id) + {last.id};
      PutAll(objects, front)[last.id := last]
  }

  /** An entry under a name no operator has is left alone. */
  lemma {:induction false} PutAllKeeps(objects: map<string, Obj>, operators: seq<Obj>, k: string)
    requires forall a :: 0 <= a < |operators| ==> operators[a].Operator?
    requires k in objects && forall a :: 0 <= a < |operators| ==> operators[a].id != k
    ensures PutAll(objects, operators)[k] == objects[k]
  {
    if |operators| > 0 {
      PutAllKeeps(objects, operators[..|operators| - 1], k);
    }
  }

  /** Each operator's name holds an operator of that name: the last one
      put under it. */
  lemma {:induction false} PutAllStores(objects: map<string, Obj>, operators: seq<Obj>, a: nat)
    requires forall a :: 0 <= a < |operators| ==> operators[a].Operator?
    requires a < |operators|
    ensures PutAll(objects, operators)[operators[a].id] in operators
    ensures PutAll(objects, operators)[operators[a].id].id == operators[a].id
  {
    var n := |operators|;
    if a < n - 1 && operators[a].id != operators[n - 1].id {
      var front := operators[..n - 1];
      PutAllStores(objects, front, a);
      assert front[a] == operators[a];
    }
  }

}
