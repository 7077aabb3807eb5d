/** `StandardDistributionsMapper`: each random variable with a standard
    distribution becomes a `RealParameter` stored under the variable's name
    and a `Prior` stored under `name + ".prior"`. Initial values are kept
    symbolic (see the Doubles module). */
module StandardMapper {

  import opened Results
  import opened Json
  import opened Doubles
  import opened Beast
  import Utils
  import Lists

  /** The type name of each family, as the Codephy JSON writes it. */
  function TypeName(f: Family): string
  {
    match f
    case Normal => "Normal"
    case LogNormal => "LogNormal"
    case Gamma => "Gamma"
    case Exponential => "Exponential"
    case Beta => "Beta"
    case Uniform => "Uniform"
    case Dirichlet => "Dirichlet"
  }

  /** The switch of `createStandardDistribution`: the family a type name
      selects, or None for the default branch. */
  function FamilyOf(distType: string): (r: Option<Family>)
    ensures r.Some? ==> TypeName(r.value) == distType
    ensures r.None? ==> forall f: Family :: TypeName(f) != distType
    ensures r.Some? <==> distType in {"Normal", "LogNormal", "Gamma", "Exponential", "Beta", "Uniform", "Dirichlet"}
  {
    if distType == "Normal" then Some(Normal)
    else if distType == "LogNormal" then Some(LogNormal)
    else if distType == "Gamma" then Some(Gamma)
    else if distType == "Exponential" then Some(Exponential)
    else if distType == "Beta" then Some(Beta)
    else if distType == "Uniform" then Some(Uniform)
    else if distType == "Dirichlet" then Some(Dirichlet)
    else None
  }

  /** The hyperparameters a scalar family reads from `parameters`, in order. */
  function HyperNames(f: Family): seq<string>
  {
    match f
    case Normal => ["mean", "sigma"]
    case LogNormal => ["m", "s"]
    case Gamma => ["alpha", "beta"]
    case Exponential => ["lambda"]
    case Beta => ["alpha", "beta"]
    case Uniform => ["lower", "upper"]
    case Dirichlet => []
  }

  /** Each hyperparameter read with `Utils.extractNumericValue`, so that an
      absent or non-numeric one reads as 1.0. */
  function Hyperparameters(f: Family, paramsNode: Json): (r: seq<Num>)
    ensures |r| == |HyperNames(f)|
    ensures forall k :: 0 <= k < |r| ==> r[k] == Utils.ExtractNumericValue(paramsNode, HyperNames(f)[k])
  {
    seq(|HyperNames(f)|, k requires 0 <= k < |HyperNames(f)| => Utils.ExtractNumericValue(paramsNode, HyperNames(f)[k]))
  }

  /** The starting value of a scalar family's parameter: the mean, the
      median exp(m), alpha/beta, 1/lambda, alpha/(alpha+beta), or the
      midpoint (lower+upper)/2. */
  function InitialValue(f: Family, h: seq<Num>): Num
    requires f != Dirichlet && |h| == |HyperNames(f)|
  {
    match f
    case Normal => h[0]
    case LogNormal => Exp(h[0])
    case Gamma => Div(h[0], h[1])
    case Exponential => Div(Lit(1.0), h[0])
    case Beta => Div(h[0], Add(h[0], h[1]))
    case Uniform => Div(Add(h[0], h[1]), Lit(2.0))
  }

  /** The `lower`/`upper` inputs a scalar family gives its parameter. */
  function ScalarBounds(f: Family, h: seq<Num>): (Option<Num>, Option<Num>)
    requires |h| == |HyperNames(f)|
  {
    match f
    case Beta => (Some(Lit(0.0)), Some(Lit(1.0)))
    case Uniform => (Some(h[0]), Some(h[1]))
    case _ => (None, None)
  }

  /** The parameter a scalar family stores under `name`. */
  function ScalarParameter(name: string, f: Family, paramsNode: Json): (p: Obj)
    requires f != Dirichlet
    ensures p.RealParameter? && p.id == name
    ensures Utils.ExtractDimension(paramsNode) > 1 ==> |p.values| == Utils.ExtractDimension(paramsNode)
    ensures Utils.ExtractDimension(paramsNode) <= 1 ==> |p.values| == 1
    ensures forall k :: 0 <= k < |p.values| ==> p.values[k] == InitialValue(f, Hyperparameters(f, paramsNode))
    ensures f == Beta ==> p.lower == Some(Lit(0.0)) && p.upper == Some(Lit(1.0))
    ensures f == Uniform ==> p.lower == Some(Utils.ExtractNumericValue(paramsNode, "lower")) &&
                             p.upper == Some(Utils.ExtractNumericValue(paramsNode, "upper"))
    ensures f != Beta && f != Uniform ==> p.lower.None? && p.upper.None?
  {
    var h := Hyperparameters(f, paramsNode);
    var dimension := Utils.ExtractDimension(paramsNode);
    var bounds := ScalarBounds(f, h);
    RealParameter(name, Lists.Repeat(InitialValue(f, h), if dimension > 1 then dimension else 1), bounds.0, bounds.1)
  }

  /** The concentrations of a Dirichlet: each element of an `alpha` array,
      or a non-array `alpha` repeated `extractDimension` times (4 times when
      that is at most 1). */
  function DirichletAlpha(paramsNode: Json): (alpha: seq<Num>)
    ensures Path(paramsNode, "alpha").Array? ==>
              |alpha| == |Path(paramsNode, "alpha").items| &&
              forall k :: 0 <= k < |alpha| ==> alpha[k] == AsDouble(Path(paramsNode, "alpha").items[k])
    ensures !Path(paramsNode, "alpha").Array? ==>
              |alpha| == (if Utils.ExtractDimension(paramsNode) <= 1 then 4 else Utils.ExtractDimension(paramsNode)) &&
              forall k :: 0 <= k < |alpha| ==> alpha[k] == AsDouble(Path(paramsNode, "alpha"))
  {
    var alphaNode := Path(paramsNode, "alpha");
    if alphaNode.Array? then
      seq(|alphaNode.items|, k requires 0 <= k < |alphaNode.items| => AsDouble(alphaNode.items[k]))
    else
      var dimension := Utils.ExtractDimension(paramsNode);
      Lists.Repeat(AsDouble(alphaNode), if dimension <= 1 then 4 else dimension)
  }

  /** Each concentration divided by their sum. */
  function Normalized(alpha: seq<Num>): (r: seq<Num>)
    ensures |r| == |alpha|
    ensures forall k :: 0 <= k < |r| ==> r[k] == Div(alpha[k], Sum(alpha))
  {
    seq(|alpha|, k requires 0 <= k < |alpha| => Div(alpha[k], Sum(alpha)))
  }

  /** The parameter of a Dirichlet: the normalised concentrations, bounded
      to [0.0, 1.0]. */
  function DirichletParameter(name: string, paramsNode: Json): (p: Obj)
    ensures p.RealParameter? && p.id == name
    ensures p.values == Normalized(DirichletAlpha(paramsNode))
    ensures p.lower == Some(Lit(0.0)) && p.upper == Some(Lit(1.0))
  {
    RealParameter(name, Normalized(DirichletAlpha(paramsNode)), Some(Lit(0.0)), Some(Lit(1.0)))
  }

  /** The parameter a family stores under `name`. */
  function FamilyParameter(name: string, f: Family, paramsNode: Json): Obj
  {
    if f == Dirichlet then DirichletParameter(name, paramsNode) else ScalarParameter(name, f, paramsNode)
  }

  /** The distribution's own inputs: the hyperparameters, or the Dirichlet's
      concentrations. */
  function FamilyHyper(f: Family, paramsNode: Json): seq<Num>
  {
    if f == Dirichlet then DirichletAlpha(paramsNode) else Hyperparameters(f, paramsNode)
  }

  /** The table after `createStandardDistribution`, or the exception it
      throws (before writing anything). */
  function StandardCreated(objects: map<string, Obj>, name: string, distType: string, distNode: Json)
    : (r: Result<map<string, Obj>>)
    ensures r.Ok? <==> FamilyOf(distType).Some?
    ensures r.Fail? ==> r.message == "Unsupported distribution type: " + distType
    ensures r.Ok? ==> r.value.Keys == objects.Keys + {name, name + ".prior"}
    ensures r.Ok? ==> forall k :: k in objects && k != name && k != name + ".prior" ==> r.value[k] == objects[k]
    ensures r.Ok? ==> r.value[name].RealParameter? && r.value[name].id == name
    ensures r.Ok? ==> r.value[name + ".prior"].Prior? &&
                      r.value[name + ".prior"].id == name + ".prior" &&
                      r.value[name + ".prior"].x == r.value[name] &&
                      TypeName(r.value[name + ".prior"].family) == distType
  {
    match FamilyOf(distType)
    case None => Fail("Unsupported distribution type: " + distType)
    case Some(f) =>
      var paramsNode := Path(distNode, "parameters");
      var parameter := FamilyParameter(name, f, paramsNode);
      assert name != name + ".prior" by { assert |name + ".prior"| == |name| + 6; }
      Ok(objects[name := parameter][name + ".prior" := Prior(name + ".prior", parameter, f, FamilyHyper(f, paramsNode))])
  }

  /** `values.add(v)` repeated `n` times. */
  method RepeatValue(v: Num, n: nat) returns (values: seq<Num>)
    ensures values == Lists.Repeat(v, n)
  {
    values := [];
    for i := 0 to n
      invariant values == Lists.Repeat(v, i)
    {
      values := values + [v];
    }
  }

  /** The loop that reads the Dirichlet's concentrations. */
  method AlphaValues(paramsNode: Json) returns (alphaValues: seq<Num>)
    ensures alphaValues == DirichletAlpha(paramsNode)
  {
    var alphaNode := Path(paramsNode, "alpha");
    if alphaNode.Array? {
      alphaValues := [];
      for i := 0 to Size(alphaNode)
        invariant |alphaValues| == i
        invariant forall k :: 0 <= k < i ==> alphaValues[k] == AsDouble(alphaNode.items[k])
      {
        alphaValues := alphaValues + [AsDouble(alphaNode.items[i])];
      }
    } else {
      var alpha := AsDouble(alphaNode);
      var dimension := Utils.ExtractDimension(paramsNode);
      if dimension <= 1 {
        dimension := 4;
      }
      alphaValues := RepeatValue(alpha, dimension);
    }
  }

  /** The loop `sum += a`. */
  method SumValues(alphaValues: seq<Num>) returns (sum: Num)
    ensures sum == Sum(alphaValues)
  {
    sum := Lit(0.0);
    for i := 0 to |alphaValues|
      invariant sum == Sum(alphaValues[..i])
    {
      assert alphaValues[..i + 1][..i] == alphaValues[..i];
      sum := Add(sum, alphaValues[i]);
    }
    assert alphaValues[..|alphaValues|] == alphaValues;
  }

  /** The loop `normalizedValues.add(a / sum)`. */
  method NormalizeValues(alphaValues: seq<Num>, sum: Num) returns (normalized: seq<Num>)
    ensures |normalized| == |alphaValues|
    ensures forall k :: 0 <= k < |normalized| ==> normalized[k] == Div(alphaValues[k], sum)
  {
    normalized := [];
    for i := 0 to |alphaValues|
      invariant |normalized| == i
      invariant forall k :: 0 <= k < i ==> normalized[k] == Div(alphaValues[k], sum)
    {
      normalized := normalized + [Div(alphaValues[i], sum)];
    }
  }

  /** `StandardDistributionsMapper`, writing into the shared table. */
  class StandardDistributionsMapper {

    const table: ObjectTable

    constructor(table: ObjectTable)
      ensures this.table == table
    {
      this.table := table;
    }

    /** `createStandardDistribution`: dispatch on the type name. */
    method CreateStandardDistribution(name: string, distType: string, generates: string, distNode: Json)
      returns (outcome: Outcome)
      modifies table
      ensures Effect(StandardCreated(old(table.objects), name, distType, distNode), outcome, old(table.objects), table.objects)
    {
      match FamilyOf(distType)
      case None =>
        outcome := Thrown("Unsupported distribution type: " + distType);
      case Some(f) =>
        if f == Dirichlet {
          CreateDirichletDistribution(name, distNode);
        } else {
          CreateScalarDistribution(name, f, distNode);
        }
        outcome := Done;
    }

    /** `createNormalDistribution` … `createUniformDistribution`: the six
        scalar families differ only in the hyperparameters they read, the
        initial value they derive and the bounds they set. */
    method CreateScalarDistribution(name: string, f: Family, distNode: Json)
      requires f != Dirichlet
      modifies table
      ensures var paramsNode := Path(distNode, "parameters");
              table.objects == old(table.objects)
                [name := ScalarParameter(name, f, paramsNode)]
                [name + ".prior" := Prior(name + ".prior", ScalarParameter(name, f, paramsNode), f, Hyperparameters(f, paramsNode))]
    {
      var paramsNode := Path(distNode, "parameters");
      var hyper := Hyperparameters(f, paramsNode);
      var value := InitialValue(f, hyper);
      var dimension := Utils.ExtractDimension(paramsNode);
      var values;
      if dimension > 1 {
        values := RepeatValue(value, dimension);
      } else {
        values := [value];
        assert values == Lists.Repeat(value, 1);
      }
      var bounds := ScalarBounds(f, hyper);
      var parameter := RealParameter(name, values, bounds.0, bounds.1);
      assert parameter == ScalarParameter(name, f, paramsNode);
      table.Put(name, parameter);
      table.Put(name + ".prior", Prior(name + ".prior", parameter, f, hyper));
    }

    /** `createDirichletDistribution`. */
    method CreateDirichletDistribution(name: string, distNode: Json)
      modifies table
      ensures var paramsNode := Path(distNode, "parameters");
              table.objects == old(table.objects)
                [name := DirichletParameter(name, paramsNode)]
                [name + ".prior" := Prior(name + ".prior", DirichletParameter(name, paramsNode), Dirichlet, DirichletAlpha(paramsNode))]
    {
      var paramsNode := Path(distNode, "parameters");
      var alphaValues := AlphaValues(paramsNode);
      var sum := SumValues(alphaValues);
      var normalizedValues := NormalizeValues(alphaValues, sum);
      assert normalizedValues == Normalized(alphaValues);
      var parameter := RealParameter(name, normalizedValues, Some(Lit(0.0)), Some(Lit(1.0)));
      table.Put(name, parameter);
      table.Put(name + ".prior", Prior(name + ".prior", parameter, Dirichlet, alphaValues));
    }
  }
}
