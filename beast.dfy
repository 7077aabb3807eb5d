/** The BEAST2 objects the mappers create, as values, and the shared
    name-to-object table (`Map<String, BEASTInterface> beastObjects`) every
    mapper writes into. An object records the inputs the mappers give it
    through `initByName`/`setInputValue`; what BEAST2 does with them is not
    part of this model. `Null` stands for Java's `null`, which a `HashMap`
    may hold as a value and which `get` returns for an absent key. */
module Beast {

  import opened Results
  import opened Doubles
  import opened Json
  import Utils

  /** The prior families of `StandardDistributionsMapper`. */
  datatype Family = Normal | LogNormal | Gamma | Exponential | Beta | Uniform | Dirichlet

  /** HKY, JukesCantor and GTR substitution models. */
  datatype SubstKind = HKY | JukesCantor | GTR

  /** YuleModel and BirthDeathGernhard08Model tree priors. */
  datatype SpeciationKind = YuleModel | BirthDeathModel

  /** The operator classes `ModelBuilder.setupOperators` instantiates. */
  datatype OperatorKind =
    | DeltaExchange | Scale | SubtreeSlide | NarrowExchange | WideExchange
    | WilsonBalding | TreeScaler | RootHeightScaler | UniformOperator

  datatype Obj =
    | Null
    | RealParameter(id: string, values: seq<Num>, lower: Option<Num>, upper: Option<Num>)
      /** A TreeParser; `taxonSet` is Null when none was given, and
          `adjustTipHeights` is None when left at the parser's default. */
    | Tree(id: string, newick: string, taxonSet: Obj, adjustTipHeights: Option<bool>)
    | TaxonSet(id: string, taxa: seq<string>)
      /** Sequences as (taxon, characters) pairs, in the order given. */
    | Alignment(id: string, sequences: seq<(string, string)>)
      /** A `Prior` whose `x` is the parameter and whose distribution is a
          `family` built from the hyperparameters `hyper`. */
    | Prior(id: string, x: Obj, family: Family, hyper: seq<Num>)
    | SpeciationPrior(id: string, speciation: SpeciationKind, birthDiffRate: Obj,
                      relativeDeathRate: Option<Num>, meanInRealSpace: Obj, tree: Obj)
    | CoalescentPrior(id: string, popSize: Obj, tree: Obj)
      /** `rates` holds kappa (HKY) or the six exchange rates (GTR);
          `frequencies` the parameter its Frequencies object wraps. */
    | SubstitutionModel(id: string, subst: SubstKind, rates: seq<Obj>, frequencies: Obj)
    | SiteModel(id: string, substModel: Obj, gammaCategoryCount: int, shape: Obj)
    | StrictClockModel(id: string, clockRate: Obj)
    | TreeLikelihood(id: string, data: Obj, tree: Obj, siteModel: Obj)
    | CompoundDistribution(id: string, parts: seq<Obj>)
    | State(id: string, stateNodes: seq<Obj>)
    | Operator(id: string, operator: OperatorKind, target: Obj, weight: real)
    | Mcmc(id: string, chainLength: int, state: Obj, posterior: Obj,
           operators: seq<Obj>, loggers: seq<Logger>)

  /** A BEAST2 `Logger`; `fileName` is None for the console logger. */
  datatype Logger = Logger(id: string, fileName: Option<string>, logEvery: int,
                           mode: Option<string>, items: seq<Obj>)

  /** `instanceof Parameter`: the only parameters here are RealParameters. */
  predicate IsParameter(o: Obj) { o.RealParameter? }

  /** `instanceof Distribution`. */
  predicate IsDistribution(o: Obj)
  {
    o.Prior? || o.SpeciationPrior? || o.CoalescentPrior? || o.TreeLikelihood? || o.CompoundDistribution?
  }

  /** `instanceof StateNode`: parameters and trees. */
  predicate IsStateNode(o: Obj) { o.RealParameter? || o.Tree? }

  /** A Java reference cast `(T) o`: null passes, an object of type T
      passes, anything else raises ClassCastException. */
  function Cast(o: Obj, isT: bool): (r: Result<Obj>)
    ensures r.Ok? <==> o.Null? || isT
    ensures r.Ok? ==> r.value == o
    ensures r.Fail? ==> r.message == ClassCast
  {
    if o.Null? || isT then Ok(o) else Fail(ClassCast)
  }

  /** `beastObjects.get(key)`. */
  function Get(objects: map<string, Obj>, key: string): (r: Obj)
    ensures key !in objects ==> r == Null
    ensures key in objects ==> r == objects[key]
  {
    if key in objects then objects[key] else Null
  }

  /** A mapper step behaved as `r` describes: on success it left the table
      `r.value`; when it threw, it threw `r.message` before writing anything. */
  predicate Effect(r: Result<map<string, Obj>>, outcome: Outcome, before: map<string, Obj>, after: map<string, Obj>)
  {
    if r.Ok? then outcome == Done && after == r.value
    else outcome == Thrown(r.message) && after == before
  }

  /** `(Parameter) beastObjects.get(Utils.extractVariableReference(node, key))`:
      the object the reference names (null when no such key), or the
      exception of the extraction or of the cast. */
  function ParameterInput(objects: map<string, Obj>, node: Json, key: string): (r: Result<Obj>)
    ensures !Utils.IsVariableReference(Path(node, key)) ==>
              r == Fail("Cannot extract variable reference from parameter: " + key)
    ensures Utils.IsVariableReference(Path(node, key)) ==>
              var target := Get(objects, Utils.ExtractVariableReference(node, key).value);
              r == if target.Null? || IsParameter(target) then Ok(target) else Fail(ClassCast)
  {
    match Utils.ExtractVariableReference(node, key)
    case Fail(m) => Fail(m)
    case Ok(ref) => Cast(Get(objects, ref), IsParameter(Get(objects, ref)))
  }

  /** `Alignment.getTaxaNames()`: the taxon of each sequence, in order. */
  function TaxaNames(sequences: seq<(string, string)>): (r: seq<string>)
    ensures |r| == |sequences|
    ensures forall k :: 0 <= k < |r| ==> r[k] == sequences[k].0
  {
    seq(|sequences|, k requires 0 <= k < |sequences| => sequences[k].0)
  }

  /** The shared `beastObjects` map. */
  class ObjectTable {
    var objects: map<string, Obj>

    constructor()
      ensures objects == map[]
    {
      objects := map[];
    }

    /** `beastObjects.put(key, obj)`. */
    method Put(key: string, obj: Obj)
      modifies this
      ensures objects == old(objects)[key := obj]
    {
      objects := objects[key := obj];
    }
  }

  /** The keys of a map in some order, each once: the model's stand-in for
      `HashMap` iteration, whose order Java leaves unspecified. */
  method KeysInSomeOrder(objects: map<string, Obj>) returns (order: seq<string>)
    ensures forall k :: k in objects <==> k in order
    ensures forall i, j :: 0 <= i < j < |order| ==> order[i] != order[j]
  {
    order := [];
    var remaining := objects.Keys;
    while remaining != {}
      invariant remaining <= objects.Keys
      invariant forall k :: k in objects <==> k in order || k in remaining
      invariant forall k :: k in order ==> k !in remaining
      invariant forall i, j :: 0 <= i < j < |order| ==> order[i] != order[j]
      decreases remaining
    {
      var k :| k in remaining;
      order := order + [k];
      remaining := remaining - {k};
    }
  }
}
