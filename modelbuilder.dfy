/** `ModelBuilder`: assembles the tree likelihood, site and clock models,
    prior, likelihood, posterior, state, operators, loggers and MCMC object
    out of what the mappers left in the shared table. */
module ModelBuilder {

  import opened Results
  import opened Json
  import opened Beast
  import opened Doubles
  import opened ModelSelection
  import Text
  import Utils
  import Lists
  import FunctionMapper

  const NoAlignment: string := "No alignment found in model"
  const NoTree: string := "No tree found in model"
  const NoSubstitutionModel: string := "No substitution model found in model"

  /** The table a step leaves behind, with the object it returned or the
      exception it threw: `buildTreeLikelihood` may write into the table
      and still throw. */
  datatype Step = Step(objects: map<string, Obj>, result: Result<Obj>)

  /** The shape parameter of gamma rate heterogeneity: 0.5 in [0.0, 1000.0]. */
  const GammaShape: Obj := RealParameter("gammaShape", [Lit(0.5)], Some(Lit(0.0)), Some(Lit(1000.0)))

  /** The strict clock's rate: 1.0, bounded below by 0.0. */
  const ClockRate: Obj := RealParameter("clockRate", [Lit(1.0)], Some(Lit(0.0)), None)

  // ---------------------------------------------------------------- substitution and site models

  /** The substitution-model search of `buildTreeLikelihood` and
      `setupSiteModel`: the object stored under the first function named
      HKY, JC69 or GTR, cast to a substitution model; no such function, or
      no object under its name, is "No substitution model found in model". */
  function SubstitutionModelInput(objects: map<string, Obj>, model: Json): (r: Result<Obj>)
    ensures Lists.FirstWhere(DeterministicFunctions(model), IsSubstitutionEntry).None? ==> r == Fail(NoSubstitutionModel)
    ensures r.Ok? ==>
              (var first := Lists.FirstWhere(DeterministicFunctions(model), IsSubstitutionEntry);
               r.value.SubstitutionModel? && first.Some? && DeterministicFunctions(model)[first.value].0 in objects &&
               objects[DeterministicFunctions(model)[first.value].0] == r.value)
    ensures r.Fail? ==> r.message == NoSubstitutionModel || r.message == ClassCast
  {
    var functions := DeterministicFunctions(model);
    match Lists.FirstWhere(functions, IsSubstitutionEntry)
    case None => Fail(NoSubstitutionModel)
    case Some(i) =>
      var o := Get(objects, functions[i].0);
      if !(o.Null? || o.SubstitutionModel?) then Fail(ClassCast)
      else if o.Null? then Fail(NoSubstitutionModel)
      else Ok(o)
  }

  /** A model whose functions are all of the (lower-case) types
      `FunctionMapper` creates never offers the builder a substitution
      model: the builder looks for "HKY", "JC69" and "GTR". */
  lemma {:induction false} CreatableFunctionsAreNeverSelected(objects: map<string, Obj>, model: Json)
    requires forall i :: 0 <= i < |DeterministicFunctions(model)| ==>
               FunctionMapper.IsFunctionType(FunctionType(DeterministicFunctions(model)[i].1))
    ensures SubstitutionModelInput(objects, model) == Fail(NoSubstitutionModel)
  {
    var functions := DeterministicFunctions(model);
    forall i | 0 <= i < |functions|
      ensures !IsSubstitutionEntry(functions[i])
    {
      assert FunctionMapper.IsFunctionType(FunctionType(functions[i].1));
    }
  }

  /** ... and conversely `FunctionMapper` refuses the names the builder
      looks for. */
  lemma SelectedNamesAreNeverCreated(objects: map<string, Obj>, name: string, functionType: string)
    requires functionType in {"HKY", "JC69", "GTR"}
    ensures FunctionMapper.FunctionCreated(objects, name, functionType) ==
              Fail("Unsupported function type: " + functionType)
  {
    assert !FunctionMapper.IsFunctionType(functionType) by {
      assert functionType[0] !in {'h', 'j', 'g', 'n', 'v'};
    }
  }

  /** `setupSiteModel`: the cached "siteModel" entry when there is one;
      otherwise a site model over the substitution model, with four gamma
      categories and a "gammaShape" parameter when some PhyloCTMC asks for
      site rates, with one category otherwise. */
  function SiteModelSetUp(objects: map<string, Obj>, model: Json): (s: Step)
    ensures "siteModel" in objects ==> s.objects == objects && s.result == Cast(objects["siteModel"], objects["siteModel"].SiteModel?)
    ensures s.result.Fail? ==> s.objects == objects
    ensures s.result.Ok? ==> "siteModel" in s.objects && s.objects["siteModel"] == s.result.value
    ensures "siteModel" !in objects && s.result.Ok? ==>
              var site := s.result.value;
              site.SiteModel? && SubstitutionModelInput(objects, model).Ok? &&
              site.substModel == SubstitutionModelInput(objects, model).value &&
              (UsesGamma(model) ==> site.gammaCategoryCount == 4 && site.shape == GammaShape &&
                                    s.objects == objects["gammaShape" := GammaShape]["siteModel" := site]) &&
              (!UsesGamma(model) ==> site.gammaCategoryCount == 1 && site.shape == Null &&
                                     s.objects == objects["siteModel" := site])
    ensures "siteModel" !in objects ==> (s.result.Fail? <==> SubstitutionModelInput(objects, model).Fail?)
    ensures s.result.Ok? ==> objects.Keys + {"siteModel"} <= s.objects.Keys <= objects.Keys + {"siteModel", "gammaShape"}
    ensures forall k :: k in objects && k != "gammaShape" ==> k in s.objects && s.objects[k] == objects[k]
  {
    if "siteModel" in objects then Step(objects, Cast(objects["siteModel"], objects["siteModel"].SiteModel?))
    else
      match SubstitutionModelInput(objects, model)
      case Fail(m) => Step(objects, Fail(m))
      case Ok(subst) =>
        if UsesGamma(model) then
          var site := SiteModel("siteModel", subst, 4, GammaShape);
          Step(objects["gammaShape" := GammaShape]["siteModel" := site], Ok(site))
        else
          var site := SiteModel("siteModel", subst, 1, Null);
          Step(objects["siteModel" := site], Ok(site))
  }

  /** Setting up the site model a second time returns the same model and
      writes nothing. */
  lemma SiteModelSetUpIsCached(objects: map<string, Obj>, model: Json, later: Json)
    requires SiteModelSetUp(objects, model).result.Ok?
    ensures var s := SiteModelSetUp(objects, model);
            SiteModelSetUp(s.objects, later) == Step(s.objects, s.result)
  {
    var s := SiteModelSetUp(objects, model);
    var site := s.objects["siteModel"];
    assert site == s.result.value;
    if "siteModel" !in objects {
      assert site.SiteModel?;
    } else {
      assert site == objects["siteModel"];
    }
  }

  /** `setupClockModel`: the cached "clockModel" entry when there is one;
      otherwise a strict clock over a fresh "clockRate" parameter. */
  function ClockModelSetUp(objects: map<string, Obj>): (s: Step)
    ensures "clockModel" in objects ==> s.objects == objects && s.result == Cast(objects["clockModel"], objects["clockModel"].StrictClockModel?)
    ensures "clockModel" !in objects ==>
              s.result.Ok? && s.result.value.StrictClockModel? && s.result.value.clockRate == ClockRate &&
              s.objects.Keys == objects.Keys + {"clockRate", "clockModel"} &&
              s.objects["clockRate"] == ClockRate && s.objects["clockModel"] == s.result.value
    ensures forall k :: k in objects && k != "clockRate" && k != "clockModel" ==> k in s.objects && s.objects[k] == objects[k]
  {
    if "clockModel" in objects then Step(objects, Cast(objects["clockModel"], objects["clockModel"].StrictClockModel?))
    else
      var clock := StrictClockModel("clockModel", ClockRate);
      Step(objects["clockRate" := ClockRate]["clockModel" := clock], Ok(clock))
  }

  /** Setting up the clock a second time returns the same clock and writes
      nothing. */
  lemma ClockModelSetUpIsCached(objects: map<string, Obj>)
    requires ClockModelSetUp(objects).result.Ok?
    ensures var s := ClockModelSetUp(objects);
            ClockModelSetUp(s.objects) == Step(s.objects, s.result)
  {
    var s := ClockModelSetUp(objects);
    assert "clockModel" in s.objects;
    if "clockModel" !in objects {
      assert s.objects["clockModel"].StrictClockModel?;
    }
  }

  // ---------------------------------------------------------------- the tree likelihood

  /** The tree lookup of `buildTreeLikelihood` in a PhyloCTMC's
      parameters: none without a `tree` parameter (the name then is ""),
      otherwise the object the reference names, cast to a tree. */
  function TreeInput(objects: map<string, Obj>, params: Json): (r: Result<(string, Obj)>)
    ensures !Has(params, "tree") ==> r == Ok(("", Null))
    ensures Has(params, "tree") && r.Ok? ==>
              Utils.ExtractVariableReference(params, "tree") == Ok(r.value.0) && r.value.1 == Get(objects, r.value.0)
    ensures r.Ok? ==> r.value.1.Null? || r.value.1.Tree?
    ensures r.Fail? ==> r.message == ClassCast || r.message == "Cannot extract variable reference from parameter: tree"
  {
    if !Has(params, "tree") then Ok(("", Null))
    else match Utils.ExtractVariableReference(params, "tree")
      case Fail(m) => Fail(m)
      case Ok(ref) =>
        var tree := Get(objects, ref);
        if tree.Null? || tree.Tree? then Ok((ref, tree)) else Fail(ClassCast)
  }

  /** The lookups of `buildTreeLikelihood`: the alignment stored under the
      first PhyloCTMC variable and the tree its `tree` parameter names (with
      that name), each cast, then each checked for null. */
  function AlignmentAndTree(objects: map<string, Obj>, model: Json): (r: Result<(Obj, string, Obj)>)
    ensures r.Ok? ==> r.value.0.Alignment? && r.value.1 in objects && objects[r.value.1] == r.value.2 && r.value.2.Tree?
  {
    var variables := RandomVariables(model);
    match Lists.FirstWhere(variables, IsPhyloCTMCEntry)
    case None => Fail(NoAlignment)
    case Some(i) =>
      var alignment := Get(objects, variables[i].0);
      if !(alignment.Null? || alignment.Alignment?) then Fail(ClassCast)
      else
        match TreeInput(objects, DistributionParameters(variables[i].1))
        case Fail(m) => Fail(m)
        case Ok(found) =>
          if alignment.Null? then Fail(NoAlignment)
          else if found.1.Null? then Fail(NoTree)
          else Ok((alignment, found.0, found.1))
  }

  /** Without a PhyloCTMC variable there is no alignment. */
  lemma NoCTMCNoAlignment(objects: map<string, Obj>, model: Json)
    requires Lists.FirstWhere(RandomVariables(model), IsPhyloCTMCEntry).None?
    ensures AlignmentAndTree(objects, model) == Fail(NoAlignment)
  {
  }

  /** What the lookups find: the object stored under the first PhyloCTMC
      variable's name, and the tree stored under the name its `tree`
      parameter references. */
  lemma AlignmentAndTreeFound(objects: map<string, Obj>, model: Json)
    requires AlignmentAndTree(objects, model).Ok?
    ensures var found := AlignmentAndTree(objects, model).value;
            var first := Lists.FirstWhere(RandomVariables(model), IsPhyloCTMCEntry);
            first.Some? && RandomVariables(model)[first.value].0 in objects &&
            found.0 == objects[RandomVariables(model)[first.value].0] &&
            Utils.ExtractVariableReference(DistributionParameters(RandomVariables(model)[first.value].1), "tree") == Ok(found.1)
  {
    var first := Lists.FirstWhere(RandomVariables(model), IsPhyloCTMCEntry);
    var params := DistributionParameters(RandomVariables(model)[first.value].1);
    assert TreeInput(objects, params).Ok?;
  }

  /** The lookups throw one of four messages. */
  lemma AlignmentAndTreeMessages(objects: map<string, Obj>, model: Json)
    requires AlignmentAndTree(objects, model).Fail?
    ensures AlignmentAndTree(objects, model).message in {NoAlignment, NoTree, ClassCast, "Cannot extract variable reference from parameter: tree"}
  {
  }

  /** A PhyloCTMC without a `tree` parameter never yields a tree. */
  lemma MissingTreeThrows(objects: map<string, Obj>, model: Json)
    requires Lists.FirstWhere(RandomVariables(model), IsPhyloCTMCEntry).Some?
    requires !Has(DistributionParameters(RandomVariables(model)[Lists.FirstWhere(RandomVariables(model), IsPhyloCTMCEntry).value].1), "tree")
    ensures AlignmentAndTree(objects, model).Fail?
  {
    var first := Lists.FirstWhere(RandomVariables(model), IsPhyloCTMCEntry);
    assert TreeInput(objects, DistributionParameters(RandomVariables(model)[first.value].1)) == Ok(("", Null));
  }

  /** The tree after `setInputValue("taxonset", …)`: a taxon set over the
      alignment's taxa, everything else as before. */
  function WithTaxa(tree: Obj, alignment: Obj): (r: Obj)
    requires tree.Tree? && alignment.Alignment?
    ensures r.Tree? && r.id == tree.id && r.newick == tree.newick && r.adjustTipHeights == tree.adjustTipHeights
    ensures r.taxonSet.TaxonSet? && |r.taxonSet.taxa| == |alignment.sequences|
    ensures forall k :: 0 <= k < |alignment.sequences| ==> r.taxonSet.taxa[k] == alignment.sequences[k].0
  {
    Tree(tree.id, tree.newick, TaxonSet("", TaxaNames(alignment.sequences)), tree.adjustTipHeights)
  }

  /** The second half of `buildTreeLikelihood`, once the tree carries
      its taxa: the substitution-model check, the site model and the
      "treeLikelihood" entry over `alignment` and `tree`. A throw writes
      nothing. */
  function LikelihoodOver(objects: map<string, Obj>, model: Json, alignment: Obj, tree: Obj): (s: Step)
    ensures s.result.Fail? ==> s.objects == objects
    ensures s.result.Ok? ==>
              s.result.value.TreeLikelihood? && (s.result.value.siteModel.SiteModel? || s.result.value.siteModel.Null?) &&
              s.result.value == TreeLikelihood("treeLikelihood", alignment, tree, s.result.value.siteModel) &&
              "siteModel" in s.objects && s.objects["siteModel"] == s.result.value.siteModel &&
              "treeLikelihood" in s.objects && s.objects["treeLikelihood"] == s.result.value
    ensures s.result.Ok? ==>
              objects.Keys + {"siteModel", "treeLikelihood"} <= s.objects.Keys <= objects.Keys + {"siteModel", "treeLikelihood", "gammaShape"} &&
              forall k :: k in objects && k != "gammaShape" && k != "treeLikelihood" ==> s.objects[k] == objects[k]
  {
    match SubstitutionModelInput(objects, model)
    case Fail(m) => Step(objects, Fail(m))
    case Ok(_) =>
      var site := SiteModelSetUp(objects, model);
      match site.result
      case Fail(m) => Step(objects, Fail(m))
      case Ok(siteModel) =>
        var likelihood := TreeLikelihood("treeLikelihood", alignment, tree, siteModel);
        Step(site.objects["treeLikelihood" := likelihood], Ok(likelihood))
  }

  /** `buildTreeLikelihood`: the lookups; the taxon set written into the
      tree; then the rest. A throw from the lookups leaves the table alone;
      a later throw leaves only the tree's new taxon set behind. */
  function TreeLikelihoodSetUp(objects: map<string, Obj>, model: Json): (s: Step)
    ensures AlignmentAndTree(objects, model).Fail? ==> s == Step(objects, Fail(AlignmentAndTree(objects, model).message))
  {
    match AlignmentAndTree(objects, model)
    case Fail(m) => Step(objects, Fail(m))
    case Ok(found) =>
      var tree := WithTaxa(found.2, found.0);
      LikelihoodOver(objects[found.1 := tree], model, found.0, tree)
  }

  /** After a throw, `buildTreeLikelihood` leaves the same names in the
      table and every entry that is not a tree unchanged. */
  lemma TreeLikelihoodThrowKeeps(objects: map<string, Obj>, model: Json)
    ensures var s := TreeLikelihoodSetUp(objects, model);
            s.result.Fail? ==>
              s.objects.Keys == objects.Keys && forall k :: k in objects && !objects[k].Tree? ==> s.objects[k] == objects[k]
  {
    var found := AlignmentAndTree(objects, model);
    if found.Ok? {
      var tree := WithTaxa(found.value.2, found.value.0);
      var s := LikelihoodOver(objects[found.value.1 := tree], model, found.value.0, tree);
      assert TreeLikelihoodSetUp(objects, model) == s;
      if s.result.Fail? {
        TreeWriteKeeps(objects, found.value.1, tree, s);
      }
    }
  }

  /** A table in which one tree was replaced by another tree has the same
      names and the same non-tree entries. */
  lemma TreeWriteKeeps(objects: map<string, Obj>, ref: string, tree: Obj, s: Step)
    requires ref in objects && objects[ref].Tree? && tree.Tree?
    requires s.objects == objects[ref := tree]
    ensures s.objects.Keys == objects.Keys && forall k :: k in objects && !objects[k].Tree? ==> s.objects[k] == objects[k]
  {
  }



  /** After success, the "siteModel" and "treeLikelihood" entries (and
      possibly "gammaShape") are added and nothing is removed. */
  lemma TreeLikelihoodAddsEntries(objects: map<string, Obj>, model: Json)
    ensures var s := TreeLikelihoodSetUp(objects, model);
            s.result.Ok? ==>
              objects.Keys + {"siteModel", "treeLikelihood"} <= s.objects.Keys <= objects.Keys + {"siteModel", "treeLikelihood", "gammaShape"}
  {
    var found := AlignmentAndTree(objects, model);
    if found.Ok? {
      var tree := WithTaxa(found.value.2, found.value.0);
      assert TreeLikelihoodSetUp(objects, model) == LikelihoodOver(objects[found.value.1 := tree], model, found.value.0, tree);
    }
  }

  /** After success, the likelihood is over the alignment and the tree
      carrying the alignment's taxa, with the stored site model, and both
      it and that tree are in the table. */
  lemma TreeLikelihoodBuilt(objects: map<string, Obj>, model: Json)
    ensures var s := TreeLikelihoodSetUp(objects, model);
            s.result.Ok? ==>
              (var found := AlignmentAndTree(objects, model).value;
               var likelihood := s.result.value;
               likelihood.TreeLikelihood? &&
               likelihood == TreeLikelihood("treeLikelihood", found.0, WithTaxa(found.2, found.0), likelihood.siteModel) &&
               (found.1 != "gammaShape" && found.1 != "treeLikelihood" ==> s.objects[found.1] == WithTaxa(found.2, found.0)) &&
               "siteModel" in s.objects && s.objects["siteModel"] == likelihood.siteModel &&
               "treeLikelihood" in s.objects && s.objects["treeLikelihood"] == likelihood)
  {
    var found := AlignmentAndTree(objects, model);
    if found.Ok? {
      var tree := WithTaxa(found.value.2, found.value.0);
      assert TreeLikelihoodSetUp(objects, model) == LikelihoodOver(objects[found.value.1 := tree], model, found.value.0, tree);
    }
  }

  /** The three throws of `buildTreeLikelihood`, by their cause: no
      PhyloCTMC (or nothing stored under its name), a PhyloCTMC without a
      `tree`, and no HKY/JC69/GTR function. */
  lemma TreeLikelihoodThrows(objects: map<string, Obj>, model: Json)
    ensures Lists.FirstWhere(RandomVariables(model), IsPhyloCTMCEntry).None? ==>
              TreeLikelihoodSetUp(objects, model) == Step(objects, Fail(NoAlignment))
    ensures Lists.FirstWhere(DeterministicFunctions(model), IsSubstitutionEntry).None? ==>
              TreeLikelihoodSetUp(objects, model).result.Fail?
    ensures (var first := Lists.FirstWhere(RandomVariables(model), IsPhyloCTMCEntry);
             first.Some? && !Has(DistributionParameters(RandomVariables(model)[first.value].1), "tree")) ==>
              TreeLikelihoodSetUp(objects, model) == Step(objects, Fail(AlignmentAndTree(objects, model).message))
  {
    var found := AlignmentAndTree(objects, model);
    var first := Lists.FirstWhere(RandomVariables(model), IsPhyloCTMCEntry);
    if first.Some? && !Has(DistributionParameters(RandomVariables(model)[first.value].1), "tree") {
      MissingTreeThrows(objects, model);
    }
    if found.Ok? {
      var withTaxa := objects[found.value.1 := WithTaxa(found.value.2, found.value.0)];
      if Lists.FirstWhere(DeterministicFunctions(model), IsSubstitutionEntry).None? {
        assert SubstitutionModelInput(withTaxa, model).Fail?;
      }
    }
  }

  /** Every model whose functions `FunctionMapper` could create fails to
      build its tree likelihood. */
  lemma CreatableFunctionsNeverBuild(objects: map<string, Obj>, model: Json)
    requires forall i :: 0 <= i < |DeterministicFunctions(model)| ==>
               FunctionMapper.IsFunctionType(FunctionType(DeterministicFunctions(model)[i].1))
    ensures TreeLikelihoodSetUp(objects, model).result.Fail?
  {
    var found := AlignmentAndTree(objects, model);
    if found.Ok? {
      CreatableFunctionsAreNeverSelected(objects[found.value.1 := WithTaxa(found.value.2, found.value.0)], model);
    }
  }

  // ---------------------------------------------------------------- loggers

  /** `Paths.get(dir, name).toString()` for a relative file name: the name
      alone under the empty directory, otherwise joined by one separator. */
  function JoinPath(dir: string, name: string): (r: string)
    ensures Text.EndsWith(r, name)
    ensures Text.StartsWith(r, dir)
    ensures dir == "" ==> r == name
    ensures dir != "" ==> Text.EndsWith(r, "/" + name)
  {
    if dir == "" then name
    else if dir[|dir| - 1] == '/' then dir + name
    else dir + "/" + name
  }

  /** The logger after `updateLogFilePaths`: the file logger writes to
      `<dir>/<base>.log`, the tree logger to `<dir>/<base>.trees`, and any
      other logger is untouched. */
  function Relocated(logger: Logger, dir: string, base: string): (r: Logger)
    ensures r.id == logger.id && r.logEvery == logger.logEvery && r.mode == logger.mode && r.items == logger.items
    ensures logger.id == "fileLogger" ==> r.fileName.Some? && Text.EndsWith(r.fileName.value, base + ".log") &&
                                          Text.StartsWith(r.fileName.value, dir)
    ensures logger.id == "treeLogger" ==> r.fileName.Some? && Text.EndsWith(r.fileName.value, base + ".trees") &&
                                          Text.StartsWith(r.fileName.value, dir)
    ensures logger.id != "fileLogger" && logger.id != "treeLogger" ==> r == logger
  {
    if logger.id == "fileLogger" then logger.(fileName := Some(JoinPath(dir, base + ".log")))
    else if logger.id == "treeLogger" then logger.(fileName := Some(JoinPath(dir, base + ".trees")))
    else logger
  }

  /** Only the last relocation counts. */
  lemma RelocatedTwice(logger: Logger, dir1: string, base1: string, dir2: string, base2: string)
    ensures Relocated(Relocated(logger, dir1, base1), dir2, base2) == Relocated(logger, dir2, base2)
  {
  }

  // ---------------------------------------------------------------- the builder

  class ModelBuilder {

    const table: ObjectTable
    var useStrictClock: bool
    var loggers: seq<Logger>

    constructor(table: ObjectTable)
      ensures this.table == table && !useStrictClock && loggers == []
    {
      this.table := table;
      useStrictClock := false;
      loggers := [];
    }

    /** `buildFullModel`: every step in turn, stopping at the first throw. */
    method BuildFullModel(model: Json) returns (result: Result<Obj>)
      modifies this, table
      ensures useStrictClock == UsesClock(model)
      ensures TreeLikelihoodSetUp(old(table.objects), model).result.Fail? ==>
                result == TreeLikelihoodSetUp(old(table.objects), model).result &&
                table.objects == TreeLikelihoodSetUp(old(table.objects), model).objects
      ensures result.Ok? ==>
                result.value.Mcmc? && result.value.loggers == loggers && |loggers| == 3 &&
                old(table.objects).Keys <= table.objects.Keys &&
                "mcmc" in table.objects && table.objects["mcmc"] == result.value &&
                {"treeLikelihood", "siteModel", "prior", "likelihood", "posterior", "state"} <= table.objects.Keys &&
                (useStrictClock ==> "clockModel" in table.objects)
    {
      useStrictClock := DoesModelUseClock(model);
      var treeLikelihood := BuildTreeLikelihood(model);
      if treeLikelihood.Fail? {
        return treeLikelihood;
      }
      ghost var built := table.objects;
      TreeLikelihoodAddsEntries(old(table.objects), model);
      assert old(table.objects).Keys + {"treeLikelihood", "siteModel"} <= built.Keys;
      var siteModel := SetupSiteModel(model);
      assert table.objects == built;
      if siteModel.Fail? {
        return siteModel;
      }
      if useStrictClock {
        var clockModel := SetupClockModel();
        if clockModel.Fail? {
          return clockModel;
        }
        assert "clockModel" in table.objects;
      }
      assert built.Keys <= table.objects.Keys;
      var mcmc := Assemble(model, treeLikelihood.value);
      return Ok(mcmc);
    }

    /** The steps of `buildFullModel` that cannot throw: the prior, the
      likelihood, the posterior, the state, the operators and the MCMC
      object, each stored in the table. */
    method Assemble(model: Json, treeLikelihood: Obj) returns (mcmc: Obj)
      modifies this, table
      ensures useStrictClock == old(useStrictClock)
      ensures mcmc.Mcmc? && mcmc.loggers == loggers && |loggers| == 3
      ensures old(table.objects).Keys + {"prior", "likelihood", "posterior", "state", "mcmc"} <= table.objects.Keys
      ensures table.objects["mcmc"] == mcmc
    {
      var prior := SetupPrior(model);
      var likelihood := SetupLikelihood(treeLikelihood);
      var posterior := SetupPosterior(prior, likelihood);
      var state := SetupState();
      ghost var beforeOperators := table.objects;
      assert old(table.objects).Keys + {"prior", "likelihood", "posterior", "state"} <= beforeOperators.Keys;
      var operators := SetupOperators();
      assert beforeOperators.Keys <= table.objects.Keys;
      mcmc := SetupMcmc(posterior, state, operators);
    }

    /** `buildTreeLikelihood`. */
    method BuildTreeLikelihood(model: Json) returns (result: Result<Obj>)
      modifies table
      ensures Step(table.objects, result) == TreeLikelihoodSetUp(old(table.objects), model)
    {
      var found := AlignmentAndTree(table.objects, model);
      if found.Fail? {
        return Fail(found.message);
      }
      var alignment, treeRef, tree := found.value.0, found.value.1, found.value.2;
      table.Put(treeRef, WithTaxa(tree, alignment));
      var substModel := SubstitutionModelInput(table.objects, model);
      if substModel.Fail? {
        return Fail(substModel.message);
      }
      var siteModel := SetupSiteModel(model);
      if siteModel.Fail? {
        return siteModel;
      }
      var likelihood := TreeLikelihood("treeLikelihood", alignment, WithTaxa(tree, alignment), siteModel.value);
      table.Put("treeLikelihood", likelihood);
      return Ok(likelihood);
    }

    /** `setupSiteModel`. */
    method SetupSiteModel(model: Json) returns (result: Result<Obj>)
      modifies table
      ensures Step(table.objects, result) == SiteModelSetUp(old(table.objects), model)
    {
      if "siteModel" in table.objects {
        var cached := table.objects["siteModel"];
        return Cast(cached, cached.SiteModel?);
      }
      var substModel := SubstitutionModelInput(table.objects, model);
      if substModel.Fail? {
        return Fail(substModel.message);
      }
      var useGamma := FindSiteRates(model);
      var siteModel: Obj;
      if useGamma {
        siteModel := SiteModel("siteModel", substModel.value, 4, GammaShape);
        table.Put("gammaShape", GammaShape);
      } else {
        siteModel := SiteModel("siteModel", substModel.value, 1, Null);
      }
      table.Put("siteModel", siteModel);
      return Ok(siteModel);
    }

    /** `setupClockModel`. */
    method SetupClockModel() returns (result: Result<Obj>)
      modifies table
      ensures Step(table.objects, result) == ClockModelSetUp(old(table.objects))
    {
      if "clockModel" in table.objects {
        var cached := table.objects["clockModel"];
        return Cast(cached, cached.StrictClockModel?);
      }
      var clockModel := StrictClockModel("clockModel", ClockRate);
      table.Put("clockRate", ClockRate);
      table.Put("clockModel", clockModel);
      return Ok(clockModel);
    }

    /** `setupPrior`: a compound distribution "prior" over the selected
      distributions. */
    method SetupPrior(model: Json) returns (prior: Obj)
      modifies table
      ensures prior.CompoundDistribution? && prior.id == "prior"
      ensures forall d :: d in prior.parts <==> PriorMember(old(table.objects), ObservationMap(RandomVariables(model)), d)
      ensures PriorKeysDistinct(old(table.objects)) ==> forall a, b :: 0 <= a < b < |prior.parts| ==> prior.parts[a] != prior.parts[b]
      ensures table.objects == old(table.objects)["prior" := prior]
    {
      var observed := BuildObservationMap(model);
      var priors := SelectPriors(table.objects, observed);
      prior := CompoundDistribution("prior", priors);
      table.Put("prior", prior);
    }

    /** `setupLikelihood`: "likelihood" over the tree likelihood alone. */
    method SetupLikelihood(treeLikelihood: Obj) returns (likelihood: Obj)
      modifies table
      ensures likelihood == CompoundDistribution("likelihood", [treeLikelihood])
      ensures table.objects == old(table.objects)["likelihood" := likelihood]
    {
      likelihood := CompoundDistribution("likelihood", [treeLikelihood]);
      table.Put("likelihood", likelihood);
    }

    /** `setupPosterior`: "posterior" over the prior, then the likelihood. */
    method SetupPosterior(prior: Obj, likelihood: Obj) returns (posterior: Obj)
      modifies table
      ensures posterior == CompoundDistribution("posterior", [prior, likelihood])
      ensures table.objects == old(table.objects)["posterior" := posterior]
    {
      posterior := CompoundDistribution("posterior", [prior, likelihood]);
      table.Put("posterior", posterior);
    }

    /** `setupState`: "state" over every parameter and tree of the table,
      "clockRate" only when a clock is used. */
    method SetupState() returns (state: Obj)
      modifies table
      ensures state.State? && state.id == "state"
      ensures forall o :: o in state.stateNodes <==> o in old(table.objects).Values && StateRule(o, useStrictClock)
      ensures table.objects == old(table.objects)["state" := state]
    {
      var useClock := useStrictClock;
      var nodes := SelectValues(table.objects, o => StateRule(o, useClock));
      state := State("state", nodes);
      table.Put("state", state);
    }

    /** `setupOperators`: the operators of a snapshot of the table, each
      stored under its own id. */
    method SetupOperators() returns (operators: seq<Obj>)
      modifies table
      ensures forall op :: op in operators <==>
                exists k :: k in old(table.objects) && OperatorOf(old(table.objects)[k], useStrictClock, op)
      ensures forall a :: 0 <= a < |operators| ==> operators[a].Operator?
      ensures forall a, b :: 0 <= a < b < |operators| && operators[a].target.Tree? ==> operators[b].target.Tree?
      ensures table.objects == PutAll(old(table.objects), operators)
    {
      operators := CollectOperators(table.objects, useStrictClock);
      var i := 0;
      while i < |operators|
        invariant 0 <= i <= |operators|
        invariant table.objects == PutAll(old(table.objects), operators[..i])
      {
        assert operators[..i + 1][..i] == operators[..i];
        table.Put(operators[i].id, operators[i]);
        i := i + 1;
      }
      assert operators[..|operators|] == operators;
    }

    /** `setupMCMC`: the console, file and tree loggers, then "mcmc" with
      a chain of 10 000 000 states. */
    method SetupMcmc(posterior: Obj, state: Obj, operators: seq<Obj>) returns (mcmc: Obj)
      modifies this, table
      ensures useStrictClock == old(useStrictClock)
      ensures |loggers| == 3
      ensures loggers[0] == Logger("consoleLogger", None, 1000, None, [posterior])
      ensures loggers[1].id == "fileLogger" && loggers[1].fileName == Some("model.log") && loggers[1].logEvery == 1000 &&
              loggers[1].mode.None? && |loggers[1].items| >= 1 && loggers[1].items[0] == posterior
      ensures forall o :: o in loggers[1].items[1..] <==> o in old(table.objects).Values && SampledParameter(o, useStrictClock)
      ensures loggers[2].id == "treeLogger" && loggers[2].fileName == Some("model.trees") && loggers[2].logEvery == 1000 &&
              loggers[2].mode == Some("tree")
      ensures forall o :: o in loggers[2].items <==> o in old(table.objects).Values && o.Tree?
      ensures mcmc == Mcmc("mcmc", 10000000, state, posterior, operators, loggers)
      ensures table.objects == old(table.objects)["mcmc" := mcmc]
    {
      var useClock := useStrictClock;
      var consoleLogger := Logger("consoleLogger", None, 1000, None, [posterior]);
      var parameters := SelectValues(table.objects, o => SampledParameter(o, useClock));
      var fileLogger := Logger("fileLogger", Some("model.log"), 1000, None, [posterior] + parameters);
      assert fileLogger.items[1..] == parameters;
      var trees := SelectValues(table.objects, (o: Obj) => o.Tree?);
      var treeLogger := Logger("treeLogger", Some("model.trees"), 1000, Some("tree"), trees);
      loggers := [consoleLogger, fileLogger, treeLogger];
      mcmc := Mcmc("mcmc", 10000000, state, posterior, operators, loggers);
      table.Put("mcmc", mcmc);
    }

    /** `updateLogFilePaths`. */
    method UpdateLogFilePaths(outputDir: string, baseName: string)
      modifies this
      ensures |loggers| == |old(loggers)|
      ensures forall k :: 0 <= k < |loggers| ==> loggers[k] == Relocated(old(loggers)[k], outputDir, baseName)
      ensures useStrictClock == old(useStrictClock)
    {
      var relocated := loggers;
      for i := 0 to |relocated|
        invariant |relocated| == |loggers|
        invariant forall k :: 0 <= k < i ==> relocated[k] == Relocated(loggers[k], outputDir, baseName)
        invariant forall k :: i <= k < |relocated| ==> relocated[k] == loggers[k]
      {
        var logger := relocated[i];
        if logger.id == "fileLogger" {
          relocated := relocated[i := logger.(fileName := Some(JoinPath(outputDir, baseName + ".log")))];
        } else if logger.id == "treeLogger" {
          relocated := relocated[i := logger.(fileName := Some(JoinPath(outputDir, baseName + ".trees")))];
        }
      }
      loggers := relocated;
    }
  }
}
