/** `TreeDistributionsMapper`: the create and connect steps of the tree
    distributions (Yule, BirthDeath, Coalescent, ConstrainedYule), the
    alignment a PhyloCTMC variable creates, and the pass that rebuilds
    every tree from an alignment. Each step is a method on the shared
    table, proved against a function that gives the table it leaves or the
    exception it throws. */
module TreeMapper {

  import opened Results
  import opened Json
  import opened Doubles
  import opened Beast
  import Utils
  import Text
  import Newick

  /** The type names `createTreeDistribution` and `connectTreeDistribution` accept. */
  predicate IsTreeType(distType: string)
  {
    distType == "Yule" || distType == "BirthDeath" || distType == "Coalescent" || distType == "ConstrainedYule"
  }

  /** The star tree over a taxon set, parsed with the set and without
      adjusting tip heights. */
  function StarTree(name: string, taxonSet: Obj): (t: Obj)
    requires taxonSet.TaxonSet?
    ensures t.Tree? && t.id == name && t.taxonSet == taxonSet
    ensures t.newick == "(" + Text.Join(",", taxonSet.taxa) + "):1.0;"
  {
    Tree(name, "(" + Text.Join(",", taxonSet.taxa) + "):1.0;", taxonSet, Some(false))
  }

  /** The two-taxon placeholder tree used when no taxon set is available. */
  function DummyTree(name: string): (t: Obj)
    ensures t.Tree? && t.id == name && t.taxonSet.Null?
    ensures t.newick == "(taxon1:1.0,taxon2:1.0):1.0;"
  {
    Tree(name, Newick.DummyNewick, Null, Some(false))
  }

  /** A tree the create step may store: the star tree over its own taxon
      set, or the placeholder. */
  predicate IsInitialTree(name: string, t: Obj)
  {
    t == DummyTree(name) || (t.Tree? && t.taxonSet.TaxonSet? && t == StarTree(name, t.taxonSet))
  }

  // ---------------------------------------------------------------- PhyloCTMC

  /** The (taxon, sequence) text of each observed entry, in order; only an
      array has entries to read. */
  function ObservedSequences(observedValue: Json): (r: seq<(string, string)>)
    ensures |r| == if observedValue.Array? then |observedValue.items| else 0
    ensures observedValue.Array? ==> forall k :: 0 <= k < |r| ==>
              r[k] == (AsText(Path(observedValue.items[k], "taxon")), AsText(Path(observedValue.items[k], "sequence")))
  {
    if observedValue.Array? then
      seq(|observedValue.items|, k requires 0 <= k < |observedValue.items| =>
        (AsText(Path(observedValue.items[k], "taxon")), AsText(Path(observedValue.items[k], "sequence"))))
    else []
  }

  /** The table after `createPhyloCTMC`, or its exception. */
  function PhyloCTMCCreated(objects: map<string, Obj>, name: string, observedValue: Json): (r: Result<map<string, Obj>>)
    ensures observedValue.Missing? ==> r == Fail("PhyloCTMC must have an observed value")
    ensures !observedValue.Missing? && IndexedNull(observedValue) ==> r == Fail(NullPointer)
    ensures r.Ok? <==> !observedValue.Missing? && !IndexedNull(observedValue)
    ensures r.Ok? ==> r.value.Keys == objects.Keys + {name, name + ".taxa"}
    ensures r.Ok? ==> forall k :: k in objects && k != name && k != name + ".taxa" ==> r.value[k] == objects[k]
    ensures r.Ok? ==> r.value[name].Alignment? && r.value[name].id == name &&
                      |r.value[name].sequences| == Size(observedValue)
    ensures r.Ok? ==> r.value[name + ".taxa"] == TaxonSet(name + ".taxa", TaxaNames(r.value[name].sequences))
    ensures r.Ok? ==> r.value[name] == Alignment(name, ObservedSequences(observedValue))
    ensures r.Ok? ==> r.value == objects[name + ".taxa" := r.value[name + ".taxa"]][name := r.value[name]]
  {
    if observedValue.Missing? then Fail("PhyloCTMC must have an observed value")
    else if IndexedNull(observedValue) then Fail(NullPointer)
    else
      var sequences := ObservedSequences(observedValue);
      assert name != name + ".taxa" by { assert |name + ".taxa"| == |name| + 5; }
      Ok(objects[name + ".taxa" := TaxonSet(name + ".taxa", TaxaNames(sequences))][name := Alignment(name, sequences)])
  }

  // ---------------------------------------------------------------- create

  /** The table after `createYuleModel`, or its exception. The "alignment"
      entry, when present, must be an Alignment (a null one throws in the
      diagnostic that reads its taxon count); its taxon set is stored
      under "alignment.taxa" unless that key exists, in which case the
      existing entry is cast to a taxon set and used (a null one leaves
      the placeholder tree). */
  function YuleCreated(objects: map<string, Obj>, name: string): (r: Result<map<string, Obj>>)
    ensures "alignment" !in objects ==> r == Ok(objects[name := DummyTree(name)])
    ensures "alignment" in objects && !objects["alignment"].Alignment? ==>
              r == Fail(if objects["alignment"].Null? then NullPointer else ClassCast)
    ensures "alignment" in objects && objects["alignment"].Alignment? && "alignment.taxa" !in objects ==>
              var taxonSet := TaxonSet("alignment.taxa", TaxaNames(objects["alignment"].sequences));
              r == Ok(objects["alignment.taxa" := taxonSet][name := StarTree(name, taxonSet)])
    ensures "alignment" in objects && objects["alignment"].Alignment? && "alignment.taxa" in objects ==>
              var taxonSet := objects["alignment.taxa"];
              r == if taxonSet.Null? then Ok(objects[name := DummyTree(name)])
                   else if taxonSet.TaxonSet? then Ok(objects[name := StarTree(name, taxonSet)])
                   else Fail(ClassCast)
    ensures r.Ok? ==> name in r.value && r.value.Keys <= objects.Keys + {name, "alignment.taxa"} && IsInitialTree(name, r.value[name])
  {
    if "alignment" in objects then
      var alignment := objects["alignment"];
      if !(alignment.Null? || alignment.Alignment?) then Fail(ClassCast)
      else if alignment.Null? then Fail(NullPointer)
      else if "alignment.taxa" !in objects then
        var taxonSet := TaxonSet("alignment.taxa", TaxaNames(alignment.sequences));
        Ok(objects["alignment.taxa" := taxonSet][name := StarTree(name, taxonSet)])
      else
        var taxonSet := objects["alignment.taxa"];
        if !(taxonSet.Null? || taxonSet.TaxonSet?) then Fail(ClassCast)
        else if taxonSet.Null? then Ok(objects[name := DummyTree(name)])
        else Ok(objects[name := StarTree(name, taxonSet)])
    else Ok(objects[name := DummyTree(name)])
  }

  /** The table after `createBirthDeathModel`, `createCoalescentModel` or
      `createConstrainedYuleModel` (three copies of one body): the star tree
      over the taxon set the `phyloCTMC` parameter's alignment created, or
      the placeholder. */
  function PhyloTreeCreated(objects: map<string, Obj>, name: string, distNode: Json): (r: Result<map<string, Obj>>)
    ensures !Has(Path(distNode, "parameters"), "phyloCTMC") ==> r == Ok(objects[name := DummyTree(name)])
    ensures Has(Path(distNode, "parameters"), "phyloCTMC") &&
            !Utils.IsVariableReference(Path(Path(distNode, "parameters"), "phyloCTMC")) ==>
              r == Fail("Cannot extract variable reference from parameter: phyloCTMC")
    ensures r.Ok? ==> name in r.value && r.value == objects[name := r.value[name]] && IsInitialTree(name, r.value[name])
    ensures r.Ok? && r.value[name] != DummyTree(name) ==>
              var ref := Utils.ExtractVariableReference(Path(distNode, "parameters"), "phyloCTMC").value;
              ref + ".taxa" in objects && objects[ref + ".taxa"].TaxonSet? && r.value[name] == StarTree(name, objects[ref + ".taxa"])
    ensures Has(Path(distNode, "parameters"), "phyloCTMC") &&
            Utils.IsVariableReference(Path(Path(distNode, "parameters"), "phyloCTMC")) ==>
              var taxa := Utils.ExtractVariableReference(Path(distNode, "parameters"), "phyloCTMC").value + ".taxa";
              r == if taxa !in objects then Ok(objects[name := DummyTree(name)])
                   else if objects[taxa].TaxonSet? then Ok(objects[name := StarTree(name, objects[taxa])])
                   else if objects[taxa].Null? then Fail(NullPointer)
                   else Fail(ClassCast)
  {
    var paramsNode := Path(distNode, "parameters");
    if Has(paramsNode, "phyloCTMC") then
      match Utils.ExtractVariableReference(paramsNode, "phyloCTMC")
      case Fail(m) => Fail(m)
      case Ok(alignmentRef) =>
        if alignmentRef + ".taxa" in objects then
          var taxonSet := objects[alignmentRef + ".taxa"];
          if !(taxonSet.Null? || taxonSet.TaxonSet?) then Fail(ClassCast)
          else if taxonSet.Null? then Fail(NullPointer)
          else Ok(objects[name := StarTree(name, taxonSet)])
        else Ok(objects[name := DummyTree(name)])
    else Ok(objects[name := DummyTree(name)])
  }

  /** The table after `createTreeDistribution`, or its exception. */
  function TreeCreated(objects: map<string, Obj>, name: string, distType: string, distNode: Json): (r: Result<map<string, Obj>>)
    ensures !IsTreeType(distType) ==> r == Fail("Unsupported tree distribution type: " + distType)
    ensures r.Ok? ==> objects.Keys + {name} <= r.value.Keys <= objects.Keys + {name, "alignment.taxa"}
    ensures r.Ok? ==> name in r.value && IsInitialTree(name, r.value[name])
    ensures r.Ok? ==> forall k :: k in objects && k != name && k != "alignment.taxa" ==> r.value[k] == objects[k]
    ensures r.Ok? && distType != "Yule" ==> r.value == objects[name := r.value[name]]
  {
    if distType == "Yule" then YuleCreated(objects, name)
    else if IsTreeType(distType) then PhyloTreeCreated(objects, name, distNode)
    else Fail("Unsupported tree distribution type: " + distType)
  }

  // ---------------------------------------------------------------- connect

  /** The prior of `connectYuleModel`. */
  function YuleConnected(objects: map<string, Obj>, name: string, distNode: Json): (r: Result<map<string, Obj>>)
    ensures var birthRate := ParameterInput(objects, Path(distNode, "parameters"), "birthRate");
            if birthRate.Fail? then r == Fail(birthRate.message)
            else r == Ok(objects[name + "Prior" := SpeciationPrior(name + "Prior", YuleModel, birthRate.value, None, Null, Get(objects, name))])
  {
    var birthRate := ParameterInput(objects, Path(distNode, "parameters"), "birthRate");
    if birthRate.Fail? then Fail(birthRate.message)
    else Ok(objects[name + "Prior" := SpeciationPrior(name + "Prior", YuleModel, birthRate.value, None, Null, Get(objects, name))])
  }

  /** The optional `rootHeight` of a BirthDeath: a referenced parameter, a
      new parameter holding a number, or nothing (null) for any other form. */
  function RootHeightInput(objects: map<string, Obj>, paramsNode: Json): (r: Result<Obj>)
    ensures !Has(paramsNode, "rootHeight") ==> r == Ok(Null)
    ensures Has(paramsNode, "rootHeight") && IsNumber(Path(paramsNode, "rootHeight")) ==>
              r == Ok(RealParameter("", [AsDouble(Path(paramsNode, "rootHeight"))], None, None))
    ensures Has(Path(paramsNode, "rootHeight"), "variable") ==>
              var target := Get(objects, AsText(Path(Path(paramsNode, "rootHeight"), "variable")));
              r == Cast(target, IsParameter(target))
    ensures Has(Path(paramsNode, "rootHeight"), "variable") ==>
              (r == Fail(ClassCast) <==> !Get(objects, AsText(Path(Path(paramsNode, "rootHeight"), "variable"))).Null? &&
                                         !Get(objects, AsText(Path(Path(paramsNode, "rootHeight"), "variable"))).RealParameter?)
    ensures (Has(paramsNode, "rootHeight") && !Has(Path(paramsNode, "rootHeight"), "variable") &&
             !IsNumber(Path(paramsNode, "rootHeight"))) ==> r == Ok(Null)
    ensures r.Ok? ==> r.value.Null? || r.value.RealParameter?
  {
    var rootHeight := Path(paramsNode, "rootHeight");
    if !Has(paramsNode, "rootHeight") then Ok(Null)
    else if rootHeight.Object? && Has(rootHeight, "variable") then
      var target := Get(objects, AsText(Path(rootHeight, "variable")));
      Cast(target, IsParameter(target))
    else if IsNumber(rootHeight) then Ok(RealParameter("", [AsDouble(rootHeight)], None, None))
    else Ok(Null)
  }

  /** The prior of `connectBirthDeathModel`: birth rate and death rate must
      both be parameter references (the death rate is then unused), the
      relative death rate is the constant 0.5/1.0. */
  function BirthDeathConnected(objects: map<string, Obj>, name: string, distNode: Json): (r: Result<map<string, Obj>>)
    ensures r.Ok? ==> ParameterInput(objects, Path(distNode, "parameters"), "birthRate").Ok? &&
                      ParameterInput(objects, Path(distNode, "parameters"), "deathRate").Ok?
    ensures r.Ok? ==> name + "Prior" in r.value && r.value == objects[name + "Prior" := r.value[name + "Prior"]] &&
                      r.value[name + "Prior"].SpeciationPrior? &&
                      r.value[name + "Prior"].speciation == BirthDeathModel &&
                      r.value[name + "Prior"].relativeDeathRate == Some(Lit(0.5)) &&
                      r.value[name + "Prior"].tree == Get(objects, name)
    ensures ParameterInput(objects, Path(distNode, "parameters"), "birthRate").Fail? ==>
              r == Fail(ParameterInput(objects, Path(distNode, "parameters"), "birthRate").message)
    ensures ParameterInput(objects, Path(distNode, "parameters"), "birthRate").Ok? &&
            ParameterInput(objects, Path(distNode, "parameters"), "deathRate").Fail? ==>
              r == Fail(ParameterInput(objects, Path(distNode, "parameters"), "deathRate").message)
    ensures ParameterInput(objects, Path(distNode, "parameters"), "birthRate").Ok? &&
            ParameterInput(objects, Path(distNode, "parameters"), "deathRate").Ok? &&
            RootHeightInput(objects, Path(distNode, "parameters")).Fail? ==>
              r == Fail(ClassCast)
    ensures r.Ok? <==> ParameterInput(objects, Path(distNode, "parameters"), "birthRate").Ok? &&
                       ParameterInput(objects, Path(distNode, "parameters"), "deathRate").Ok? &&
                       RootHeightInput(objects, Path(distNode, "parameters")).Ok?
    ensures r.Ok? ==> r.value[name + "Prior"].birthDiffRate == ParameterInput(objects, Path(distNode, "parameters"), "birthRate").value
    ensures r.Ok? ==> r.value[name + "Prior"].meanInRealSpace == RootHeightInput(objects, Path(distNode, "parameters")).value
  {
    var paramsNode := Path(distNode, "parameters");
    var birthRate := ParameterInput(objects, paramsNode, "birthRate");
    if birthRate.Fail? then Fail(birthRate.message)
    else
      var deathRate := ParameterInput(objects, paramsNode, "deathRate");
      if deathRate.Fail? then Fail(deathRate.message)
      else
        var rootHeight := RootHeightInput(objects, paramsNode);
        if rootHeight.Fail? then Fail(rootHeight.message)
        else
          Ok(objects[name + "Prior" := SpeciationPrior(name + "Prior", BirthDeathModel, birthRate.value,
                                                       Some(Lit(0.5)), rootHeight.value, Get(objects, name))])
  }

  /** The prior of `connectCoalescentModel`: a constant population of the
      referenced size. */
  function CoalescentConnected(objects: map<string, Obj>, name: string, distNode: Json): (r: Result<map<string, Obj>>)
    ensures var popSize := ParameterInput(objects, Path(distNode, "parameters"), "populationSize");
            if popSize.Fail? then r == Fail(popSize.message)
            else r == Ok(objects[name + "Prior" := CoalescentPrior(name + "Prior", popSize.value, Get(objects, name))])
  {
    var popSize := ParameterInput(objects, Path(distNode, "parameters"), "populationSize");
    if popSize.Fail? then Fail(popSize.message)
    else Ok(objects[name + "Prior" := CoalescentPrior(name + "Prior", popSize.value, Get(objects, name))])
  }

  /** The `topology` constraint of a ConstrainedYule, when there is one. */
  function Topology(paramsNode: Json): Json
  {
    Path(Path(paramsNode, "constraints"), "topology")
  }

  /** A "fixed" topology with a newick replaces the tree. */
  predicate FixesTree(paramsNode: Json)
  {
    Has(paramsNode, "constraints") && Has(Path(paramsNode, "constraints"), "topology") &&
    AsText(Path(Topology(paramsNode), "type")) == "fixed" && Has(Topology(paramsNode), "newick")
  }

  /** A "monophyly" topology whose `taxonSet` is an object with fields: its
      names are read with `get(i)`, which gives null there. */
  predicate MonophylyThrows(paramsNode: Json)
  {
    Has(paramsNode, "constraints") && Has(Path(paramsNode, "constraints"), "topology") &&
    AsText(Path(Topology(paramsNode), "type")) == "monophyly" && IndexedNull(Path(Topology(paramsNode), "taxonSet"))
  }

  /** The tree a fixed topology stores under the variable's name. */
  function FixedTree(name: string, paramsNode: Json): Obj
  {
    Tree(name, AsText(Path(Topology(paramsNode), "newick")), Null, None)
  }

  /** The table after `connectConstrainedYuleModel`: a Yule prior, on the
      fixed tree (which also replaces the stored tree) when the topology is
      "fixed" with a newick; calibrations are ignored. */
  function ConstrainedYuleConnected(objects: map<string, Obj>, name: string, distNode: Json): (r: Result<map<string, Obj>>)
    ensures var paramsNode := Path(distNode, "parameters");
            var birthRate := ParameterInput(objects, paramsNode, "birthRate");
            if birthRate.Fail? then r == Fail(birthRate.message)
            else if MonophylyThrows(paramsNode) then r == Fail(NullPointer)
            else if FixesTree(paramsNode) then
              r == Ok(objects[name := FixedTree(name, paramsNode)]
                             [name + "Prior" := SpeciationPrior(name + "Prior", YuleModel, birthRate.value, None, Null, FixedTree(name, paramsNode))])
            else
              r == Ok(objects[name + "Prior" := SpeciationPrior(name + "Prior", YuleModel, birthRate.value, None, Null, Get(objects, name))])
  {
    var paramsNode := Path(distNode, "parameters");
    var birthRate := ParameterInput(objects, paramsNode, "birthRate");
    if birthRate.Fail? then Fail(birthRate.message)
    else if MonophylyThrows(paramsNode) then Fail(NullPointer)
    else if FixesTree(paramsNode) then
      var fixedTree := FixedTree(name, paramsNode);
      Ok(objects[name := fixedTree][name + "Prior" := SpeciationPrior(name + "Prior", YuleModel, birthRate.value, None, Null, fixedTree)])
    else
      Ok(objects[name + "Prior" := SpeciationPrior(name + "Prior", YuleModel, birthRate.value, None, Null, Get(objects, name))])
  }

  /** The table after `connectTreeDistribution`, or its exception. */
  function TreeConnected(objects: map<string, Obj>, name: string, distType: string, distNode: Json): (r: Result<map<string, Obj>>)
    ensures !IsTreeType(distType) ==> r == Fail("Unsupported tree distribution type: " + distType)
    ensures r.Ok? ==> name + "Prior" in r.value && IsDistribution(r.value[name + "Prior"]) &&
                      r.value[name + "Prior"].id == name + "Prior"
    ensures r.Ok? ==> objects.Keys + {name + "Prior"} <= r.value.Keys <= objects.Keys + {name, name + "Prior"}
    ensures r.Ok? ==> forall k :: k in objects && k != name && k != name + "Prior" ==> r.value[k] == objects[k]
    ensures r.Ok? && distType != "ConstrainedYule" ==> r.value == objects[name + "Prior" := r.value[name + "Prior"]]
    ensures IsTreeType(distType) && distType != "Coalescent" &&
            !Utils.IsVariableReference(Path(Path(distNode, "parameters"), "birthRate")) ==>
              r == Fail("Cannot extract variable reference from parameter: birthRate")
  {
    if distType == "Yule" then YuleConnected(objects, name, distNode)
    else if distType == "BirthDeath" then BirthDeathConnected(objects, name, distNode)
    else if distType == "Coalescent" then CoalescentConnected(objects, name, distNode)
    else if distType == "ConstrainedYule" then ConstrainedYuleConnected(objects, name, distNode)
    else Fail("Unsupported tree distribution type: " + distType)
  }

  // ---------------------------------------------------------------- trees from alignments

  /** The tree `updateTreesWithCorrectTaxa` parses for `key` from an
      alignment: the balanced ultrametric newick of its taxa, with tip
      heights adjusted. */
  function UltrametricTree(key: string, alignment: Obj): (t: Obj)
    requires alignment.Alignment?
    ensures t.Tree? && t.id == key && t.adjustTipHeights == Some(true)
    ensures t.newick == Newick.UltrametricNewick(TaxaNames(alignment.sequences))
  {
    Tree(key, Newick.UltrametricNewick(TaxaNames(alignment.sequences)), Null, Some(true))
  }

  /** The table the update pass leaves when it builds trees from
      `alignment`: the same keys, every tree the parser accepts rebuilt from
      the alignment's taxa, everything else as it was. */
  ghost predicate TreesRebuiltFrom(before: map<string, Obj>, after: map<string, Obj>, alignment: Obj, parses: string -> bool)
    requires alignment.Alignment?
  {
    after.Keys == before.Keys &&
    forall k :: k in before ==>
      after[k] == if before[k].Tree? && parses(UltrametricTree(k, alignment).newick) then UltrametricTree(k, alignment) else before[k]
  }

  /** The first Alignment of the table in its iteration order, if any. */
  method FirstAlignment(objects: map<string, Obj>) returns (alignment: Option<Obj>)
    ensures alignment.Some? <==> exists a :: a in objects.Values && a.Alignment?
    ensures alignment.Some? ==> alignment.value in objects.Values && alignment.value.Alignment?
  {
    var order := KeysInSomeOrder(objects);
    for i := 0 to |order|
      invariant forall j :: 0 <= j < i ==> !objects[order[j]].Alignment?
    {
      if objects[order[i]].Alignment? {
        return Some(objects[order[i]]);
      }
    }
    forall k | k in objects
      ensures !objects[k].Alignment?
    {
      var j :| 0 <= j < |order| && order[j] == k;
    }
    return None;
  }

  /** `isTreeUsedByYuleOrBirthDeath`: whichever prior it looks at, and
      whether reading the prior's tree fails or not, every path answers
      true. */
  method IsTreeUsedByYuleOrBirthDeath(treeKey: string, objects: map<string, Obj>) returns (used: bool)
    ensures used
  {
    var order := KeysInSomeOrder(objects);
    for i := 0 to |order|
    {
      var key := order[i];
      if Text.EndsWith(key, "Prior") {
        var obj := objects[key];
        if obj.SpeciationPrior? {
          var priorTree := obj.tree;
          if priorTree.Tree? {
            // the cast and getID succeed
            if priorTree.id == treeKey {
              return true;
            }
          } else if Text.StartsWith(key, treeKey) {
            // the cast or getID threw; the handler falls back on the key
            return true;
          }
        }
      }
    }
    return true;
  }

  /** `updateTreesWithCorrectTaxa`: over a snapshot of the keys, every tree
      is rebuilt from the first alignment the table yields (the same one for
      every tree, since replacing a tree moves no key in the iteration
      order); `parses` stands for the TreeParser accepting a newick (a
      rejected one is reported and the tree kept). */
  method UpdateTreesWithCorrectTaxa(table: ObjectTable, parses: string -> bool)
    modifies table
    ensures (forall a :: a in old(table.objects).Values ==> !a.Alignment?) ==> table.objects == old(table.objects)
    ensures (exists a :: a in old(table.objects).Values && a.Alignment?) ==>
              exists a :: a in old(table.objects).Values && a.Alignment? &&
                TreesRebuiltFrom(old(table.objects), table.objects, a, parses)
  {
    ghost var before := table.objects;
    var keys := KeysInSomeOrder(table.objects);
    var alignment := FirstAlignment(table.objects);
    if alignment.None? {
      return;
    }
    var a := alignment.value;
    for i := 0 to |keys|
      invariant table.objects.Keys == before.Keys
      invariant forall j :: i <= j < |keys| ==> table.objects[keys[j]] == before[keys[j]]
      invariant forall j :: 0 <= j < i ==>
                  table.objects[keys[j]] ==
                    (if before[keys[j]].Tree? && parses(UltrametricTree(keys[j], a).newick) then UltrametricTree(keys[j], a) else before[keys[j]])
    {
      var key := keys[i];
      if table.objects[key].Tree? {
        var needsUltrametricTree := IsTreeUsedByYuleOrBirthDeath(key, table.objects);
        var taxaNames := TaxaNames(a.sequences);
        var newick := Newick.UltrametricNewick(taxaNames);
        if parses(newick) {
          table.Put(key, Tree(key, newick, Null, Some(needsUltrametricTree)));
        }
      }
    }
    assert TreesRebuiltFrom(before, table.objects, a, parses) by {
      forall k | k in before
        ensures table.objects[k] ==
                  if before[k].Tree? && parses(UltrametricTree(k, a).newick) then UltrametricTree(k, a) else before[k]
      {
        var j :| 0 <= j < |keys| && keys[j] == k;
      }
    }
  }

  class TreeDistributionsMapper {

    const table: ObjectTable

    constructor(table: ObjectTable)
      ensures this.table == table
    {
      this.table := table;
    }

    /** `createTreeDistribution`. */
    method CreateTreeDistribution(name: string, distType: string, distNode: Json) returns (outcome: Outcome)
      modifies table
      ensures Effect(TreeCreated(old(table.objects), name, distType, distNode), outcome, old(table.objects), table.objects)
    {
      if distType == "Yule" {
        outcome := CreateYuleModel(name);
      } else if IsTreeType(distType) {
        outcome := CreatePhyloTree(name, distNode);
      } else {
        outcome := Thrown("Unsupported tree distribution type: " + distType);
      }
    }

    /** `connectTreeDistribution`. */
    method ConnectTreeDistribution(name: string, distType: string, distNode: Json) returns (outcome: Outcome)
      modifies table
      ensures Effect(TreeConnected(old(table.objects), name, distType, distNode), outcome, old(table.objects), table.objects)
    {
      if distType == "Yule" {
        outcome := ConnectYuleModel(name, distNode);
      } else if distType == "BirthDeath" {
        outcome := ConnectBirthDeathModel(name, distNode);
      } else if distType == "Coalescent" {
        outcome := ConnectCoalescentModel(name, distNode);
      } else if distType == "ConstrainedYule" {
        outcome := ConnectConstrainedYuleModel(name, distNode);
      } else {
        outcome := Thrown("Unsupported tree distribution type: " + distType);
      }
    }

    /** `createPhyloCTMC`: a taxon per observed entry, then the alignment. */
    method CreatePhyloCTMC(name: string, distNode: Json, observedValue: Json) returns (outcome: Outcome)
      modifies table
      ensures Effect(PhyloCTMCCreated(old(table.objects), name, observedValue), outcome, old(table.objects), table.objects)
    {
      if observedValue.Missing? {
        return Thrown("PhyloCTMC must have an observed value");
      }
      var sequences: seq<(string, string)> := [];
      var taxa: seq<string> := [];
      for i := 0 to Size(observedValue)
        invariant i > 0 ==> observedValue.Array?
        invariant |sequences| == i && |taxa| == i
        invariant forall k :: 0 <= k < i ==> sequences[k] == ObservedSequences(observedValue)[k] && taxa[k] == sequences[k].0
      {
        if !observedValue.Array? {
          // get(i) on an object with fields is null
          return Thrown(NullPointer);
        }
        var seqNode := observedValue.items[i];
        var taxonName := AsText(Path(seqNode, "taxon"));
        taxa := taxa + [taxonName];
        sequences := sequences + [(taxonName, AsText(Path(seqNode, "sequence")))];
      }
      assert sequences == ObservedSequences(observedValue);
      assert taxa == TaxaNames(sequences);
      table.Put(name + ".taxa", TaxonSet(name + ".taxa", taxa));
      table.Put(name, Alignment(name, sequences));
      outcome := Done;
    }

    /** `connectPhyloCTMC`: the tree likelihood is assembled later by the
        model builder, so this step does nothing and never throws. */
    method ConnectPhyloCTMC(name: string, distNode: Json) returns (outcome: Outcome)
      ensures outcome == Done
    {
      outcome := Done;
    }

    /** `createYuleModel`. */
    method CreateYuleModel(name: string) returns (outcome: Outcome)
      modifies table
      ensures Effect(YuleCreated(old(table.objects), name), outcome, old(table.objects), table.objects)
    {
      var taxonSet := Null;
      if "alignment" in table.objects {
        var alignment := table.objects["alignment"];
        if !(alignment.Null? || alignment.Alignment?) {
          return Thrown(ClassCast);
        }
        if alignment.Null? {
          return Thrown(NullPointer);
        }
        if "alignment.taxa" !in table.objects {
          taxonSet := TaxonSet("alignment.taxa", TaxaNames(alignment.sequences));
          table.Put("alignment.taxa", taxonSet);
        } else {
          taxonSet := table.objects["alignment.taxa"];
          if !(taxonSet.Null? || taxonSet.TaxonSet?) {
            return Thrown(ClassCast);
          }
        }
      }
      if !taxonSet.Null? {
        var newick := Newick.StarNewick(taxonSet.taxa);
        table.Put(name, Tree(name, newick, taxonSet, Some(false)));
      } else {
        table.Put(name, Tree(name, Newick.DummyNewick, Null, Some(false)));
      }
      outcome := Done;
    }

    /** `createBirthDeathModel`, `createCoalescentModel` and
        `createConstrainedYuleModel`. */
    method CreatePhyloTree(name: string, distNode: Json) returns (outcome: Outcome)
      modifies table
      ensures Effect(PhyloTreeCreated(old(table.objects), name, distNode), outcome, old(table.objects), table.objects)
    {
      var alignmentRef: Option<string> := None;
      var paramsNode := Path(distNode, "parameters");
      if Has(paramsNode, "phyloCTMC") {
        var ref := Utils.ExtractVariableReference(paramsNode, "phyloCTMC");
        if ref.Fail? {
          return Thrown(ref.message);
        }
        alignmentRef := Some(ref.value);
      }
      if alignmentRef.Some? && alignmentRef.value + ".taxa" in table.objects {
        var taxonSet := table.objects[alignmentRef.value + ".taxa"];
        if !(taxonSet.Null? || taxonSet.TaxonSet?) {
          return Thrown(ClassCast);
        }
        if taxonSet.Null? {
          // getTaxonCount on null
          return Thrown(NullPointer);
        }
        var newick := Newick.StarNewick(taxonSet.taxa);
        table.Put(name, Tree(name, newick, taxonSet, Some(false)));
      } else {
        table.Put(name, Tree(name, Newick.DummyNewick, Null, Some(false)));
      }
      outcome := Done;
    }

    /** `connectYuleModel`. */
    method ConnectYuleModel(name: string, distNode: Json) returns (outcome: Outcome)
      modifies table
      ensures Effect(YuleConnected(old(table.objects), name, distNode), outcome, old(table.objects), table.objects)
    {
      var paramsNode := Path(distNode, "parameters");
      var birthRate := ParameterInput(table.objects, paramsNode, "birthRate");
      if birthRate.Fail? {
        return Thrown(birthRate.message);
      }
      var yule := SpeciationPrior(name + "Prior", YuleModel, birthRate.value, None, Null, Get(table.objects, name));
      table.Put(name + "Prior", yule);
      outcome := Done;
    }

    /** `connectBirthDeathModel`. */
    method ConnectBirthDeathModel(name: string, distNode: Json) returns (outcome: Outcome)
      modifies table
      ensures Effect(BirthDeathConnected(old(table.objects), name, distNode), outcome, old(table.objects), table.objects)
    {
      var paramsNode := Path(distNode, "parameters");
      var birthRate := ParameterInput(table.objects, paramsNode, "birthRate");
      if birthRate.Fail? {
        return Thrown(birthRate.message);
      }
      var deathRate := ParameterInput(table.objects, paramsNode, "deathRate");
      if deathRate.Fail? {
        return Thrown(deathRate.message);
      }
      var rootHeight := RootHeightInput(table.objects, paramsNode);
      if rootHeight.Fail? {
        return Thrown(rootHeight.message);
      }
      var birthDeath := SpeciationPrior(name + "Prior", BirthDeathModel, birthRate.value, Some(Lit(0.5)),
                                        rootHeight.value, Get(table.objects, name));
      table.Put(name + "Prior", birthDeath);
      outcome := Done;
    }

    /** `connectCoalescentModel`. */
    method ConnectCoalescentModel(name: string, distNode: Json) returns (outcome: Outcome)
      modifies table
      ensures Effect(CoalescentConnected(old(table.objects), name, distNode), outcome, old(table.objects), table.objects)
    {
      var paramsNode := Path(distNode, "parameters");
      var popSize := ParameterInput(table.objects, paramsNode, "populationSize");
      if popSize.Fail? {
        return Thrown(popSize.message);
      }
      table.Put(name + "Prior", CoalescentPrior(name + "Prior", popSize.value, Get(table.objects, name)));
      outcome := Done;
    }

    /** `connectConstrainedYuleModel`. */
    method ConnectConstrainedYuleModel(name: string, distNode: Json) returns (outcome: Outcome)
      modifies table
      ensures Effect(ConstrainedYuleConnected(old(table.objects), name, distNode), outcome, old(table.objects), table.objects)
    {
      var paramsNode := Path(distNode, "parameters");
      var birthRate := ParameterInput(table.objects, paramsNode, "birthRate");
      if birthRate.Fail? {
        return Thrown(birthRate.message);
      }
      var tree := Get(table.objects, name);
      if MonophylyThrows(paramsNode) {
        return Thrown(NullPointer);
      }
      if FixesTree(paramsNode) {
        tree := Tree(name, AsText(Path(Topology(paramsNode), "newick")), Null, None);
        table.Put(name, tree);
      }
      table.Put(name + "Prior", SpeciationPrior(name + "Prior", YuleModel, birthRate.value, None, Null, tree));
      outcome := Done;
    }
  }
}
