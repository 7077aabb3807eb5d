/** `DistributionMapper`: routes each random variable's distribution to
    the tree mapper, to the PhyloCTMC alignment builder or to the standard
    mapper, all three writing into one shared table. */
module DistributionMapper {

  import opened Results
  import opened Json
  import opened Beast
  import StandardMapper
  import TreeMapper

  /** `isTreeDistribution`: the router's test picks out exactly the types
      the tree mapper accepts. */
  function IsTreeDistribution(distType: string): (r: bool)
    ensures r <==> TreeMapper.IsTreeType(distType)
  {
    distType == "Yule" || distType == "BirthDeath" || distType == "Coalescent" || distType == "ConstrainedYule"
  }

  /** The table after `createDistribution`, or its exception. A success
      stores under the variable's name a tree, an alignment or a parameter
      according to the route taken, and removes nothing. */
  function DistributionCreated(objects: map<string, Obj>, name: string, distType: string, generates: string,
                               distNode: Json, varNode: Json): (r: Result<map<string, Obj>>)
    ensures !IsTreeDistribution(distType) && distType != "PhyloCTMC" && StandardMapper.FamilyOf(distType).None? ==>
              r == Fail("Unsupported distribution type: " + distType)
    ensures distType == "PhyloCTMC" && Path(varNode, "observedValue").Missing? ==>
              r == Fail("PhyloCTMC must have an observed value")
    ensures r.Ok? ==> objects.Keys <= r.value.Keys && name in r.value
    ensures r.Ok? && IsTreeDistribution(distType) ==> r.value[name].Tree?
    ensures r.Ok? && distType == "PhyloCTMC" ==> r.value[name].Alignment?
    ensures r.Ok? && !IsTreeDistribution(distType) && distType != "PhyloCTMC" ==>
              r.value[name].RealParameter? && r.value.Keys == objects.Keys + {name, name + ".prior"}
  {
    if IsTreeDistribution(distType) then TreeMapper.TreeCreated(objects, name, distType, distNode)
    else if distType == "PhyloCTMC" then TreeMapper.PhyloCTMCCreated(objects, name, Path(varNode, "observedValue"))
    else StandardMapper.StandardCreated(objects, name, distType, distNode)
  }

  /** The table after `connectDistribution`: only tree distributions change
      it; PhyloCTMC and every other type, known or not, leave it alone. */
  function DistributionConnected(objects: map<string, Obj>, name: string, distType: string, distNode: Json)
    : (r: Result<map<string, Obj>>)
    ensures !IsTreeDistribution(distType) ==> r == Ok(objects)
    ensures r.Ok? ==> objects.Keys <= r.value.Keys
    ensures r.Ok? && IsTreeDistribution(distType) ==> name + "Prior" in r.value && IsDistribution(r.value[name + "Prior"])
  {
    if IsTreeDistribution(distType) then TreeMapper.TreeConnected(objects, name, distType, distNode)
    else Ok(objects)
  }

  /** An unknown type throws when created but is silently accepted when
      connected. */
  lemma UnknownTypeOnlyFailsOnCreate(objects: map<string, Obj>, name: string, distType: string, generates: string,
                                     distNode: Json, varNode: Json)
    requires !IsTreeDistribution(distType) && distType != "PhyloCTMC"
    requires StandardMapper.FamilyOf(distType).None?
    ensures DistributionCreated(objects, name, distType, generates, distNode, varNode).Fail?
    ensures DistributionConnected(objects, name, distType, distNode) == Ok(objects)
  {
  }

  class DistributionMapper {

    const table: ObjectTable
    const standardMapper: StandardMapper.StandardDistributionsMapper
    const treeMapper: TreeMapper.TreeDistributionsMapper

    /** Both delegates write into this mapper's table. */
    predicate Shared()
    {
      standardMapper.table == table && treeMapper.table == table
    }

    constructor(table: ObjectTable)
      ensures this.table == table && Shared()
    {
      this.table := table;
      this.standardMapper := new StandardMapper.StandardDistributionsMapper(table);
      this.treeMapper := new TreeMapper.TreeDistributionsMapper(table);
    }

    /** `createDistribution`. */
    method CreateDistribution(name: string, distType: string, generates: string, distNode: Json, varNode: Json)
      returns (outcome: Outcome)
      requires Shared()
      modifies table
      ensures Effect(DistributionCreated(old(table.objects), name, distType, generates, distNode, varNode),
                     outcome, old(table.objects), table.objects)
    {
      if IsTreeDistribution(distType) {
        outcome := treeMapper.CreateTreeDistribution(name, distType, distNode);
      } else if distType == "PhyloCTMC" {
        outcome := treeMapper.CreatePhyloCTMC(name, distNode, Path(varNode, "observedValue"));
      } else {
        outcome := standardMapper.CreateStandardDistribution(name, distType, generates, distNode);
      }
    }

    /** `connectDistribution`. */
    method ConnectDistribution(name: string, distType: string, distNode: Json) returns (outcome: Outcome)
      requires Shared()
      modifies table
      ensures Effect(DistributionConnected(old(table.objects), name, distType, distNode),
                     outcome, old(table.objects), table.objects)
    {
      if IsTreeDistribution(distType) {
        outcome := treeMapper.ConnectTreeDistribution(name, distType, distNode);
      } else if distType == "PhyloCTMC" {
        outcome := treeMapper.ConnectPhyloCTMC(name, distNode);
      } else {
        outcome := Done;
      }
    }
  }
}
