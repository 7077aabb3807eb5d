# Codephy validator and BEAST2 mapper, modelled in Dafny

Codephy is a JSON format for phylogenetic models. A Codephy model declares:

- random variables, each with a distribution (Normal, Gamma, …, Yule, PhyloCTMC) and optionally an observed value;
- deterministic functions (substitution models such as `hky` and `gtr`, `normalize`, `vectorElement`);
- optional constraints.

This project models four parts of the repository.

1. **The validator** (`CodephyValidator`). It runs two checks:
   - JSON Schema validation, whose messages are an input here;
   - semantic checks, in this order: required top-level fields, name collisions between variables and functions, undefined references, circular dependencies between functions, constraint fields, and the `generates` type and dimension of each distribution.

   For the "complete model" test case, errors that mention PhyloCTMC or substitutionModel are dropped.
2. **The BEAST2 mapper.** It has three parts:
   - `Utils`, the JSON helpers the mappers share;
   - the mappers that turn each variable and function into BEAST2 objects in one shared, mutable `beastObjects` table: `StandardDistributionsMapper`, `TreeDistributionsMapper` (including its Newick builders), `FunctionMapper`, and the `DistributionMapper` router;
   - `ModelBuilder`, which selects objects from that table to assemble the tree likelihood, prior, likelihood, posterior, state, operators and MCMC run.
3. **The Newick builders**: the star tree, the balanced ultrametric tree and the pectinate (comb) tree.
4. **`test_code_blocks.py`**. It extracts every ```` ```json ```` block of a Markdown document, strips it, writes it to a temporary file, runs the validator on it, prints a numbered report, and removes the file.

## How the model is built

**The table.** The shared table is a class `Beast.ObjectTable` with one field, `objects: map<string, Obj>`.

**Objects are values.** BEAST objects are values of the datatype `Beast.Obj`. An object that is "initialised" later (`initByName`) is a new value that the table stores again.

**Each mapper has two layers:**
- a class whose methods change the table (`modifies table`);
- a pure function `…Created` / `…Connected` that states the table after the step, or the exception the step throws.

The method's `ensures` ties the two together through `Beast.Effect`. On success, the table is the function's value. On a throw, the table is unchanged, because every modelled throw happens before the step's first write.

**Checks and builders.** Each validator check and each loop of the builder is a `method` with the source's loop. It is proved equal to a specification function, and the properties are lemmas about that function.

**Java semantics.**
- `null` is `Obj.Null`.
- A reference cast is `Beast.Cast`.
- A thrown exception is `Fail(message)`.
- Jackson's `path`, `asText`, `asInt` and `asDouble` are written out in the `Json` module. A missing node reads as `""`, 0 or 0.0.

**Floating point.** Doubles are symbolic `Doubles.Num` terms (`Lit`, `Parsed`, `Exp`, `Div`, `Add`), so that "the initial value is alpha/beta" can be stated without modelling IEEE arithmetic.

**Iteration order.** `HashMap` iteration order is unknown. Wherever it matters it is a parameter. A listing of the table's keys is duplicate-free; the root order of the dependency graph need only list each name at least once, and no other. The two constant `HashSet`s whose order shows in messages (the valid constraint types and the scalar `generates` types) are listed in the order the JDK's 16-bucket table gives their strings' hash codes.

**The cycle search.** The validator takes a flag `settle`. With `settle` false it runs the source's depth-first search as written; with `settle` true it runs the corrected search (see Findings).

**Two behaviours of the source are modelled as written:**
- `ModelBuilder` looks for the function types "HKY", "JC69" and "GTR", but `FunctionMapper` accepts only "hky", "jc69" and "gtr". So a model whose substitution model the mapper can create never gets a tree likelihood (`ModelBuilder.CreatableFunctionsNeverBuild`).
- `checkReferences` indexes `constraints` with `get(i)`. A non-empty JSON *object* of constraints therefore yields `null`, and the validator throws a NullPointerException (`Validator.ObjectConstraintsThrow`, `Validator.ValidationThrows`).

## Model

Paths below are abbreviated:
- `V` = `validator/java/src/main/java/org/codephy/validator/CodephyValidator.java`
- mapper files are under `mappers/beast2/src/main/java/org/codephy/mappers/beast2/`

The table cells carry the full paths.

| member | source | states |
|---|---|---|
| Utils.ExtractNumericValue | mappers/beast2/src/main/java/org/codephy/mappers/beast2/Utils.java:17-28 | A number field reads as its value; an absent field, an expression object or any other node reads as 1.0 |
| Utils.MissingOrExpressionReadsOne | mappers/beast2/src/main/java/org/codephy/mappers/beast2/Utils.java:17-28 | A missing hyperparameter and an `{"expression": …}` object both give 1.0 |
| Utils.ExtractVariableReference | mappers/beast2/src/main/java/org/codephy/mappers/beast2/Utils.java:37-46 | The `variable` text of a `{"variable": …}` object, or a bare string; anything else throws "Cannot extract variable reference from parameter: name" |
| Utils.ExtractDimension | mappers/beast2/src/main/java/org/codephy/mappers/beast2/Utils.java:54-73 | 1 when `dimension` is absent; the integer itself when it is an int; 10 for an object with an `expression` or `variable` field; 1 for every other form |
| Utils.VariableExists | mappers/beast2/src/main/java/org/codephy/mappers/beast2/Utils.java:82-84 | True exactly when `randomVariables` has a field of that name |
| Beast.ParameterInput | mappers/beast2/src/main/java/org/codephy/mappers/beast2/TreeDistributionsMapper.java:456-457 | `(Parameter) beastObjects.get(ref)`: a reference extraction failure or a non-parameter object throws; otherwise the stored object or null |
| Beast.TaxaNames | mappers/beast2/src/main/java/org/codephy/mappers/beast2/TreeDistributionsMapper.java:232 | The taxon names of an alignment, one per sequence, in sequence order |
| StandardMapper.FamilyOf | mappers/beast2/src/main/java/org/codephy/mappers/beast2/StandardDistributionsMapper.java:39-72 | The switch accepts exactly the seven type names, each selecting the family of that name; every other name takes the default branch |
| StandardMapper.Hyperparameters | mappers/beast2/src/main/java/org/codephy/mappers/beast2/StandardDistributionsMapper.java:77-82 | Each family reads its own hyperparameter names through `extractNumericValue`, in order |
| StandardMapper.ScalarParameter | mappers/beast2/src/main/java/org/codephy/mappers/beast2/StandardDistributionsMapper.java:77-348 | The parameter is named after the variable, and holds `extractDimension` copies (one when that is at most 1) of the family's initial value: the mean, exp(m), alpha/beta, 1/lambda, alpha/(alpha+beta) or (lower+upper)/2. Bounds are [0,1] for Beta, [lower,upper] for Uniform, and none otherwise |
| StandardMapper.DirichletAlpha | mappers/beast2/src/main/java/org/codephy/mappers/beast2/StandardDistributionsMapper.java:357-377 | An `alpha` array gives each element as a double; a non-array `alpha` is repeated `extractDimension` times, or 4 times when that is at most 1 |
| StandardMapper.Normalized | mappers/beast2/src/main/java/org/codephy/mappers/beast2/StandardDistributionsMapper.java:383-392 | Each concentration is divided by the sum of all of them; the length is kept |
| StandardMapper.DirichletParameter | mappers/beast2/src/main/java/org/codephy/mappers/beast2/StandardDistributionsMapper.java:379-394 | The Dirichlet's parameter holds the normalised concentrations, bounded to [0,1] |
| StandardMapper.StandardCreated | mappers/beast2/src/main/java/org/codephy/mappers/beast2/StandardDistributionsMapper.java:39-72 | Succeeds exactly for the seven families; otherwise throws "Unsupported distribution type: T". On success it adds `name` (a parameter) and `name.prior` (a prior over that parameter, of the named family) and keeps every other entry |
| StandardMapper.RepeatValue | mappers/beast2/src/main/java/org/codephy/mappers/beast2/StandardDistributionsMapper.java:92-95 | The loop appends the value n times |
| StandardMapper.AlphaValues | mappers/beast2/src/main/java/org/codephy/mappers/beast2/StandardDistributionsMapper.java:357-377 | The Dirichlet's reading loops compute `DirichletAlpha` |
| StandardMapper.SumValues | mappers/beast2/src/main/java/org/codephy/mappers/beast2/StandardDistributionsMapper.java:384-387 | The `sum +=` loop computes the left-to-right sum |
| StandardMapper.NormalizeValues | mappers/beast2/src/main/java/org/codephy/mappers/beast2/StandardDistributionsMapper.java:389-392 | The normalising loop divides each value by the sum |
| StandardMapper.StandardDistributionsMapper.constructor | mappers/beast2/src/main/java/org/codephy/mappers/beast2/StandardDistributionsMapper.java:32-34 | The mapper shares the given table |
| StandardMapper.StandardDistributionsMapper.CreateStandardDistribution | mappers/beast2/src/main/java/org/codephy/mappers/beast2/StandardDistributionsMapper.java:39-72 | The table changes as `StandardCreated` says, or the step throws and the table is unchanged |
| StandardMapper.StandardDistributionsMapper.CreateScalarDistribution | mappers/beast2/src/main/java/org/codephy/mappers/beast2/StandardDistributionsMapper.java:77-348 | Stores `ScalarParameter` under the name and a prior over it under `name.prior` |
| StandardMapper.StandardDistributionsMapper.CreateDirichletDistribution | mappers/beast2/src/main/java/org/codephy/mappers/beast2/StandardDistributionsMapper.java:353-409 | Stores `DirichletParameter` under the name and a Dirichlet prior over the concentrations under `name.prior` |
| FunctionMapper.SubstKindOf | mappers/beast2/src/main/java/org/codephy/mappers/beast2/FunctionMapper.java:34-58 | Exactly "hky", "jc69" and "gtr" create a substitution model: HKY exactly for "hky", GTR exactly for "gtr" |
| FunctionMapper.FunctionCreated | mappers/beast2/src/main/java/org/codephy/mappers/beast2/FunctionMapper.java:34-59 | Succeeds exactly for the five function types, otherwise throws "Unsupported function type: T". "normalize" and "vectorElement" create nothing; the model types store a fresh model under the name |
| FunctionMapper.ExtractAll | mappers/beast2/src/main/java/org/codephy/mappers/beast2/FunctionMapper.java:155-160 | Succeeds exactly when every argument is a reference, giving each reference in order |
| FunctionMapper.ExtractAllFailsAtFirst | mappers/beast2/src/main/java/org/codephy/mappers/beast2/FunctionMapper.java:155-160 | The error names the first argument that is not a reference |
| FunctionMapper.CastAll | mappers/beast2/src/main/java/org/codephy/mappers/beast2/FunctionMapper.java:162-167 | `(Parameter)` casts of every stored object succeed exactly when each is null or a parameter, giving the objects in order; otherwise they throw a ClassCastException |
| FunctionMapper.ModelInput | mappers/beast2/src/main/java/org/codephy/mappers/beast2/FunctionMapper.java:119-120 | `(HKY) get(name).initByName(…)` succeeds only on a model of that kind. Null is a NullPointerException; anything else is a ClassCastException |
| FunctionMapper.HKYConnected | mappers/beast2/src/main/java/org/codephy/mappers/beast2/FunctionMapper.java:103-121 | kappa, then the frequencies, then the model are read in that order, each failure becoming the step's exception; on success the HKY model gets kappa and frequencies over the referenced parameter |
| FunctionMapper.GTRConnected | mappers/beast2/src/main/java/org/codephy/mappers/beast2/FunctionMapper.java:151-188 | A rate that is not a reference throws first. A success found a substitution model under the name and replaces it with a GTR model of the same id whose six rates are the referenced objects, in order, and nothing else |
| FunctionMapper.NormalizeConnected | mappers/beast2/src/main/java/org/codephy/mappers/beast2/FunctionMapper.java:206-227 | An array of values changes nothing; otherwise the object the `values` reference names is stored again under the function's name |
| FunctionMapper.VectorElementConnected | mappers/beast2/src/main/java/org/codephy/mappers/beast2/FunctionMapper.java:239-266 | A failed `vector` reference throws; a null vector changes nothing; an `index` inside the vector stores a one-value parameter holding that element under the function's name; any other index throws IndexOutOfBoundsException |
| FunctionMapper.FunctionConnected | mappers/beast2/src/main/java/org/codephy/mappers/beast2/FunctionMapper.java:64-89 | An unknown type throws "Unsupported function type: T"; "jc69" changes nothing; the other types are their own connect steps |
| FunctionMapper.ConnectedOnlyTouchesName | mappers/beast2/src/main/java/org/codephy/mappers/beast2/FunctionMapper.java:64-89 | A successful connect step sets at most the function's own entry |
| FunctionMapper.HKYSetsAtMostName | mappers/beast2/src/main/java/org/codephy/mappers/beast2/FunctionMapper.java:103-121 | Connecting HKY sets at most the model's entry |
| FunctionMapper.GTRSetsAtMostName | mappers/beast2/src/main/java/org/codephy/mappers/beast2/FunctionMapper.java:151-188 | Connecting GTR sets at most the model's entry |
| FunctionMapper.NormalizeSetsAtMostName | mappers/beast2/src/main/java/org/codephy/mappers/beast2/FunctionMapper.java:206-227 | Connecting normalize sets at most the function's entry |
| FunctionMapper.VectorElementSetsAtMostName | mappers/beast2/src/main/java/org/codephy/mappers/beast2/FunctionMapper.java:239-266 | Connecting vectorElement sets at most the function's entry |
| FunctionMapper.ConnectedModelKeepsKind | mappers/beast2/src/main/java/org/codephy/mappers/beast2/FunctionMapper.java:103-188 | A successful HKY or GTR connection found a model of that kind under the name, and leaves one of that kind there |
| FunctionMapper.CreatedModelConnects | mappers/beast2/src/main/java/org/codephy/mappers/beast2/FunctionMapper.java:94-188 | Right after creation, connecting an HKY or GTR model fails only on its arguments, never on the model lookup |
| FunctionMapper.ExtractReferences | mappers/beast2/src/main/java/org/codephy/mappers/beast2/FunctionMapper.java:155-160 | The reference loop computes `ExtractAll` |
| FunctionMapper.RestFails | mappers/beast2/src/main/java/org/codephy/mappers/beast2/FunctionMapper.java:155-160 | Once a prefix of the arguments fails, the whole list fails with the same message |
| FunctionMapper.CastParameters | mappers/beast2/src/main/java/org/codephy/mappers/beast2/FunctionMapper.java:162-167 | The cast loop computes `CastAll` |
| FunctionMapper.CastRestFails | mappers/beast2/src/main/java/org/codephy/mappers/beast2/FunctionMapper.java:162-167 | Once a prefix of the casts fails, the whole list throws a ClassCastException |
| FunctionMapper.FunctionMapper.constructor | mappers/beast2/src/main/java/org/codephy/mappers/beast2/FunctionMapper.java:27-29 | The mapper shares the given table |
| FunctionMapper.FunctionMapper.CreateFunction | mappers/beast2/src/main/java/org/codephy/mappers/beast2/FunctionMapper.java:34-59 | The table changes as `FunctionCreated` says, or the step throws and the table is unchanged |
| FunctionMapper.FunctionMapper.ConnectFunction | mappers/beast2/src/main/java/org/codephy/mappers/beast2/FunctionMapper.java:64-89 | The table changes as `FunctionConnected` says, or the step throws and the table is unchanged |
| FunctionMapper.FunctionMapper.ConnectHKYModel | mappers/beast2/src/main/java/org/codephy/mappers/beast2/FunctionMapper.java:103-121 | The table changes as `HKYConnected` says |
| FunctionMapper.FunctionMapper.ConnectGTRModel | mappers/beast2/src/main/java/org/codephy/mappers/beast2/FunctionMapper.java:151-188 | The table changes as `GTRConnected` says |
| FunctionMapper.FunctionMapper.ConnectNormalizeFunction | mappers/beast2/src/main/java/org/codephy/mappers/beast2/FunctionMapper.java:206-227 | The table changes as `NormalizeConnected` says |
| FunctionMapper.FunctionMapper.ConnectVectorElementFunction | mappers/beast2/src/main/java/org/codephy/mappers/beast2/FunctionMapper.java:239-266 | The table changes as `VectorElementConnected` says |
| DistributionMapper.IsTreeDistribution | mappers/beast2/src/main/java/org/codephy/mappers/beast2/DistributionMapper.java:57-62 | The router's test picks out exactly the four types the tree mapper accepts |
| DistributionMapper.DistributionCreated | mappers/beast2/src/main/java/org/codephy/mappers/beast2/DistributionMapper.java:31-40 | Tree types go to the tree mapper (a tree under the name), PhyloCTMC to `createPhyloCTMC` (an alignment; throws without `observedValue`), every other type to the standard mapper (throws for unknown types). A success keeps every name |
| DistributionMapper.DistributionConnected | mappers/beast2/src/main/java/org/codephy/mappers/beast2/DistributionMapper.java:45-52 | Only tree distributions change the table, adding a distribution under `namePrior`; every other type leaves it as it is |
| DistributionMapper.UnknownTypeOnlyFailsOnCreate | mappers/beast2/src/main/java/org/codephy/mappers/beast2/DistributionMapper.java:31-52 | An unknown type throws when created but is silently accepted when connected |
| DistributionMapper.DistributionMapper.constructor | mappers/beast2/src/main/java/org/codephy/mappers/beast2/DistributionMapper.java:22-26 | The router and both delegates share one table |
| DistributionMapper.DistributionMapper.CreateDistribution | mappers/beast2/src/main/java/org/codephy/mappers/beast2/DistributionMapper.java:31-40 | The table changes as `DistributionCreated` says |
| DistributionMapper.DistributionMapper.ConnectDistribution | mappers/beast2/src/main/java/org/codephy/mappers/beast2/DistributionMapper.java:45-52 | The table changes as `DistributionConnected` says |
| TreeMapper.StarTree | mappers/beast2/src/main/java/org/codephy/mappers/beast2/TreeDistributionsMapper.java:176-195 | The initial tree over a taxon set is the star `(t1,…,tn):1.0;`, parsed with that set |
| TreeMapper.DummyTree | mappers/beast2/src/main/java/org/codephy/mappers/beast2/TreeDistributionsMapper.java:198-210 | Without a taxon set the tree is the fixed two-taxon tree `(taxon1:1.0,taxon2:1.0):1.0;` |
| TreeMapper.ObservedSequences | mappers/beast2/src/main/java/org/codephy/mappers/beast2/TreeDistributionsMapper.java:102-120 | One (taxon, sequence) pair per element of an observed array, in order; a non-array gives none |
| TreeMapper.PhyloCTMCCreated | mappers/beast2/src/main/java/org/codephy/mappers/beast2/TreeDistributionsMapper.java:93-133 | Throws without an observed value, and with a non-empty object (`get(i)` is null). Otherwise the table gains exactly two entries: under the name, the alignment of the observed (taxon, sequence) pairs in order; under `name.taxa`, that alignment's taxon set. Every other entry is unchanged |
| TreeMapper.YuleCreated | mappers/beast2/src/main/java/org/codephy/mappers/beast2/TreeDistributionsMapper.java:146-212 | With no "alignment" entry: the dummy tree. A null alignment throws NullPointerException; any other non-alignment throws ClassCastException. With an alignment and no "alignment.taxa": that key gets the alignment's taxon set, and the tree is the star tree over it. With "alignment.taxa" already present: the star tree over that existing entry, the dummy tree if it is null, and a ClassCastException if it is not a taxon set |
| TreeMapper.PhyloTreeCreated | mappers/beast2/src/main/java/org/codephy/mappers/beast2/TreeDistributionsMapper.java:400-447 | BirthDeath, Coalescent and ConstrainedYule store the dummy tree when there is no `phyloCTMC` parameter, and throw when that parameter is not a reference. With a reference `ref`: no `ref.taxa` entry gives the dummy tree; a taxon set there gives the star tree over it; a null entry throws NullPointerException; any other object throws ClassCastException. Conversely, any non-dummy tree stored is that star tree. Only the tree's own entry changes |
| TreeMapper.TreeCreated | mappers/beast2/src/main/java/org/codephy/mappers/beast2/TreeDistributionsMapper.java:41-62 | Unknown types throw "Unsupported tree distribution type: T". A success stores an initial tree under the name, may add "alignment.taxa" (Yule only), and keeps every other entry |
| TreeMapper.YuleConnected | mappers/beast2/src/main/java/org/codephy/mappers/beast2/TreeDistributionsMapper.java:383-395 | The Yule prior `namePrior` takes the referenced birth rate and the tree under the name; a failed reference is the step's exception |
| TreeMapper.RootHeightInput | mappers/beast2/src/main/java/org/codephy/mappers/beast2/TreeDistributionsMapper.java:483-498 | No `rootHeight` gives no input. A `{"variable": ref}` object gives the stored object under `ref` cast to a parameter: it throws ClassCastException exactly when that object is neither null nor a parameter. A number gives a new one-value parameter holding it. Any other form gives no input |
| TreeMapper.BirthDeathConnected | mappers/beast2/src/main/java/org/codephy/mappers/beast2/TreeDistributionsMapper.java:452-501 | Succeeds exactly when the birth rate, death rate and root height inputs all succeed. Otherwise the first failure, in that order, is the step's exception. On success the only entry written is the prior under `namePrior`: a birth-death prior over the stored tree, whose `birthDiffRate` is the birth rate parameter, whose `meanInRealSpace` is the root height input, and whose relative death rate is 0.5 |
| TreeMapper.CoalescentConnected | mappers/beast2/src/main/java/org/codephy/mappers/beast2/TreeDistributionsMapper.java:558-577 | The coalescent prior over a constant population of the referenced size, stored under `namePrior` |
| TreeMapper.ConstrainedYuleConnected | mappers/beast2/src/main/java/org/codephy/mappers/beast2/TreeDistributionsMapper.java:634-693 | A failed birth rate reference throws first. Then a "monophyly" topology whose `taxonSet` is read as null throws. A "fixed" topology with a newick replaces the tree and the Yule prior is over that tree. Otherwise the Yule prior is over the stored tree |
| TreeMapper.TreeConnected | mappers/beast2/src/main/java/org/codephy/mappers/beast2/TreeDistributionsMapper.java:67-88 | Unknown types throw. A success stores a distribution under `namePrior` and changes at most the name and `namePrior`; only ConstrainedYule may replace the tree |
| TreeMapper.UltrametricTree | mappers/beast2/src/main/java/org/codephy/mappers/beast2/TreeDistributionsMapper.java:246-258 | The replacement tree under a key is parsed from the balanced ultrametric newick over the alignment's taxa |
| TreeMapper.FirstAlignment | mappers/beast2/src/main/java/org/codephy/mappers/beast2/TreeDistributionsMapper.java:227-231 | Finds an alignment exactly when the table holds one, and what it finds is one of the table's alignments |
| TreeMapper.IsTreeUsedByYuleOrBirthDeath | mappers/beast2/src/main/java/org/codephy/mappers/beast2/TreeDistributionsMapper.java:274-303 | Every path through the search answers true |
| TreeMapper.UpdateTreesWithCorrectTaxa | mappers/beast2/src/main/java/org/codephy/mappers/beast2/TreeDistributionsMapper.java:214-269 | Without an alignment nothing changes. Otherwise, for one alignment of the table, every tree whose ultrametric newick the parser accepts is rebuilt from that alignment's taxa; every other entry and the set of keys are unchanged |
| TreeMapper.TreeDistributionsMapper.constructor | mappers/beast2/src/main/java/org/codephy/mappers/beast2/TreeDistributionsMapper.java:34-36 | The mapper shares the given table |
| TreeMapper.TreeDistributionsMapper.CreateTreeDistribution | mappers/beast2/src/main/java/org/codephy/mappers/beast2/TreeDistributionsMapper.java:41-62 | The table changes as `TreeCreated` says |
| TreeMapper.TreeDistributionsMapper.ConnectTreeDistribution | mappers/beast2/src/main/java/org/codephy/mappers/beast2/TreeDistributionsMapper.java:67-88 | The table changes as `TreeConnected` says |
| TreeMapper.TreeDistributionsMapper.CreatePhyloCTMC | mappers/beast2/src/main/java/org/codephy/mappers/beast2/TreeDistributionsMapper.java:93-133 | The taxon loop, then the taxon set and the alignment: the table changes as `PhyloCTMCCreated` says |
| TreeMapper.TreeDistributionsMapper.ConnectPhyloCTMC | mappers/beast2/src/main/java/org/codephy/mappers/beast2/TreeDistributionsMapper.java:138-141 | Connecting a PhyloCTMC changes nothing |
| TreeMapper.TreeDistributionsMapper.CreateYuleModel | mappers/beast2/src/main/java/org/codephy/mappers/beast2/TreeDistributionsMapper.java:146-212 | The table changes as `YuleCreated` says |
| TreeMapper.TreeDistributionsMapper.CreatePhyloTree | mappers/beast2/src/main/java/org/codephy/mappers/beast2/TreeDistributionsMapper.java:400-447 | The table changes as `PhyloTreeCreated` says: the star tree over `ref.taxa` when it holds a taxon set, the dummy tree when it is absent, and the exceptions otherwise |
| TreeMapper.TreeDistributionsMapper.ConnectYuleModel | mappers/beast2/src/main/java/org/codephy/mappers/beast2/TreeDistributionsMapper.java:383-395 | The table changes as `YuleConnected` says |
| TreeMapper.TreeDistributionsMapper.ConnectBirthDeathModel | mappers/beast2/src/main/java/org/codephy/mappers/beast2/TreeDistributionsMapper.java:452-501 | The table changes as `BirthDeathConnected` says: the birth rate becomes `birthDiffRate`, the root height `meanInRealSpace`, and each failing input its exception |
| TreeMapper.TreeDistributionsMapper.ConnectCoalescentModel | mappers/beast2/src/main/java/org/codephy/mappers/beast2/TreeDistributionsMapper.java:558-577 | The table changes as `CoalescentConnected` says |
| TreeMapper.TreeDistributionsMapper.ConnectConstrainedYuleModel | mappers/beast2/src/main/java/org/codephy/mappers/beast2/TreeDistributionsMapper.java:634-693 | The table changes as `ConstrainedYuleConnected` says |
| Newick.Mid | mappers/beast2/src/main/java/org/codephy/mappers/beast2/TreeDistributionsMapper.java:336 | The split point of a range of three or more taxa lies inside the range |
| Newick.LeftSize | mappers/beast2/src/main/java/org/codephy/mappers/beast2/TreeDistributionsMapper.java:336 | The left part of a split is never smaller than the right part, and larger by at most one |
| Newick.PairSubtree | mappers/beast2/src/main/java/org/codephy/mappers/beast2/TreeDistributionsMapper.java:329-333 | Two taxa give `(a:1.0,b:1.0):1.0` |
| Newick.BalancedSubtreeFills | mappers/beast2/src/main/java/org/codephy/mappers/beast2/TreeDistributionsMapper.java:324-342 | A balanced subtree is its range of taxa, in order and each once, filled into a skeleton that depends only on the range's size |
| Newick.BalancedSkeletonSlots | mappers/beast2/src/main/java/org/codephy/mappers/beast2/TreeDistributionsMapper.java:324-342 | The skeleton over n taxa holds exactly n taxon slots |
| Newick.UltrametricFillsTaxa | mappers/beast2/src/main/java/org/codephy/mappers/beast2/TreeDistributionsMapper.java:308-319 | For one or more taxa, the ultrametric newick holds every taxon once, in input order, followed by ";" |
| Newick.BalancedSkeletonIsSkeleton | mappers/beast2/src/main/java/org/codephy/mappers/beast2/TreeDistributionsMapper.java:324-342 | Around the taxa, the balanced tree holds only Newick punctuation and branch lengths |
| Newick.BalancedSkeletonParentheses | mappers/beast2/src/main/java/org/codephy/mappers/beast2/TreeDistributionsMapper.java:324-342 | The balanced tree over n taxa has n-1 opening and n-1 closing parentheses, one pair per internal node |
| Newick.DummyIsUltrametric | mappers/beast2/src/main/java/org/codephy/mappers/beast2/TreeDistributionsMapper.java:201 | The dummy tree is the ultrametric tree over "taxon1" and "taxon2" |
| Newick.PectinateNewick | mappers/beast2/src/main/java/org/codephy/mappers/beast2/TreeDistributionsMapper.java:347-378 | No taxa give ""; one taxon gives "t;"; two or more fill every taxon once, in order, into the comb skeleton |
| Newick.PectinateSkeleton | mappers/beast2/src/main/java/org/codephy/mappers/beast2/TreeDistributionsMapper.java:356-375 | The comb skeleton over n taxa holds exactly n slots |
| Newick.PectinateSkeletonShape | mappers/beast2/src/main/java/org/codephy/mappers/beast2/TreeDistributionsMapper.java:356-375 | The comb holds only punctuation and slots, has n-1 opening and n-1 closing parentheses, and ends in ";" |
| Newick.SplitFills | mappers/beast2/src/main/java/org/codephy/mappers/beast2/TreeDistributionsMapper.java:335-341 | The two halves of a split, each filling its own range, fill the whole range |
| Newick.OpenStep | mappers/beast2/src/main/java/org/codephy/mappers/beast2/TreeDistributionsMapper.java:362-364 | One pass of the opening loop appends exactly the next comb slot, filled with the next taxon |
| Newick.CloseStep | mappers/beast2/src/main/java/org/codephy/mappers/beast2/TreeDistributionsMapper.java:370-372 | One pass of the closing loop appends one closing branch `):0.5` |
| Newick.StarNewick | mappers/beast2/src/main/java/org/codephy/mappers/beast2/TreeDistributionsMapper.java:176-182 | The loop builds `(` + the ids joined by "," + `):1.0;`, which is each id once, in order, filled into the star skeleton |
| Newick.SlotListFills | mappers/beast2/src/main/java/org/codephy/mappers/beast2/TreeDistributionsMapper.java:178-181 | The ids joined by commas fill the comma-separated slots |
| ModelSelection.DoesModelUseClock | mappers/beast2/src/main/java/org/codephy/mappers/beast2/ModelBuilder.java:103-144 | True exactly when some function is a strict, relaxed or uncorrelated clock, or some PhyloCTMC has a `rate` or `branchRates` parameter |
| ModelSelection.FindSiteRates | mappers/beast2/src/main/java/org/codephy/mappers/beast2/ModelBuilder.java:270-293 | True exactly when some PhyloCTMC variable has a `siteRates` parameter |
| ModelSelection.AnyMatch | mappers/beast2/src/main/java/org/codephy/mappers/beast2/ModelBuilder.java:108-118 | The early-return loop answers whether some entry matches |
| ModelSelection.ObservationMapKeys | mappers/beast2/src/main/java/org/codephy/mappers/beast2/ModelBuilder.java:418-437 | The observation map has exactly the random variables' names as keys |
| ModelSelection.ObservationMapLast | mappers/beast2/src/main/java/org/codephy/mappers/beast2/ModelBuilder.java:425-433 | A name's entry records whether the last variable of that name has an `observedValue` |
| ModelSelection.BuildObservationMap | mappers/beast2/src/main/java/org/codephy/mappers/beast2/ModelBuilder.java:418-437 | The loop computes the observation map |
| ModelSelection.PriorKeyedDistributions | mappers/beast2/src/main/java/org/codephy/mappers/beast2/ModelBuilder.java:375-379 | The first loop collects exactly the objects stored under keys ending in "Prior", and collects each only once when no object is stored under two such keys |
| ModelSelection.KeyedPriorsComplete | mappers/beast2/src/main/java/org/codephy/mappers/beast2/ModelBuilder.java:375-379 | After every key is seen, the collected priors are exactly the "Prior"-keyed distributions |
| ModelSelection.NextPriorIsNew | mappers/beast2/src/main/java/org/codephy/mappers/beast2/ModelBuilder.java:375-379 | With no object under two "Prior" keys, each collected prior differs from those before it |
| ModelSelection.SelectPriors | mappers/beast2/src/main/java/org/codephy/mappers/beast2/ModelBuilder.java:363-413 | A distribution is in the prior exactly when it is "Prior"-keyed, or when it is not the likelihood or posterior, not an observed variable, and not a tree likelihood. No entry is repeated when the "Prior"-keyed objects are distinct |
| ModelSelection.TreeLikelihoodStaysOut | mappers/beast2/src/main/java/org/codephy/mappers/beast2/ModelBuilder.java:399-402 | A tree likelihood enters the prior only under a "Prior" key |
| ModelSelection.SelectValues | mappers/beast2/src/main/java/org/codephy/mappers/beast2/ModelBuilder.java:487-495 | The value loops keep exactly the stored objects the rule accepts |
| ModelSelection.ParameterOperator | mappers/beast2/src/main/java/org/codephy/mappers/beast2/ModelBuilder.java:523-543 | A vector parameter gets a delta-exchange operator and a scalar a scale operator, each named `idOperator`, of weight 1, over that parameter |
| ModelSelection.TreeOperators | mappers/beast2/src/main/java/org/codephy/mappers/beast2/ModelBuilder.java:553-600 | A tree gets exactly seven operators over it, in this order: SubtreeSlide (weight 5), NarrowExchange (5), WideExchange (3), WilsonBalding (3), TreeScaler (3), RootHeightScaler (3) and Uniform (30). Each is named by the tree's id followed by the operator's name, so the names are distinct |
| ModelSelection.SuffixesDiffer | mappers/beast2/src/main/java/org/codephy/mappers/beast2/ModelBuilder.java:553-600 | Distinct suffixes give distinct operator names |
| ModelSelection.CollectOperators | mappers/beast2/src/main/java/org/codephy/mappers/beast2/ModelBuilder.java:506-605 | An operator is collected exactly when it belongs to a sampled parameter (every parameter, except "clockRate" without a clock) or to a tree of the table; every tree operator comes after every parameter operator |
| ModelSelection.PutAll | mappers/beast2/src/main/java/org/codephy/mappers/beast2/ModelBuilder.java:532-600 | Storing the operators adds exactly their names to the table |
| ModelSelection.PutAllKeeps | mappers/beast2/src/main/java/org/codephy/mappers/beast2/ModelBuilder.java:532-600 | An entry whose name no operator has is left alone |
| ModelSelection.PutAllStores | mappers/beast2/src/main/java/org/codephy/mappers/beast2/ModelBuilder.java:532-600 | Each operator's name ends up holding an operator of the list with that name |
| ModelBuilder.SubstitutionModelInput | mappers/beast2/src/main/java/org/codephy/mappers/beast2/ModelBuilder.java:246-268 | With no function of type "HKY", "JC69" or "GTR" the step throws "No substitution model found in model". A success is the substitution model stored under the first such function's name. The only other failure is a ClassCastException |
| ModelBuilder.CreatableFunctionsAreNeverSelected | mappers/beast2/src/main/java/org/codephy/mappers/beast2/ModelBuilder.java:256-262 | When every function has a type `FunctionMapper` creates, no substitution model is found |
| ModelBuilder.SelectedNamesAreNeverCreated | mappers/beast2/src/main/java/org/codephy/mappers/beast2/ModelBuilder.java:256-262 | `FunctionMapper` refuses "HKY", "JC69" and "GTR" |
| ModelBuilder.SiteModelSetUp | mappers/beast2/src/main/java/org/codephy/mappers/beast2/ModelBuilder.java:240-330 | A stored "siteModel" is returned, cast, and nothing is written. Otherwise it fails exactly when the substitution model lookup fails, writing nothing. A success is a site model over that substitution model, stored as "siteModel": four gamma categories with a new "gammaShape" parameter when site rates are requested, one category and no shape otherwise |
| ModelBuilder.SiteModelSetUpIsCached | mappers/beast2/src/main/java/org/codephy/mappers/beast2/ModelBuilder.java:242-244 | A second set-up returns the same model and writes nothing |
| ModelBuilder.ClockModelSetUp | mappers/beast2/src/main/java/org/codephy/mappers/beast2/ModelBuilder.java:335-358 | A cached "clockModel" is returned. Otherwise a strict clock over a new "clockRate" parameter, stored under both names |
| ModelBuilder.ClockModelSetUpIsCached | mappers/beast2/src/main/java/org/codephy/mappers/beast2/ModelBuilder.java:337-339 | A second set-up returns the same clock and writes nothing |
| ModelBuilder.TreeInput | mappers/beast2/src/main/java/org/codephy/mappers/beast2/ModelBuilder.java:166-176 | No `tree` parameter gives no tree; otherwise the referenced object, cast to a tree |
| ModelBuilder.AlignmentAndTree | mappers/beast2/src/main/java/org/codephy/mappers/beast2/ModelBuilder.java:155-187 | A success is an alignment, and a tree together with the name it is stored under |
| ModelBuilder.NoCTMCNoAlignment | mappers/beast2/src/main/java/org/codephy/mappers/beast2/ModelBuilder.java:155-182 | Without a PhyloCTMC variable the lookup throws "No alignment found in model" |
| ModelBuilder.AlignmentAndTreeFound | mappers/beast2/src/main/java/org/codephy/mappers/beast2/ModelBuilder.java:155-187 | On success, the objects are those stored under the PhyloCTMC's name and under its tree reference |
| ModelBuilder.AlignmentAndTreeMessages | mappers/beast2/src/main/java/org/codephy/mappers/beast2/ModelBuilder.java:155-187 | The lookups throw only one of four messages |
| ModelBuilder.MissingTreeThrows | mappers/beast2/src/main/java/org/codephy/mappers/beast2/ModelBuilder.java:166-187 | A PhyloCTMC without a `tree` parameter never yields a tree |
| ModelBuilder.WithTaxa | mappers/beast2/src/main/java/org/codephy/mappers/beast2/ModelBuilder.java:190-195 | The tree gets a taxon set over the alignment's taxa, and nothing else changes |
| ModelBuilder.LikelihoodOver | mappers/beast2/src/main/java/org/codephy/mappers/beast2/ModelBuilder.java:198-234 | A throw writes nothing. A success stores "siteModel" and "treeLikelihood", a likelihood over the alignment, the tree and that site model. It may add "gammaShape" and leaves every other entry as it was |
| ModelBuilder.TreeLikelihoodSetUp | mappers/beast2/src/main/java/org/codephy/mappers/beast2/ModelBuilder.java:149-235 | When the alignment or tree lookup throws, the step throws that exception and writes nothing |
| ModelBuilder.TreeLikelihoodThrowKeeps | mappers/beast2/src/main/java/org/codephy/mappers/beast2/ModelBuilder.java:149-235 | After a throw the table has the same names and every non-tree entry unchanged |
| ModelBuilder.TreeWriteKeeps | mappers/beast2/src/main/java/org/codephy/mappers/beast2/ModelBuilder.java:190-195 | Replacing a tree by a tree keeps the names and every non-tree entry |
| ModelBuilder.TreeLikelihoodAddsEntries | mappers/beast2/src/main/java/org/codephy/mappers/beast2/ModelBuilder.java:149-235 | After success the table gains "siteModel" and "treeLikelihood" (and possibly "gammaShape") and loses nothing |
| ModelBuilder.TreeLikelihoodBuilt | mappers/beast2/src/main/java/org/codephy/mappers/beast2/ModelBuilder.java:149-235 | After success the likelihood is over the alignment, the tree carrying the alignment's taxa, and the stored site model; the likelihood and that tree are in the table |
| ModelBuilder.TreeLikelihoodThrows | mappers/beast2/src/main/java/org/codephy/mappers/beast2/ModelBuilder.java:149-235 | The step throws without a PhyloCTMC variable, without an HKY/JC69/GTR function, and without a `tree` parameter; in the first and last case it writes nothing |
| ModelBuilder.CreatableFunctionsNeverBuild | mappers/beast2/src/main/java/org/codephy/mappers/beast2/ModelBuilder.java:198-219 | A model whose functions `FunctionMapper` can all create never gets a tree likelihood |
| ModelBuilder.JoinPath | mappers/beast2/src/main/java/org/codephy/mappers/beast2/ModelBuilder.java:693 | `Paths.get(dir, name)`: the name alone under the empty directory; otherwise it starts with the directory and ends with a separator and the name |
| ModelBuilder.Relocated | mappers/beast2/src/main/java/org/codephy/mappers/beast2/ModelBuilder.java:689-699 | The file logger gets a file name starting with the directory and ending in `<base>.log`, the tree logger one ending in `<base>.trees`; every other field, and every other logger, is unchanged |
| ModelBuilder.RelocatedTwice | mappers/beast2/src/main/java/org/codephy/mappers/beast2/ModelBuilder.java:688-700 | Only the last relocation counts |
| ModelBuilder.ModelBuilder.constructor | mappers/beast2/src/main/java/org/codephy/mappers/beast2/ModelBuilder.java:56-58 | A builder over the given table, without a clock and without loggers |
| ModelBuilder.ModelBuilder.BuildFullModel | mappers/beast2/src/main/java/org/codephy/mappers/beast2/ModelBuilder.java:63-98 | The clock flag is set from the model. A failed tree likelihood is returned with the table as that step leaves it. A success is the MCMC object with its three loggers, stored as "mcmc", and no entry is lost |
| ModelBuilder.ModelBuilder.Assemble | mappers/beast2/src/main/java/org/codephy/mappers/beast2/ModelBuilder.java:80-97 | The steps that cannot throw: prior, likelihood, posterior, state, operators and MCMC, each stored |
| ModelBuilder.ModelBuilder.BuildTreeLikelihood | mappers/beast2/src/main/java/org/codephy/mappers/beast2/ModelBuilder.java:149-235 | The table changes as `TreeLikelihoodSetUp` says |
| ModelBuilder.ModelBuilder.SetupSiteModel | mappers/beast2/src/main/java/org/codephy/mappers/beast2/ModelBuilder.java:240-330 | The table changes as `SiteModelSetUp` says |
| ModelBuilder.ModelBuilder.SetupClockModel | mappers/beast2/src/main/java/org/codephy/mappers/beast2/ModelBuilder.java:335-358 | The table changes as `ClockModelSetUp` says |
| ModelBuilder.ModelBuilder.SetupPrior | mappers/beast2/src/main/java/org/codephy/mappers/beast2/ModelBuilder.java:363-413 | Stores "prior" over the selected distributions |
| ModelBuilder.ModelBuilder.SetupLikelihood | mappers/beast2/src/main/java/org/codephy/mappers/beast2/ModelBuilder.java:441-454 | Stores "likelihood" over the tree likelihood alone |
| ModelBuilder.ModelBuilder.SetupPosterior | mappers/beast2/src/main/java/org/codephy/mappers/beast2/ModelBuilder.java:459-474 | Stores "posterior" over the prior, then the likelihood |
| ModelBuilder.ModelBuilder.SetupState | mappers/beast2/src/main/java/org/codephy/mappers/beast2/ModelBuilder.java:479-501 | Stores "state" over exactly the parameters and trees of the table, with "clockRate" only when a clock is used |
| ModelBuilder.ModelBuilder.SetupOperators | mappers/beast2/src/main/java/org/codephy/mappers/beast2/ModelBuilder.java:506-605 | Returns the operators of a snapshot of the table, each also stored under its own name |
| ModelBuilder.ModelBuilder.SetupMcmc | mappers/beast2/src/main/java/org/codephy/mappers/beast2/ModelBuilder.java:610-683 | Console, file and tree loggers with their items, then "mcmc" with a chain of 10 000 000 states |
| ModelBuilder.ModelBuilder.UpdateLogFilePaths | mappers/beast2/src/main/java/org/codephy/mappers/beast2/ModelBuilder.java:688-700 | Every logger is replaced by its relocation |
| Validator.SchemaErrors | validator/java/src/main/java/org/codephy/validator/CodephyValidator.java:153-155 | One "Schema validation error: m (Path: p)" per schema message, in order |
| Validator.ValidateSchema | validator/java/src/main/java/org/codephy/validator/CodephyValidator.java:149-158 | The loop computes the schema errors |
| Validator.CommonNames | validator/java/src/main/java/org/codephy/validator/CodephyValidator.java:180-187 | A name is common exactly when it is both a random variable and a function |
| Validator.CollisionReported | validator/java/src/main/java/org/codephy/validator/CodephyValidator.java:180-192 | At most one collision error, present exactly when some variable name is also a function name |
| Validator.FindCommonNames | validator/java/src/main/java/org/codephy/validator/CodephyValidator.java:181-187 | The loop computes the common names |
| Validator.NameCollisions | validator/java/src/main/java/org/codephy/validator/CodephyValidator.java:179-192 | The collision check computes the collision errors |
| Validator.Numbered | validator/java/src/main/java/org/codephy/validator/CodephyValidator.java:299-300 | Constraints are numbered from 1 in array order; a non-array has none |
| Validator.ParameterErrorShape | validator/java/src/main/java/org/codephy/validator/CodephyValidator.java:256-266 | A parameter error comes from a textual parameter naming nothing defined |
| Validator.ArgumentErrorShape | validator/java/src/main/java/org/codephy/validator/CodephyValidator.java:289-291 | An argument error comes from a textual argument naming nothing defined |
| Validator.VariableErrorsUndefined | validator/java/src/main/java/org/codephy/validator/CodephyValidator.java:239-271 | Every variable reference error names an undefined target |
| Validator.FunctionErrorsUndefined | validator/java/src/main/java/org/codephy/validator/CodephyValidator.java:274-294 | Every function reference error names an undefined target |
| Validator.OperandErrorsUndefined | validator/java/src/main/java/org/codephy/validator/CodephyValidator.java:297-310 | Every constraint reference error names an undefined target |
| Validator.ReferenceErrorsAreUndefined | validator/java/src/main/java/org/codephy/validator/CodephyValidator.java:223-313 | Every reference error names a target that is neither a variable nor a function |
| Validator.UndefinedParameterReported | validator/java/src/main/java/org/codephy/validator/CodephyValidator.java:250-267 | Conversely, an undefined textual parameter is reported, unless it is the exempt "substitutionModel" of the hky_complete model |
| Validator.ParameterReported | validator/java/src/main/java/org/codephy/validator/CodephyValidator.java:251-267 | An undefined parameter of one variable produces its error |
| Validator.VariableErrorsReturned | validator/java/src/main/java/org/codephy/validator/CodephyValidator.java:238-271 | Every variable error reaches the check's result |
| Validator.UndefinedArgumentReported | validator/java/src/main/java/org/codephy/validator/CodephyValidator.java:274-294 | An undefined textual function argument is reported |
| Validator.UndefinedOperandReported | validator/java/src/main/java/org/codephy/validator/CodephyValidator.java:297-310 | Conversely, an undefined textual `left` or `right` operand of the k-th constraint is reported as "Constraint #(k+1) references undefined variable" whenever the reference check does not throw |
| Validator.ObjectConstraintsThrow | validator/java/src/main/java/org/codephy/validator/CodephyValidator.java:297-303 | With constraints given as an object, the reference check throws exactly when the object is non-empty |
| Validator.CheckParameters | validator/java/src/main/java/org/codephy/validator/CodephyValidator.java:250-270 | The parameter loop computes its errors |
| Validator.CheckArguments | validator/java/src/main/java/org/codephy/validator/CodephyValidator.java:284-293 | The argument loop computes its errors |
| Validator.CheckOperands | validator/java/src/main/java/org/codephy/validator/CodephyValidator.java:299-309 | The constraint loop computes its errors |
| Validator.CheckVariables | validator/java/src/main/java/org/codephy/validator/CodephyValidator.java:239-271 | The variable loop computes its errors |
| Validator.CheckFunctions | validator/java/src/main/java/org/codephy/validator/CodephyValidator.java:274-294 | The function loop computes its errors |
| Validator.CheckReferences | validator/java/src/main/java/org/codephy/validator/CodephyValidator.java:223-313 | The reference check computes the reference errors, or throws |
| Validator.ComparisonVerdict | validator/java/src/main/java/org/codephy/validator/CodephyValidator.java:436-443 | A comparison constraint has an error exactly when `left` or `right` is missing |
| Validator.BoundedVerdict | validator/java/src/main/java/org/codephy/validator/CodephyValidator.java:444-448 | A bounded constraint has an error exactly when `variable`, `lower` or `upper` is missing |
| Validator.SumToVerdict | validator/java/src/main/java/org/codephy/validator/CodephyValidator.java:449-453 | A sumTo constraint has an error exactly when `variables` or `target` is missing |
| Validator.UnknownTypeVerdict | validator/java/src/main/java/org/codephy/validator/CodephyValidator.java:429-433 | An unknown type gets the invalid-type error |
| Validator.ConstraintVerdict | validator/java/src/main/java/org/codephy/validator/CodephyValidator.java:420-455 | At most one error per constraint, and none exactly when it has a valid type and all of that type's fields; a missing type gets the missing-type error |
| Validator.ConstraintErrorsBounded | validator/java/src/main/java/org/codephy/validator/CodephyValidator.java:415-458 | No more constraint errors than constraints |
| Validator.CheckConstraint | validator/java/src/main/java/org/codephy/validator/CodephyValidator.java:421-454 | The per-constraint body computes its errors |
| Validator.ValidateConstraints | validator/java/src/main/java/org/codephy/validator/CodephyValidator.java:415-458 | The constraint loop computes the constraint errors, or throws |
| Validator.DistributionErrorAtMostOne | validator/java/src/main/java/org/codephy/validator/CodephyValidator.java:496-515 | At most one distribution error per variable |
| Validator.DistributionVerdict | validator/java/src/main/java/org/codephy/validator/CodephyValidator.java:470-516 | A variable gets an error exactly when its `generates` type is one its known distribution does not admit, or when a scalar distribution generates REAL_VECTOR without a dimension; unknown types are never flagged |
| Validator.CheckDistribution | validator/java/src/main/java/org/codephy/validator/CodephyValidator.java:487-516 | The per-variable body computes its errors |
| Validator.ValidateDistributions | validator/java/src/main/java/org/codephy/validator/CodephyValidator.java:466-520 | The variable loop computes the distribution errors |
| Validator.CycleCheckNeverFails | validator/java/src/main/java/org/codephy/validator/CodephyValidator.java:197-202 | With the corrected search (`settle` true), the cycle step never reaches the catch, so its errors are the cycle messages |
| Validator.ConstraintsCheckedAfterReferences | validator/java/src/main/java/org/codephy/validator/CodephyValidator.java:195-206 | If the reference check did not throw, the constraint check does not throw either |
| Validator.ValidateSemantics | validator/java/src/main/java/org/codephy/validator/CodephyValidator.java:166-213 | Computes the semantic errors in the source's order, or the escaping exception. `settle` false is the source's cycle search as written; `settle` true is the corrected one |
| Validator.ValidationVerdict | validator/java/src/main/java/org/codephy/validator/CodephyValidator.java:114-141 | For either cycle search: valid exactly when there are no errors; schema errors come before semantic ones; only the complete-model case drops errors, exactly those mentioning PhyloCTMC or substitutionModel, keeping the order of the rest |
| Validator.MissingFieldsOnly | validator/java/src/main/java/org/codephy/validator/CodephyValidator.java:170-173 | For either cycle search: without the top-level fields the semantic check reports only that, and the model is invalid |
| Validator.ValidationThrows | validator/java/src/main/java/org/codephy/validator/CodephyValidator.java:297-303 | For either cycle search: validation throws exactly when the model has its top-level fields and its constraints are a non-empty object |
| Validator.DropSuppressed | validator/java/src/main/java/org/codephy/validator/CodephyValidator.java:126-138 | The filter loop keeps exactly the errors that do not mention PhyloCTMC or substitutionModel, in order |
| Validator.ValidateModel | validator/java/src/main/java/org/codephy/validator/CodephyValidator.java:114-141 | Computes the validation result or the escaping exception, with the cycle search as written (`settle` false) or corrected (`settle` true) |
| Validator.StaleMarkReported | validator/java/src/main/java/org/codephy/validator/CodephyValidator.java:197-202 | For functions f and g that both take f as an argument, searched from f first, the as-written cycle step contributes only "Error checking for circular dependencies: fromIndex = -1", where the corrected search reports "Circular dependency detected: f -> f" |
| Validator.StaleMarkInSemanticErrors | validator/java/src/main/java/org/codephy/validator/CodephyValidator.java:166-213 | For that model the as-written semantic check does not throw, and lists the exception message among its errors |
| Validator.StaleMarkValidation | validator/java/src/main/java/org/codephy/validator/CodephyValidator.java:114-141 | For that model, whatever the schema messages, the as-written validation says invalid and reports the exception message |
| CycleCheck.AddNodes | validator/java/src/main/java/org/codephy/validator/CodephyValidator.java:329-332 | Every variable name becomes a node with no neighbours; other nodes are kept |
| CycleCheck.AddNeighbour | validator/java/src/main/java/org/codephy/validator/CodephyValidator.java:350 | The neighbours afterwards are exactly the old neighbours and the name |
| CycleCheck.AddArguments | validator/java/src/main/java/org/codephy/validator/CodephyValidator.java:343-353 | Only the function's own edges change; nodes are kept |
| CycleCheck.ArgumentEdges | validator/java/src/main/java/org/codephy/validator/CodephyValidator.java:343-353 | The function gains an edge to exactly the textual arguments that are already nodes |
| CycleCheck.AddFunctionsFrom | validator/java/src/main/java/org/codephy/validator/CodephyValidator.java:335-354 | The graph gains exactly the function names as nodes |
| CycleCheck.AddFunctionsClosed | validator/java/src/main/java/org/codephy/validator/CodephyValidator.java:335-354 | Adding functions keeps every edge inside the graph |
| CycleCheck.BuiltGraphClosed | validator/java/src/main/java/org/codephy/validator/CodephyValidator.java:325-354 | The graph's nodes are exactly the variable and function names, and every edge ends at a node |
| CycleCheck.BuildDependencyGraph | validator/java/src/main/java/org/codephy/validator/CodephyValidator.java:325-354 | The loops build that graph |
| CycleCheck.IndexOf | validator/java/src/main/java/org/codephy/validator/CodephyValidator.java:390 | `indexOf`: the first position of the name, or -1 when it is not on the path |
| CycleCheck.Visit | validator/java/src/main/java/org/codephy/validator/CodephyValidator.java:384-405 | A visit that ends keeps the graph's nodes as the marked set and leaves strictly fewer nodes unvisited, which is why `dfs` terminates |
| CycleCheck.Scan | validator/java/src/main/java/org/codephy/validator/CodephyValidator.java:388-404 | A scan of the neighbours that ends keeps the marked set and never leaves more nodes unvisited |
| CycleCheck.Initial | validator/java/src/main/java/org/codephy/validator/CodephyValidator.java:357-360 | Every node starts at 0 |
| CycleCheck.Settle | validator/java/src/main/java/org/codephy/validator/CodephyValidator.java:402-403 | No node is left in progress, and exactly the same nodes remain unvisited |
| CycleCheck.CycleMessages | validator/java/src/main/java/org/codephy/validator/CodephyValidator.java:366-368 | One "Circular dependency detected: …" per cycle, in order |
| CycleCheck.ScanFacts | validator/java/src/main/java/org/codephy/validator/CodephyValidator.java:388-404 | Along a simple path marked in progress, a cycle the scan finds is a simple cycle of the graph, and a scan that finishes keeps every other node's non-zero mark |
| CycleCheck.ClosingCycle | validator/java/src/main/java/org/codephy/validator/CodephyValidator.java:389-393 | An edge from the end of a simple path back to its k-th node closes a simple cycle |
| CycleCheck.ScanVisitFacts | validator/java/src/main/java/org/codephy/validator/CodephyValidator.java:394-398 | The unvisited-neighbour case of `ScanFacts` |
| CycleCheck.VisitFacts | validator/java/src/main/java/org/codephy/validator/CodephyValidator.java:384-405 | A visit from a node preserves the path invariant and finds only simple cycles |
| CycleCheck.RootsReportSimpleCycles | validator/java/src/main/java/org/codephy/validator/CodephyValidator.java:362-370 | Every reported cycle is a simple cycle of the dependency graph |
| CycleCheck.WalkDescends | validator/java/src/main/java/org/codephy/validator/CodephyValidator.java:349-350 | Along a walk in a graph whose edges only point back in declaration order, ranks never rise |
| CycleCheck.RankedCyclesAreSelfLoops | validator/java/src/main/java/org/codephy/validator/CodephyValidator.java:349-350 | In such a graph the only simple cycles are self-references |
| CycleCheck.StepRanked | validator/java/src/main/java/org/codephy/validator/CodephyValidator.java:341-352 | A function's edges point to nodes present before it, or to itself |
| CycleCheck.AddFunctionsRanked | validator/java/src/main/java/org/codephy/validator/CodephyValidator.java:335-354 | Adding all functions keeps the graph ranked |
| CycleCheck.BuiltGraphRanked | validator/java/src/main/java/org/codephy/validator/CodephyValidator.java:325-354 | Without name collisions or duplicate function names, the built graph is ranked by function position |
| CycleCheck.OnlySelfReferencesReported | validator/java/src/main/java/org/codephy/validator/CodephyValidator.java:322-373 | Without collisions every reported cycle is a function naming itself, `[f, f]` |
| CycleCheck.ScanSafe | validator/java/src/main/java/org/codephy/validator/CodephyValidator.java:388-400 | When in-progress marks are exactly the path, the scan never reaches `indexOf == -1` |
| CycleCheck.VisitSafe | validator/java/src/main/java/org/codephy/validator/CodephyValidator.java:384-405 | The same for a visit |
| CycleCheck.SettledRootsNeverFail | validator/java/src/main/java/org/codephy/validator/CodephyValidator.java:362-370 | Settling the marks after each reported cycle, the root loop never throws |
| CycleCheck.RootsMessages | validator/java/src/main/java/org/codephy/validator/CodephyValidator.java:197-202 | The cycles become their messages; an exception becomes its message |
| CycleCheck.CorrectedCheckNeverThrows | validator/java/src/main/java/org/codephy/validator/CodephyValidator.java:322-373 | The corrected check always returns its list of cycle errors |
| CycleCheck.SelfReferenceMessages | validator/java/src/main/java/org/codephy/validator/CodephyValidator.java:366-368 | The messages of self-reference cycles read "Circular dependency detected: f -> f" |
| CycleCheck.OnlySelfReferenceMessages | validator/java/src/main/java/org/codephy/validator/CodephyValidator.java:322-373 | Without collisions, every cycle error of the check (as written or corrected) is a function naming itself |
| CycleCheck.StaleMarkThrows | validator/java/src/main/java/org/codephy/validator/CodephyValidator.java:389-391 | As written, functions f and g that both take f throw inside the check and report no cycle; corrected, they report "f -> f" |
| CycleCheck.CycleSearch.constructor | validator/java/src/main/java/org/codephy/validator/CodephyValidator.java:357-360 | A search over the graph with every mark 0 and an empty path |
| CycleCheck.CycleSearch.Dfs | validator/java/src/main/java/org/codephy/validator/CodephyValidator.java:384-405 | `dfs` changes the marks and path as `Visit` says, returning the joined cycle, null, or the exception |
| CycleCheck.CycleSearch.SearchRoot | validator/java/src/main/java/org/codephy/validator/CodephyValidator.java:363-369 | One root: a fresh path, the search, and (corrected only) settling after a cycle |
| CycleCheck.CycleSearch.SettleMarks | validator/java/src/main/java/org/codephy/validator/CodephyValidator.java:402-403 | The abandoned path's nodes become completed |
| CycleCheck.RootsStep | validator/java/src/main/java/org/codephy/validator/CodephyValidator.java:362-370 | One iteration of the root loop, seen from the cycles found so far |
| CycleCheck.CheckCircularDependencies | validator/java/src/main/java/org/codephy/validator/CodephyValidator.java:322-373 | Builds the graph and runs the root loop: the result is `CycleCheckResult` |
| CycleCheck.SearchAll | validator/java/src/main/java/org/codephy/validator/CodephyValidator.java:362-370 | The root loop collects one error per cycle found, or the escaping exception |
| CodeBlocks.FindFrom | test_code_blocks.py:17-18 | A position found is at or after the start and holds the fence |
| CodeBlocks.FindFromFirst | test_code_blocks.py:17-18 | The position found is the first occurrence; when none is found there is no occurrence after the start |
| CodeBlocks.SpansInside | test_code_blocks.py:17-18 | Each match lies inside the document after the start, with room for both fences |
| CodeBlocks.SpansAreLeftmostMatches | test_code_blocks.py:17-18 | Each match is the leftmost non-greedy match of ```` ```json(.*?)``` ```` (with DOTALL) at or after the end of the previous one, as `findall` scans |
| CodeBlocks.SpansAreAllMatches | test_code_blocks.py:17-18 | After the last match no further match exists |
| CodeBlocks.StripIsTrim | test_code_blocks.py:27 | `strip()` is a slice of the text with only whitespace cut at either end; a non-empty result starts and ends with a non-whitespace character |
| CodeBlocks.StripIdempotent | test_code_blocks.py:27 | Stripping twice is stripping once |
| CodeBlocks.TestCodeBlocks | test_code_blocks.py:16-50 | No blocks: print "No JSON code blocks found." and exit with status 1. Otherwise each block's report in document order, status 0 |
| CodeBlocks.TempFilesRemoved | test_code_blocks.py:29-50 | Each block's stripped text is written to a temporary file that is then deleted, once per block, in order |
| CodeBlocks.EachBlockValidatedOnce | test_code_blocks.py:34-42 | The validator runs once per block, on its stripped text, in order |
| CodeBlocks.ReportsNumbered | test_code_blocks.py:25-43 | The k-th report heading names code block k+1 |
| CodeBlocks.ErrorsOnlyWithStderr | test_code_blocks.py:43-50 | A report prints the output, then "Errors:" and the error output exactly when the error output is non-empty, and always ends with the deletion |

## Left out

- **JSON Schema validation.** The schema library, file reading and the command-line entry points are not part of this model. The schema library's messages are an input of `Validator.Validation`.
- **BEAST2 itself.** `initByName`, `TreeParser`, the likelihood and MCMC machinery are not modelled. A step that initialises an object stores a value recording its inputs. Whether `TreeParser` accepts a newick string is the parameter `parses` of `TreeMapper.UpdateTreesWithCorrectTaxa`.
- **Object identity and aliasing.** Objects are values. `initByName` on an object another object already holds is not seen through that holder. The prior's `priors.contains(dist)` uses value equality, which matches reference equality only when no two stored objects are equal.
- **Floating point.** Doubles are symbolic terms. Rounding, `Double.toString` and NaN or infinity (for example `1/lambda` with lambda 0) are not modelled.
- **Iteration order.** `HashMap` iteration order is a parameter (a listing of the keys; see "Iteration order" above). The name-collision message joins a `HashSet` of variable names; the model joins them in declaration order, not the JDK's hash order. A neighbour set of the dependency graph is kept in insertion order.
- **Printing.** `System.out.println` diagnostics in the mappers are left out. So are the printed report texts other than the trace events of `CodeBlocks.TestCodeBlocks`.
- **`test_code_blocks.py`.** Reading the Markdown file, the temporary file's name, and failures of `subprocess.run` itself are left out. The validator is a function from the stripped text to its output. Text is a sequence of characters, with no encoding.
- TreeMapper.UpdateTreesWithCorrectTaxa: the pectinate branch is not taken, because `IsTreeUsedByYuleOrBirthDeath` always answers true (proved). The alignment is found once rather than once per tree: the rescan finds the same first alignment, because replacing a tree moves no key. The contract says the trees are rebuilt from *some* alignment of the table rather than naming which one, since the order is a parameter.
- TreeMapper.TreeDistributionsMapper.CreatePhyloTree: `createBirthDeathModel`, `createCoalescentModel` and `createConstrainedYuleModel` have the same body and are modelled once.
- ModelBuilder.ModelBuilder.SetupMcmc: the logger `logEvery`, `mode` and file-name inputs are recorded, but the MCMC's own inputs other than the chain length, state, posterior, operators and loggers are not.
- ModelBuilder.SiteModelSetUp: the proportion of invariant sites ("0.0") and the operator option flags (`isNarrow`, `scaleFactor`, `rootOnly`) are not recorded.
- TreeMapper.ConstrainedYuleConnected: the source reads a monophyly taxon set but never uses it, and ignores calibrations; the model records neither.
- ModelBuilder.JoinPath: `Paths.get` normalisation (repeated or trailing separators, absolute names) is not modelled.
- Validator.MissingFieldsOnly: the "invalid" verdict is stated only outside the complete-model test case. The filter there could drop the message only if it mentioned PhyloCTMC or substitutionModel, and it mentions neither.
- Json.AsInt: an int node holds a 32-bit value, but a long or double node is not narrowed to `int` as Jackson does, and text is read only as an optional sign and digits. Jackson also trims the text, reads "3.7" as 3, and gives the default for out-of-range text.
- FunctionMapper.VectorElementConnected: the `index` is read with `Json.AsInt`, so an index of 4294967296 (element 0 in Java, after narrowing) or the text " 2" (element 2 in Java) is not treated as Java treats it.
- Json.Lookup: a key repeated within one object yields its first value. Jackson keeps the last value, at the first occurrence's position.

## Findings

| source | as written | input that shows it | evidently intended | confidence | as-written member | corrected member |
|---|---|---|---|---|---|---|
| validator/java/src/main/java/org/codephy/validator/CodephyValidator.java:389-393 | After `dfs` reports a cycle it returns at once, so every node on the abandoned path stays marked "in progress" (1). A later root whose search reaches such a node finds it off its own path: `path.indexOf` is -1 and `subList(-1, …)` throws IndexOutOfBoundsException. The catch then replaces all cycle errors with "Error checking for circular dependencies: fromIndex = -1" | deterministic functions `f: {"arguments": {"a": "f"}}` and `g: {"arguments": {"a": "f"}}`, with the root loop visiting f before g | report "Circular dependency detected: f -> f" and carry on; the nodes of an abandoned path become completed | not executed | CycleCheck.StaleMarkThrows | CycleCheck.CorrectedCheckNeverThrows |
