/** The circular-dependency check of CodephyValidator.java: the dependency
    graph built from `randomVariables` and `deterministicFunctions`, and the
    depth-first search over it with the 0 / 1 / 2 (unvisited / in progress /
    completed) marks.

    The graph maps each name to its neighbours, listed once each.  A
    function gets an edge to a textual argument only when that argument is
    already a node when the function is processed: a random variable, an
    earlier function, or the function itself. */
module CycleCheck {
  import opened Json
  import opened Results
  import Text

  type Graph = map<string, seq<string>>

  /** Every neighbour is itself a node. */
  predicate Closed(g: Graph)
  {
    forall u | u in g :: forall v | v in g[u] :: v in g
  }

  // ---------------------------------------------------------------------
  // Building the graph
  // ---------------------------------------------------------------------

  /** `graph.put(name, new HashSet<>())` for each name. */
  function AddNodes(g: Graph, names: seq<string>): (r: Graph)
    ensures r.Keys == g.Keys + set n | n in names
    ensures forall u | u in r :: r[u] == if u in names then [] else g[u]
    decreases |names|
  {
    if |names| == 0 then g else AddNodes(g[names[0] := []], names[1..])
  }

  /** `HashSet.add`: the neighbour list gains `v` unless it holds it already. */
  function AddNeighbour(nbrs: seq<string>, v: string): (r: seq<string>)
    ensures forall w :: w in r <==> w in nbrs || w == v
  {
    if v in nbrs then nbrs else nbrs + [v]
  }

  /** The edges one function's `arguments` contribute: an edge f -> a for each
      textual argument a that is already a node. */
  function AddArguments(g: Graph, f: string, args: seq<(string, Json)>): (r: Graph)
    requires f in g
    ensures r.Keys == g.Keys
    ensures forall u | u in r && u != f :: r[u] == g[u]
  {
    if |args| == 0 then g
    else
      var a := args[0].1;
      var g1 := if a.TextNode? && a.s in g then g[f := AddNeighbour(g[f], a.s)] else g;
      AddArguments(g1, f, args[1..])
  }

  /** The edges out of f after `AddArguments`: the old ones and one to each
      textual argument that names a node. */
  lemma {:induction false} ArgumentEdges(g: Graph, f: string, args: seq<(string, Json)>)
    requires f in g
    ensures forall v :: v in AddArguments(g, f, args)[f] <==>
              v in g[f] || (v in g && exists i :: 0 <= i < |args| && args[i].1 == TextNode(v))
    decreases |args|
  {
    if |args| > 0 {
      var a := args[0].1;
      var g1 := if a.TextNode? && a.s in g then g[f := AddNeighbour(g[f], a.s)] else g;
      ArgumentEdges(g1, f, args[1..]);
      assert forall v :: (exists i :: 0 <= i < |args[1..]| && args[1..][i].1 == TextNode(v)) ==>
                           (exists i :: 0 <= i < |args| && args[i].1 == TextNode(v)) by {
        forall v, i | 0 <= i < |args[1..]| && args[1..][i].1 == TextNode(v)
          ensures exists i :: 0 <= i < |args| && args[i].1 == TextNode(v)
        {
          assert args[i + 1].1 == TextNode(v);
        }
      }
    }
  }

  /** Processing functions j, j+1, ...: each replaces its node by one with no
      neighbours and then adds its argument edges. */
  function AddFunctionsFrom(g: Graph, funcs: seq<(string, Json)>, j: nat): (r: Graph)
    requires j <= |funcs|
    ensures r.Keys == g.Keys + set k | j <= k < |funcs| :: funcs[k].0
    decreases |funcs| - j
  {
    if j == |funcs| then g
    else
      var name := funcs[j].0;
      AddFunctionsFrom(AddArguments(g[name := []], name, Fields(Path(funcs[j].1, "arguments"))), funcs, j + 1)
  }

  /** The graph `checkCircularDependencies` builds. */
  function BuildGraph(randomVars: Json, funcs: Json): Graph
  {
    AddFunctionsFrom(AddNodes(map[], FieldNames(randomVars)), Fields(funcs), 0)
  }

  lemma {:induction false} AddFunctionsClosed(g: Graph, funcs: seq<(string, Json)>, j: nat)
    requires j <= |funcs| && Closed(g)
    ensures Closed(AddFunctionsFrom(g, funcs, j))
    decreases |funcs| - j
  {
    if j < |funcs| {
      var name := funcs[j].0;
      var g1 := g[name := []];
      var g2 := AddArguments(g1, name, Fields(Path(funcs[j].1, "arguments")));
      ArgumentEdges(g1, name, Fields(Path(funcs[j].1, "arguments")));
      assert Closed(g2);
      AddFunctionsClosed(g2, funcs, j + 1);
    }
  }

  /** The built graph's nodes are exactly the variable and function names,
      and every edge ends at one of them. */
  lemma BuiltGraphClosed(randomVars: Json, funcs: Json)
    ensures Closed(BuildGraph(randomVars, funcs))
    ensures forall k :: k in BuildGraph(randomVars, funcs) <==>
              k in FieldNames(randomVars) || k in FieldNames(funcs)
  {
    var g0 := AddNodes(map[], FieldNames(randomVars));
    AddFunctionsClosed(g0, Fields(funcs), 0);
    forall k ensures k in BuildGraph(randomVars, funcs) <==> k in FieldNames(randomVars) || k in FieldNames(funcs) {
      if k in FieldNames(funcs) {
        var i :| 0 <= i < |FieldNames(funcs)| && FieldNames(funcs)[i] == k;
        assert Fields(funcs)[i].0 == k;
      }
      if k in BuildGraph(randomVars, funcs) && k !in FieldNames(randomVars) {
        var i :| 0 <= i < |Fields(funcs)| && Fields(funcs)[i].0 == k;
        assert FieldNames(funcs)[i] == k;
      }
    }
  }

  /** The loops of `checkCircularDependencies` that build the graph. */
  method BuildDependencyGraph(randomVars: Json, funcs: Json) returns (graph: Graph)
    ensures graph == BuildGraph(randomVars, funcs)
  {
    graph := map[];
    var names := FieldNames(randomVars);
    var i := 0;
    while i < |names|
      invariant 0 <= i <= |names|
      invariant AddNodes(graph, names[i..]) == AddNodes(map[], names)
    {
      assert names[i..][1..] == names[i + 1..];
      graph := graph[names[i] := []];
      i := i + 1;
    }
    var fs := Fields(funcs);
    var j := 0;
    while j < |fs|
      invariant 0 <= j <= |fs|
      invariant AddFunctionsFrom(graph, fs, j) == BuildGraph(randomVars, funcs)
    {
      var name := fs[j].0;
      var args := Fields(Path(fs[j].1, "arguments"));
      graph := graph[name := []];
      var start := graph;
      var k := 0;
      while k < |args|
        invariant 0 <= k <= |args|
        invariant name in graph
        invariant AddArguments(graph, name, args[k..]) == AddArguments(start, name, args)
      {
        assert args[k..][1..] == args[k + 1..];
        var a := args[k].1;
        if a.TextNode? && a.s in graph {
          graph := graph[name := AddNeighbour(graph[name], a.s)];
        }
        k := k + 1;
      }
      j := j + 1;
    }
  }

  // ---------------------------------------------------------------------
  // The depth-first search
  // ---------------------------------------------------------------------

  /** The outcome of `dfs`: completed without a cycle, a cycle found (the
      path from the repeated node back to it), or the IndexOutOfBoundsException
      that `path.subList(-1, ...)` throws. */
  datatype Search =
    | Finished(visited: map<string, int>)
    | Found(cycle: seq<string>, visited: map<string, int>)
    | IndexError

  /** Nodes still marked 0. */
  function Unvisited(visited: map<string, int>): set<string>
  {
    set k | k in visited && visited[k] == 0
  }

  /** `List.indexOf`: the first position of x, or -1. */
  function IndexOf(s: seq<string>, x: string): (k: int)
    ensures -1 <= k < |s|
    ensures k == -1 <==> x !in s
    ensures k >= 0 ==> s[k] == x && x !in s[..k]
  {
    if |s| == 0 then -1
    else if s[0] == x then 0
    else
      var k := IndexOf(s[1..], x);
      if k == -1 then -1 else (assert s[..k + 1] == [s[0]] + s[1..][..k]; k + 1)
  }

  /** `dfs(node, path, graph, visited)`: mark the node in progress, append it
      to the path, and scan its neighbours. */
  function Visit(g: Graph, node: string, path: seq<string>, visited: map<string, int>): (r: Search)
    requires Closed(g) && visited.Keys == g.Keys && node in g && visited[node] == 0
    ensures r.Finished? || r.Found? ==> r.visited.Keys == g.Keys && Unvisited(r.visited) < Unvisited(visited)
    decreases Unvisited(visited), 0, 0
  {
    assert node in Unvisited(visited) && node !in Unvisited(visited[node := 1]);
    Scan(g, node, g[node], 0, path + [node], visited[node := 1])
  }

  /** The neighbour loop of `dfs` from position i on: a neighbour in progress
      closes a cycle (or throws when it is not on the path), an unvisited one
      is searched, a completed one is skipped; at the end the node is marked
      completed. */
  function Scan(g: Graph, node: string, nbrs: seq<string>, i: nat, path: seq<string>, visited: map<string, int>): (r: Search)
    requires Closed(g) && visited.Keys == g.Keys && node in g && nbrs == g[node] && i <= |nbrs|
    ensures r.Finished? || r.Found? ==> r.visited.Keys == g.Keys && Unvisited(r.visited) <= Unvisited(visited)
    decreases Unvisited(visited), 1, |nbrs| - i
  {
    if i == |nbrs| then Finished(visited[node := 2])
    else
      var nb := nbrs[i];
      if visited[nb] == 1 then
        var k := IndexOf(path, nb);
        if k < 0 then IndexError else Found(path[k..] + [nb], visited)
      else if visited[nb] == 0 then
        match Visit(g, nb, path, visited)
        case Finished(v) => Scan(g, node, nbrs, i + 1, path, v)
        case other => other
      else Scan(g, node, nbrs, i + 1, path, visited)
  }

  /** The marks are reset to 0 for every node of the graph. */
  function Initial(g: Graph): (v: map<string, int>)
    ensures v.Keys == g.Keys && Unvisited(v) == g.Keys
  {
    map k | k in g :: 0
  }

  /** Every root is a node. */
  predicate RootsIn(g: Graph, roots: seq<string>)
  {
    forall k | 0 <= k < |roots| :: roots[k] in g
  }

  /** Marks every node left "in progress" as completed. */
  function Settle(visited: map<string, int>): (v: map<string, int>)
    ensures v.Keys == visited.Keys && Unvisited(v) == Unvisited(visited)
    ensures forall k | k in v :: v[k] != 1
  {
    map k | k in visited :: if visited[k] == 1 then 2 else visited[k]
  }

  /** The root loop of `checkCircularDependencies` from root i on: the cycles
      found, in order, or the message of the exception that ends the check.
      `settle` selects the corrected loop, which marks the abandoned path of
      a reported cycle as completed before going on. */
  function Roots(g: Graph, roots: seq<string>, i: nat, visited: map<string, int>, settle: bool): (r: Result<seq<seq<string>>>)
    requires Closed(g) && visited.Keys == g.Keys && i <= |roots| && RootsIn(g, roots)
    decreases |roots| - i
  {
    if i == |roots| then Ok([])
    else if visited[roots[i]] != 0 then Roots(g, roots, i + 1, visited, settle)
    else
      match Visit(g, roots[i], [], visited)
      case IndexError => Fail("fromIndex = -1")
      case Finished(v) => Roots(g, roots, i + 1, v, settle)
      case Found(c, v) =>
        var rest := Roots(g, roots, i + 1, if settle then Settle(v) else v, settle);
        if rest.Ok? then Ok([c] + rest.value) else rest
  }

  /** The error text of a reported cycle. */
  function CycleMessage(cycle: seq<string>): string
  {
    "Circular dependency detected: " + Text.Join(" -> ", cycle)
  }

  function CycleMessages(cycles: seq<seq<string>>): (r: seq<string>)
    ensures |r| == |cycles|
    ensures forall k | 0 <= k < |r| :: r[k] == CycleMessage(cycles[k])
  {
    if |cycles| == 0 then [] else [CycleMessage(cycles[0])] + CycleMessages(cycles[1..])
  }

  // ---------------------------------------------------------------------
  // What every reported cycle is
  // ---------------------------------------------------------------------

  /** Consecutive elements are joined by edges of the graph. */
  predicate Walk(g: Graph, p: seq<string>)
  {
    (forall j | 0 <= j < |p| :: p[j] in g) &&
    forall j | 0 <= j < |p| - 1 :: p[j + 1] in g[p[j]]
  }

  predicate Distinct(p: seq<string>)
  {
    forall a, b | 0 <= a < b < |p| :: p[a] != p[b]
  }

  /** A closed walk that repeats only its first node, at its end. */
  predicate SimpleCycle(g: Graph, c: seq<string>)
  {
    |c| >= 2 && Walk(g, c) && c[0] == c[|c| - 1] && Distinct(c[..|c| - 1])
  }

  /** In-progress nodes on the path keep their mark while a search below them
      completes; a found cycle is a simple cycle of the graph. */
  lemma {:induction false} ScanFacts(g: Graph, node: string, nbrs: seq<string>, i: nat, path: seq<string>, visited: map<string, int>)
    requires Closed(g) && visited.Keys == g.Keys && node in g && nbrs == g[node] && i <= |nbrs|
    requires |path| > 0 && path[|path| - 1] == node && Walk(g, path) && Distinct(path)
    requires forall k | 0 <= k < |path| :: visited[path[k]] == 1
    ensures var r := Scan(g, node, nbrs, i, path, visited);
      (r.Found? ==> SimpleCycle(g, r.cycle)) &&
      (r.Finished? ==> forall k | k in visited && k != node && visited[k] != 0 :: r.visited[k] == visited[k])
    decreases Unvisited(visited), 1, |nbrs| - i, 1
  {
    if i < |nbrs| {
      var nb := nbrs[i];
      if visited[nb] == 1 {
        var k := IndexOf(path, nb);
        if k >= 0 {
          ClosingCycle(g, path, nb, k);
        }
      } else if visited[nb] == 0 {
        ScanVisitFacts(g, node, nbrs, i, path, visited);
      } else {
        ScanFacts(g, node, nbrs, i + 1, path, visited);
      }
    }
  }

  /** An edge from the end of a simple path back to its k-th node closes a
      simple cycle. */
  lemma ClosingCycle(g: Graph, path: seq<string>, nb: string, k: nat)
    requires Walk(g, path) && Distinct(path) && k < |path| && path[k] == nb
    requires nb in g[path[|path| - 1]]
    ensures SimpleCycle(g, path[k..] + [nb])
  {
    var c := path[k..] + [nb];
    forall j | 0 <= j < |c| - 1 ensures c[j + 1] in g[c[j]] {
      if j < |c| - 2 {
        assert c[j] == path[k + j] && c[j + 1] == path[k + j + 1];
      }
    }
    assert c[..|c| - 1] == path[k..];
  }

  /** The case of `ScanFacts` where the i-th neighbour is unvisited: the
      search below it, then the rest of the scan. */
  lemma {:induction false} ScanVisitFacts(g: Graph, node: string, nbrs: seq<string>, i: nat, path: seq<string>, visited: map<string, int>)
    requires Closed(g) && visited.Keys == g.Keys && node in g && nbrs == g[node] && i < |nbrs|
    requires |path| > 0 && path[|path| - 1] == node && Walk(g, path) && Distinct(path)
    requires forall k | 0 <= k < |path| :: visited[path[k]] == 1
    requires visited[nbrs[i]] == 0
    ensures var r := Scan(g, node, nbrs, i, path, visited);
      (r.Found? ==> SimpleCycle(g, r.cycle)) &&
      (r.Finished? ==> forall k | k in visited && k != node && visited[k] != 0 :: r.visited[k] == visited[k])
    decreases Unvisited(visited), 1, |nbrs| - i, 0
  {
    var nb := nbrs[i];
    assert nb !in path;
    assert Walk(g, path + [nb]);
    VisitFacts(g, nb, path, visited);
    var s := Visit(g, nb, path, visited);
    if s.Finished? {
      assert Scan(g, node, nbrs, i, path, visited) == Scan(g, node, nbrs, i + 1, path, s.visited);
      ScanFacts(g, node, nbrs, i + 1, path, s.visited);
    } else {
      assert Scan(g, node, nbrs, i, path, visited) == s;
    }
  }

  lemma {:induction false} VisitFacts(g: Graph, node: string, path: seq<string>, visited: map<string, int>)
    requires Closed(g) && visited.Keys == g.Keys && node in g && visited[node] == 0
    requires Walk(g, path + [node]) && Distinct(path)
    requires forall k | 0 <= k < |path| :: path[k] in visited && visited[path[k]] == 1
    ensures var r := Visit(g, node, path, visited);
      (r.Found? ==> SimpleCycle(g, r.cycle)) &&
      (r.Finished? ==> forall k | k in visited && visited[k] != 0 :: r.visited[k] == visited[k])
    decreases Unvisited(visited), 0, 0, 0
  {
    assert node in Unvisited(visited) && node !in Unvisited(visited[node := 1]);
    var p := path + [node];
    assert node !in path;
    ScanFacts(g, node, g[node], 0, p, visited[node := 1]);
  }

  /** Every cycle the root loop reports is a simple cycle of the graph. */
  lemma {:induction false} RootsReportSimpleCycles(g: Graph, roots: seq<string>, i: nat, visited: map<string, int>, settle: bool)
    requires Closed(g) && visited.Keys == g.Keys && i <= |roots| && RootsIn(g, roots)
    ensures var r := Roots(g, roots, i, visited, settle);
      r.Ok? ==> forall c | c in r.value :: SimpleCycle(g, c)
    decreases |roots| - i
  {
    if i < |roots| {
      if visited[roots[i]] != 0 {
        RootsReportSimpleCycles(g, roots, i + 1, visited, settle);
      } else {
        var root := roots[i];
        assert Walk(g, [] + [root]);
        VisitFacts(g, root, [], visited);
        match Visit(g, root, [], visited)
        case IndexError =>
        case Finished(v) => RootsReportSimpleCycles(g, roots, i + 1, v, settle);
        case Found(c, v) => RootsReportSimpleCycles(g, roots, i + 1, if settle then Settle(v) else v, settle);
      }
    }
  }

  // ---------------------------------------------------------------------
  // Only self-references without name collisions
  // ---------------------------------------------------------------------

  /** 0 for a name that is not a function, k + 1 for the k-th function. */
  function Rank(fnames: seq<string>, x: string): nat
  {
    if x in fnames then IndexOf(fnames, x) + 1 else 0
  }

  /** Every edge is a self-edge or goes to a strictly lower rank. */
  predicate Ranked(g: Graph, fnames: seq<string>)
  {
    forall u | u in g :: forall v | v in g[u] :: v == u || Rank(fnames, v) < Rank(fnames, u)
  }

  /** Along a walk in a ranked graph ranks never rise, and a later node of
      the same rank as an earlier one is that node. */
  lemma {:induction false} WalkDescends(g: Graph, fnames: seq<string>, c: seq<string>, a: nat, b: nat)
    requires Ranked(g, fnames) && Walk(g, c) && a <= b < |c|
    ensures Rank(fnames, c[b]) <= Rank(fnames, c[a])
    ensures Rank(fnames, c[b]) == Rank(fnames, c[a]) ==> c[b] == c[a]
    decreases b - a
  {
    if a < b {
      WalkDescends(g, fnames, c, a, b - 1);
      assert c[b] in g[c[b - 1]];
    }
  }

  /** In a ranked graph the only simple cycles are self-references [v, v]. */
  lemma RankedCyclesAreSelfLoops(g: Graph, fnames: seq<string>, c: seq<string>)
    requires Ranked(g, fnames) && SimpleCycle(g, c)
    ensures c == [c[0], c[0]]
    ensures c[0] in g[c[0]]
  {
    var last := |c| - 1;
    forall j | 0 <= j <= last ensures c[j] == c[0] {
      WalkDescends(g, fnames, c, 0, j);
      WalkDescends(g, fnames, c, j, last);
    }
    FirstTwoDiffer(c[..last]);
  }

  lemma FirstTwoDiffer(p: seq<string>)
    requires Distinct(p)
    ensures |p| <= 1 || p[1] != p[0]
  {
  }

  /** Rank of the k-th of distinct names. */
  lemma RankOfIndex(fnames: seq<string>, k: nat)
    requires k < |fnames| && Distinct(fnames)
    ensures Rank(fnames, fnames[k]) == k + 1
  {
    var m := IndexOf(fnames, fnames[k]);
    assert fnames[m] == fnames[k];
  }

  /** The graph after processing the first j functions is ranked: its nodes
      are random variables and functions 0..j-1, and a function only points
      to random variables, earlier functions and itself. */
  predicate PartlyBuilt(g: Graph, rvNames: seq<string>, funcs: seq<(string, Json)>, fnames: seq<string>, j: nat)
    requires j <= |funcs| == |fnames|
  {
    (forall u | u in g :: u in rvNames || u in fnames[..j]) &&
    (forall u | u in g && u !in fnames[..j] :: g[u] == []) &&
    Ranked(g, fnames)
  }

  /** Processing function j keeps the graph ranked: its new edges go to
      nodes present before it, which rank below it, or to itself. */
  lemma StepRanked(g: Graph, rvNames: seq<string>, funcs: seq<(string, Json)>, fnames: seq<string>, j: nat)
    requires j < |funcs| == |fnames|
    requires forall k | 0 <= k < |funcs| :: fnames[k] == funcs[k].0
    requires Distinct(fnames) && forall n | n in rvNames :: n !in fnames
    requires PartlyBuilt(g, rvNames, funcs, fnames, j)
    ensures var name := funcs[j].0;
      PartlyBuilt(AddArguments(g[name := []], name, Fields(Path(funcs[j].1, "arguments"))), rvNames, funcs, fnames, j + 1)
  {
    var name := funcs[j].0;
    var g1 := g[name := []];
    var g2 := AddArguments(g1, name, Fields(Path(funcs[j].1, "arguments")));
    ArgumentEdges(g1, name, Fields(Path(funcs[j].1, "arguments")));
    RankOfIndex(fnames, j);
    assert fnames[..j + 1] == fnames[..j] + [name];
    forall u, v | u in g2 && v in g2[u] ensures v == u || Rank(fnames, v) < Rank(fnames, u) {
      if u == name && v != u {
        assert v in g1;
        if v in rvNames {
          assert v !in fnames;
        } else {
          var m :| 0 <= m < j && fnames[..j][m] == v;
          RankOfIndex(fnames, m);
        }
      }
    }
  }

  lemma {:induction false} AddFunctionsRanked(g: Graph, rvNames: seq<string>, funcs: seq<(string, Json)>, fnames: seq<string>, j: nat)
    requires j <= |funcs| == |fnames|
    requires forall k | 0 <= k < |funcs| :: fnames[k] == funcs[k].0
    requires Distinct(fnames) && forall n | n in rvNames :: n !in fnames
    requires PartlyBuilt(g, rvNames, funcs, fnames, j)
    ensures PartlyBuilt(AddFunctionsFrom(g, funcs, j), rvNames, funcs, fnames, |funcs|)
    decreases |funcs| - j
  {
    if j < |funcs| {
      var name := funcs[j].0;
      StepRanked(g, rvNames, funcs, fnames, j);
      AddFunctionsRanked(AddArguments(g[name := []], name, Fields(Path(funcs[j].1, "arguments"))), rvNames, funcs, fnames, j + 1);
    }
  }

  /** With distinct function names and no name shared by a random variable
      and a function, the built graph is ranked by function position. */
  lemma BuiltGraphRanked(randomVars: Json, funcs: Json)
    requires Distinct(FieldNames(funcs))
    requires forall n | n in FieldNames(randomVars) :: n !in FieldNames(funcs)
    ensures Ranked(BuildGraph(randomVars, funcs), FieldNames(funcs))
    ensures forall u | u in BuildGraph(randomVars, funcs) && u !in FieldNames(funcs) ::
              BuildGraph(randomVars, funcs)[u] == []
  {
    var rv, fs, fn := FieldNames(randomVars), Fields(funcs), FieldNames(funcs);
    var g0 := AddNodes(map[], rv);
    assert fn[..0] == [];
    assert PartlyBuilt(g0, rv, fs, fn, 0);
    AddFunctionsRanked(g0, rv, fs, fn, 0);
    assert fn[..|fs|] == fn;
  }

  /** Without name collisions every reported cycle is a function naming
      itself: the text is "Circular dependency detected: f -> f". */
  lemma OnlySelfReferencesReported(randomVars: Json, funcs: Json, roots: seq<string>, settle: bool)
    requires Distinct(FieldNames(funcs))
    requires forall n | n in FieldNames(randomVars) :: n !in FieldNames(funcs)
    requires forall k | 0 <= k < |roots| :: roots[k] in BuildGraph(randomVars, funcs)
    ensures Closed(BuildGraph(randomVars, funcs))
    ensures var g := BuildGraph(randomVars, funcs);
      var r := Roots(g, roots, 0, Initial(g), settle);
      r.Ok? ==> forall c | c in r.value :: SelfReference(g, FieldNames(funcs), c)
  {
    var g := BuildGraph(randomVars, funcs);
    BuiltGraphClosed(randomVars, funcs);
    BuiltGraphRanked(randomVars, funcs);
    RootsReportSimpleCycles(g, roots, 0, Initial(g), settle);
    var r := Roots(g, roots, 0, Initial(g), settle);
    if r.Ok? {
      forall c | c in r.value ensures SelfReference(g, FieldNames(funcs), c) {
        RankedCyclesAreSelfLoops(g, FieldNames(funcs), c);
      }
    }
  }

  /** The cycle [f, f] of a function f whose arguments name f itself. */
  predicate SelfReference(g: Graph, fnames: seq<string>, c: seq<string>)
  {
    |c| == 2 && c[0] == c[1] && c[0] in g && c[0] in g[c[0]] && c[0] in fnames
  }

  // ---------------------------------------------------------------------
  // The corrected root loop never throws
  // ---------------------------------------------------------------------

  /** The nodes marked "in progress" are exactly those on the path. */
  predicate Tracks(visited: map<string, int>, path: seq<string>)
  {
    forall k | k in visited :: visited[k] == 1 <==> k in path
  }

  lemma {:induction false} ScanSafe(g: Graph, node: string, nbrs: seq<string>, i: nat, path: seq<string>, visited: map<string, int>)
    requires Closed(g) && visited.Keys == g.Keys && node in g && nbrs == g[node] && i <= |nbrs|
    requires |path| > 0 && path[|path| - 1] == node && Distinct(path) && Tracks(visited, path)
    ensures var r := Scan(g, node, nbrs, i, path, visited);
      !r.IndexError? && (r.Finished? ==> Tracks(r.visited, path[..|path| - 1]))
    decreases Unvisited(visited), 1, |nbrs| - i
  {
    if i == |nbrs| {
      var v := visited[node := 2];
      forall k | k in v ensures v[k] == 1 <==> k in path[..|path| - 1] {
        if k == node {
          assert node !in path[..|path| - 1];
        } else {
          assert path == path[..|path| - 1] + [node];
        }
      }
    } else {
      var nb := nbrs[i];
      if visited[nb] == 0 {
        VisitSafe(g, nb, path, visited);
        var s := Visit(g, nb, path, visited);
        if s.Finished? {
          ScanSafe(g, node, nbrs, i + 1, path, s.visited);
        }
      } else if visited[nb] != 1 {
        ScanSafe(g, node, nbrs, i + 1, path, visited);
      }
    }
  }

  lemma {:induction false} VisitSafe(g: Graph, node: string, path: seq<string>, visited: map<string, int>)
    requires Closed(g) && visited.Keys == g.Keys && node in g && visited[node] == 0
    requires Distinct(path) && Tracks(visited, path)
    ensures var r := Visit(g, node, path, visited);
      !r.IndexError? && (r.Finished? ==> Tracks(r.visited, path))
    decreases Unvisited(visited), 0, 0
  {
    assert node in Unvisited(visited) && node !in Unvisited(visited[node := 1]);
    var p := path + [node];
    assert p[..|p| - 1] == path;
    ScanSafe(g, node, g[node], 0, p, visited[node := 1]);
  }

  /** Settling the marks after every reported cycle, the root loop never
      reaches a stale "in progress" node and so never throws. */
  lemma {:induction false} SettledRootsNeverFail(g: Graph, roots: seq<string>, i: nat, visited: map<string, int>)
    requires Closed(g) && visited.Keys == g.Keys && i <= |roots| && RootsIn(g, roots)
    requires forall k | k in visited :: visited[k] != 1
    ensures Roots(g, roots, i, visited, true).Ok?
    decreases |roots| - i
  {
    if i < |roots| {
      if visited[roots[i]] != 0 {
        SettledRootsNeverFail(g, roots, i + 1, visited);
      } else {
        VisitSafe(g, roots[i], [], visited);
        match Visit(g, roots[i], [], visited)
        case Finished(v) => SettledRootsNeverFail(g, roots, i + 1, v);
        case Found(c, v) => SettledRootsNeverFail(g, roots, i + 1, Settle(v));
      }
    }
  }

  // ---------------------------------------------------------------------
  // The check as a whole
  // ---------------------------------------------------------------------

  /** `order` is the iteration order of the graph's key set: it lists
      exactly the random-variable and function names. */
  predicate ListsNames(order: seq<string>, randomVars: Json, funcs: Json)
  {
    (forall k | k in order :: k in FieldNames(randomVars) || k in FieldNames(funcs)) &&
    (forall k | k in FieldNames(randomVars) :: k in order) &&
    (forall k | k in FieldNames(funcs) :: k in order)
  }

  /** The cycle errors, or the message of the exception that ends the check. */
  function RootsMessages(res: Result<seq<seq<string>>>): (r: Result<seq<string>>)
    ensures r.Fail? <==> res.Fail?
    ensures r.Ok? ==> r.value == CycleMessages(res.value)
  {
    if res.Ok? then Ok(CycleMessages(res.value)) else Fail(res.message)
  }

  /** What `checkCircularDependencies` returns or throws; `settle` selects
      the corrected root loop. */
  function CycleCheckResult(randomVars: Json, funcs: Json, order: seq<string>, settle: bool): Result<seq<string>>
    requires ListsNames(order, randomVars, funcs)
  {
    BuiltGraphClosed(randomVars, funcs);
    var g := BuildGraph(randomVars, funcs);
    RootsMessages(Roots(g, order, 0, Initial(g), settle))
  }

  /** The corrected check always returns its list of cycle errors. */
  lemma CorrectedCheckNeverThrows(randomVars: Json, funcs: Json, order: seq<string>)
    requires ListsNames(order, randomVars, funcs)
    ensures CycleCheckResult(randomVars, funcs, order, true).Ok?
  {
    BuiltGraphClosed(randomVars, funcs);
    var g := BuildGraph(randomVars, funcs);
    SettledRootsNeverFail(g, order, 0, Initial(g));
  }

  lemma JoinPair(f: string)
    ensures Text.Join(" -> ", [f, f]) == f + " -> " + f
  {
    assert [f, f][1..] == [f];
  }

  /** The error text of the self-reference [f, f]. */
  predicate SelfReferenceError(e: string, fnames: seq<string>)
  {
    exists f | f in fnames :: e == "Circular dependency detected: " + f + " -> " + f
  }

  lemma {:induction false} SelfReferenceMessages(g: Graph, fnames: seq<string>, cycles: seq<seq<string>>)
    requires forall c | c in cycles :: SelfReference(g, fnames, c)
    ensures forall e | e in CycleMessages(cycles) :: SelfReferenceError(e, fnames)
  {
    if |cycles| > 0 {
      var c := cycles[0];
      assert SelfReference(g, fnames, c);
      assert c == [c[0], c[0]];
      JoinPair(c[0]);
      assert SelfReferenceError(CycleMessage(c), fnames);
      SelfReferenceMessages(g, fnames, cycles[1..]);
      assert CycleMessages(cycles) == [CycleMessage(c)] + CycleMessages(cycles[1..]);
    }
  }

  lemma {:induction false} CycleMessagesSnoc(found: seq<seq<string>>, c: seq<string>)
    ensures CycleMessages(found + [c]) == CycleMessages(found) + [CycleMessage(c)]
  {
    if |found| > 0 {
      assert (found + [c])[1..] == found[1..] + [c];
      CycleMessagesSnoc(found[1..], c);
    } else {
      assert found + [c] == [c];
    }
  }

  lemma SelfCycleMessage(f: string)
    ensures CycleMessages([[f, f]]) == ["Circular dependency detected: " + f + " -> " + f]
  {
    JoinPair(f);
    var p := "Circular dependency detected: ";
    assert p + (f + " -> " + f) == p + f + " -> " + f;
  }

  /** Without name collisions, every error of the check (as written or
      corrected) reads "Circular dependency detected: f -> f" for a function f
      that names itself among its arguments. */
  lemma OnlySelfReferenceMessages(randomVars: Json, funcs: Json, order: seq<string>, settle: bool)
    requires ListsNames(order, randomVars, funcs)
    requires Distinct(FieldNames(funcs))
    requires forall n | n in FieldNames(randomVars) :: n !in FieldNames(funcs)
    ensures var r := CycleCheckResult(randomVars, funcs, order, settle);
      r.Ok? ==> forall e | e in r.value :: SelfReferenceError(e, FieldNames(funcs))
  {
    BuiltGraphClosed(randomVars, funcs);
    var g := BuildGraph(randomVars, funcs);
    OnlySelfReferencesReported(randomVars, funcs, order, settle);
    var res := Roots(g, order, 0, Initial(g), settle);
    if res.Ok? {
      SelfReferenceMessages(g, FieldNames(funcs), res.value);
    }
  }

  // ---------------------------------------------------------------------
  // A root order under which the check as written throws
  // ---------------------------------------------------------------------

  /** f and g each take f as their argument; f comes first in the order. */
  const SelfRef: Json := Object([("f", TextNode("f"))])
  const TwoFunctions: Json := Object([("f", Object([("arguments", SelfRef)])), ("g", Object([("arguments", SelfRef)]))])

  lemma TwoFunctionsGraph()
    ensures BuildGraph(Object([]), TwoFunctions) == map["f" := ["f"], "g" := ["f"]]
  {
    var fs := Fields(TwoFunctions);
    var g0: Graph := map[];
    assert AddNodes(map[], FieldNames(Object([]))) == g0;
    var a := Fields(Path(fs[0].1, "arguments"));
    assert a == [("f", TextNode("f"))] && a == Fields(Path(fs[1].1, "arguments"));
    assert a[1..] == [];
    var g1: Graph := map["f" := ["f"]];
    assert AddNeighbour([], "f") == ["f"];
    assert g0["f" := []]["f" := ["f"]] == g1;
    assert AddArguments(g0["f" := []], "f", a) == AddArguments(g1, "f", a[1..]) == g1;
    var g2: Graph := map["f" := ["f"], "g" := ["f"]];
    assert g1["g" := []]["g" := ["f"]] == g2;
    assert AddArguments(g1["g" := []], "g", a) == AddArguments(g2, "g", a[1..]) == g2;
    assert AddFunctionsFrom(g0, fs, 0) == AddFunctionsFrom(g1, fs, 1) == AddFunctionsFrom(g2, fs, 2) == g2;
  }

  /** The search from f finds the cycle f -> f and leaves f "in progress". */
  lemma SearchFromF(g: Graph)
    requires g == map["f" := ["f"], "g" := ["f"]]
    ensures Closed(g) && Initial(g) == map["f" := 0, "g" := 0]
    ensures Visit(g, "f", [], Initial(g)) == Found(["f", "f"], map["f" := 1, "g" := 0])
  {
    var v1 := map["f" := 1, "g" := 0];
    assert Initial(g)["f" := 1] == v1;
    assert IndexOf(["f"], "f") == 0;
    assert Scan(g, "f", ["f"], 0, ["f"], v1) == Found(["f", "f"], v1);
  }

  /** As written, the search from g then meets the stale mark of f. */
  lemma SearchFromGThrows(g: Graph)
    requires g == map["f" := ["f"], "g" := ["f"]]
    ensures Closed(g)
    ensures Visit(g, "g", [], map["f" := 1, "g" := 0]) == IndexError
  {
    var v := map["f" := 1, "g" := 1];
    assert map["f" := 1, "g" := 0]["g" := 1] == v;
    assert IndexOf(["g"], "f") == -1;
    assert Scan(g, "g", ["f"], 0, ["g"], v) == IndexError;
  }

  /** Corrected, f is completed and the search from g finds nothing. */
  lemma SearchFromGSettled(g: Graph)
    requires g == map["f" := ["f"], "g" := ["f"]]
    ensures Closed(g)
    ensures Settle(map["f" := 1, "g" := 0]) == map["f" := 2, "g" := 0]
    ensures Visit(g, "g", [], map["f" := 2, "g" := 0]) == Finished(map["f" := 2, "g" := 2])
  {
    var v := map["f" := 2, "g" := 1];
    assert map["f" := 2, "g" := 0]["g" := 1] == v;
    assert Scan(g, "g", ["f"], 1, ["g"], v) == Finished(map["f" := 2, "g" := 2]);
    assert Scan(g, "g", ["f"], 0, ["g"], v) == Finished(map["f" := 2, "g" := 2]);
  }

  /** The two root loops on the graph of `TwoFunctions`. */
  lemma TwoFunctionsRoots(g: Graph)
    requires g == map["f" := ["f"], "g" := ["f"]]
    ensures Closed(g)
    ensures Roots(g, ["f", "g"], 0, Initial(g), false) == Fail("fromIndex = -1")
    ensures Roots(g, ["f", "g"], 0, Initial(g), true) == Ok([["f", "f"]])
  {
    SearchFromF(g);
    SearchFromGThrows(g);
    SearchFromGSettled(g);
    var v1 := map["f" := 1, "g" := 0];
    assert Roots(g, ["f", "g"], 1, v1, false) == Fail("fromIndex = -1");
    assert Roots(g, ["f", "g"], 1, Settle(v1), true) == Ok([]);
    assert [["f", "f"]] + [] == [["f", "f"]];
  }

  /** As written: the cycle f -> f leaves f marked "in progress"; the search
      from g reaches f, which is not on g's path, and `subList(-1, 1)` throws,
      so the one real cycle goes unreported.  Corrected, it is reported. */
  lemma StaleMarkThrows()
    ensures ListsNames(["f", "g"], Object([]), TwoFunctions)
    ensures CycleCheckResult(Object([]), TwoFunctions, ["f", "g"], false) == Fail("fromIndex = -1")
    ensures CycleCheckResult(Object([]), TwoFunctions, ["f", "g"], true) == Ok(["Circular dependency detected: " + "f" + " -> " + "f"])
  {
    TwoFunctionsGraph();
    assert FieldNames(TwoFunctions) == ["f", "g"];
    TwoFunctionsRoots(BuildGraph(Object([]), TwoFunctions));
    SelfCycleMessage("f");
  }

  // ---------------------------------------------------------------------
  // The search as the source performs it, on mutable state
  // ---------------------------------------------------------------------

  /** The state `dfs` mutates: the marks and the current path. */
  class CycleSearch {
    const graph: Graph
    var visited: map<string, int>
    var path: seq<string>

    constructor (g: Graph)
      ensures graph == g && visited == Initial(g) && path == []
    {
      graph := g;
      visited := Initial(g);
      path := [];
    }

    /** `dfs`: null (`None`) when the search below `node` completes, the
        joined cycle when one is found, `Fail` when `subList` throws. */
    method Dfs(node: string) returns (r: Result<Option<string>>)
      requires Closed(graph) && visited.Keys == graph.Keys && node in graph && visited[node] == 0
      modifies this
      ensures match Visit(graph, node, old(path), old(visited))
        case Finished(v) => r == Ok(None) && visited == v && path == old(path)
        case Found(c, v) => r == Ok(Some(Text.Join(" -> ", c))) && visited == v
        case IndexError => r == Fail("fromIndex = -1")
      decreases Unvisited(visited), 0
    {
      ghost var spec := Visit(graph, node, path, visited);
      assert node in Unvisited(visited) && node !in Unvisited(visited[node := 1]);
      visited := visited[node := 1];
      path := path + [node];
      var nbrs := graph[node];
      var i := 0;
      while i < |nbrs|
        invariant i <= |nbrs|
        invariant visited.Keys == graph.Keys && path == old(path) + [node]
        invariant Unvisited(visited) < Unvisited(old(visited))
        invariant Scan(graph, node, nbrs, i, path, visited) == spec
        decreases |nbrs| - i
      {
        var nb := nbrs[i];
        if visited[nb] == 1 {
          var k := IndexOf(path, nb);
          if k < 0 {
            return Fail("fromIndex = -1");
          }
          return Ok(Some(Text.Join(" -> ", path[k..] + [nb])));
        } else if visited[nb] == 0 {
          var c := Dfs(nb);
          if c != Ok(None) {
            return c;
          }
        }
        i := i + 1;
      }
      visited := visited[node := 2];
      path := path[..|path| - 1];
      r := Ok(None);
    }

    /** One iteration of the root loop for an unvisited root: a fresh path,
        the search, and (corrected loop only) settling the marks after a
        cycle. */
    method SearchRoot(node: string, settle: bool) returns (r: Result<Option<string>>)
      requires Closed(graph) && visited.Keys == graph.Keys && node in graph && visited[node] == 0
      modifies this
      ensures match Visit(graph, node, [], old(visited))
        case Finished(v) => r == Ok(None) && visited == v
        case Found(c, v) => r == Ok(Some(Text.Join(" -> ", c))) && visited == if settle then Settle(v) else v
        case IndexError => r == Fail("fromIndex = -1")
    {
      path := [];
      r := Dfs(node);
      if settle && r.Ok? && r.value.Some? {
        SettleMarks();
      }
    }

    /** The correction: the nodes of an abandoned path become completed. */
    method SettleMarks()
      modifies this
      ensures visited == Settle(old(visited)) && path == old(path)
    {
      visited := Settle(visited);
    }
  }

  /** Prepends the cycles already found to the outcome of the rest. */
  function Prepend(found: seq<seq<string>>, rest: Result<seq<seq<string>>>): Result<seq<seq<string>>>
  {
    if rest.Ok? then Ok(found + rest.value) else rest
  }

  /** One iteration of the root loop, seen from the cycles found so far. */
  lemma RootsStep(g: Graph, roots: seq<string>, i: nat, visited: map<string, int>, settle: bool, found: seq<seq<string>>)
    requires Closed(g) && visited.Keys == g.Keys && i < |roots| && RootsIn(g, roots)
    ensures var now := Prepend(found, Roots(g, roots, i, visited, settle));
      if visited[roots[i]] != 0 then now == Prepend(found, Roots(g, roots, i + 1, visited, settle))
      else match Visit(g, roots[i], [], visited)
        case IndexError => now == Fail("fromIndex = -1")
        case Finished(v) => now == Prepend(found, Roots(g, roots, i + 1, v, settle))
        case Found(c, v) => now == Prepend(found + [c], Roots(g, roots, i + 1, if settle then Settle(v) else v, settle))
  {
    if visited[roots[i]] == 0 {
      match Visit(g, roots[i], [], visited)
      case IndexError =>
      case Finished(v) =>
      case Found(c, v) =>
        var rest := Roots(g, roots, i + 1, if settle then Settle(v) else v, settle);
        if rest.Ok? {
          assert found + ([c] + rest.value) == found + [c] + rest.value;
        }
    }
  }

  /** `checkCircularDependencies`: build the graph, then run the root loop. */
  method CheckCircularDependencies(randomVars: Json, funcs: Json, order: seq<string>, settle: bool)
    returns (r: Result<seq<string>>)
    requires ListsNames(order, randomVars, funcs)
    ensures r == CycleCheckResult(randomVars, funcs, order, settle)
  {
    var graph := BuildDependencyGraph(randomVars, funcs);
    BuiltGraphClosed(randomVars, funcs);
    r := SearchAll(graph, order, settle);
  }

  /** The root loop: search from every unvisited name in `order` with a fresh
      path and collect one error per cycle found; `Fail` is the exception
      that escapes it. */
  method SearchAll(graph: Graph, order: seq<string>, settle: bool) returns (r: Result<seq<string>>)
    requires Closed(graph) && RootsIn(graph, order)
    ensures r == RootsMessages(Roots(graph, order, 0, Initial(graph), settle))
  {
    ghost var total := Roots(graph, order, 0, Initial(graph), settle);
    var search := new CycleSearch(graph);
    var errors: seq<string> := [];
    ghost var found: seq<seq<string>> := [];
    assert total.Ok? ==> [] + total.value == total.value;
    var i := 0;
    ghost var rest := total;
    while i < |order|
      invariant i <= |order|
      invariant search.graph == graph && search.visited.Keys == graph.Keys
      invariant errors == CycleMessages(found)
      invariant rest == Roots(graph, order, i, search.visited, settle)
      invariant total == Prepend(found, rest)
    {
      var node := order[i];
      RootsStep(graph, order, i, search.visited, settle, found);
      if search.visited[node] == 0 {
        ghost var s := Visit(graph, node, [], search.visited);
        var c := search.SearchRoot(node, settle);
        if c.Fail? {
          assert s.IndexError?;
          return Fail(c.message);
        }
        if c.value.Some? {
          assert s.Found?;
          errors := errors + ["Circular dependency detected: " + c.value.value];
          CycleMessagesSnoc(found, s.cycle);
          found := found + [s.cycle];
        }
      }
      rest := Roots(graph, order, i + 1, search.visited, settle);
      i := i + 1;
      assert search.visited.Keys == graph.Keys;
      assert rest == Roots(graph, order, i, search.visited, settle);
    }
    assert rest == Ok([]) && found + [] == found;
    return Ok(errors);
  }
}
