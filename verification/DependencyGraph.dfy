/**
 Sibling dependency graphs (typescript/src/agent-tree.ts, validateDependencyGraph).
 Node i of a graph is `names[i]`, with the outgoing edges `edges[i]`.
 */
module DependencyGraph {
  import opened Prelude

  function IndexOf(names: seq<string>, name: string): (i: nat)
    ensures i <= |names|
    ensures i < |names| ==> names[i] == name
    ensures name in names <==> i < |names|
  {
    if names == [] then 0 else if names[0] == name then 0 else 1 + IndexOf(names[1..], name)
  }

  /** A numbering of the nodes under which every edge leads to a smaller number. */
  ghost predicate Ranks(names: seq<string>, edges: seq<seq<string>>, rank: map<string, nat>)
    requires |names| == |edges|
  {
    && (forall i :: 0 <= i < |names| ==> names[i] in rank)
    && (forall i, d :: 0 <= i < |names| && d in edges[i] ==> d in names && rank[d] < rank[names[i]])
  }

  /** Every edge names a node and there is no cycle. */
  ghost predicate WellFormed(names: seq<string>, edges: seq<seq<string>>)
    requires |names| == |edges|
  {
    exists rank: map<string, nat> :: Ranks(names, edges, rank)
  }

  /** The nodes finished so far: every edge out of them stays inside and goes down. */
  ghost predicate Finished(names: seq<string>, edges: seq<seq<string>>, visited: set<string>, rank: map<string, nat>)
    requires |names| == |edges|
  {
    && (forall v :: v in visited ==> v in names && v in rank && rank[v] < |visited|)
    && (forall v, d :: v in visited && d in edges[IndexOf(names, v)] ==> d in visited && rank[d] < rank[v])
  }

  /** The nodes on the current search path, each an edge of the one before. */
  ghost predicate Path(names: seq<string>, edges: seq<seq<string>>, path: seq<string>)
    requires |names| == |edges|
  {
    && Distinct(path)
    && (forall i :: 0 <= i < |path| ==> path[i] in names)
    && (forall i :: 0 <= i < |path| - 1 ==> path[i + 1] in edges[IndexOf(names, path[i])])
  }

  ghost predicate Extends(names: seq<string>, edges: seq<seq<string>>, path: seq<string>, name: string)
    requires |names| == |edges| && Path(names, edges, path)
  {
    if path == [] then name in names else name in edges[IndexOf(names, path[|path| - 1])]
  }

  lemma {:induction false} RanksFallAlongPath(
      names: seq<string>, edges: seq<seq<string>>, path: seq<string>, rank: map<string, nat>, i: nat, j: nat)
    requires |names| == |edges| && Path(names, edges, path) && Ranks(names, edges, rank) && i <= j < |path|
    ensures path[i] in rank && path[j] in rank && rank[path[j]] <= rank[path[i]]
    decreases j - i
  {
    if i < j {
      RanksFallAlongPath(names, edges, path, rank, i + 1, j);
      assert path[i + 1] in edges[IndexOf(names, path[i])];
    }
  }

  /** An edge from the end of the path back into it, or out of the graph, leaves no ranking. */
  lemma BadEdgeBreaksGraph(names: seq<string>, edges: seq<seq<string>>, path: seq<string>, name: string)
    requires |names| == |edges| && Path(names, edges, path) && Extends(names, edges, path, name)
    requires name !in names || name in path
    ensures !WellFormed(names, edges)
  {
    forall rank | Ranks(names, edges, rank) ensures false {
      if name in path {
        var i :| 0 <= i < |path| && path[i] == name;
        RanksFallAlongPath(names, edges, path, rank, i, |path| - 1);
      }
    }
  }

  lemma PathFitsGraph(names: seq<string>, path: seq<string>)
    requires Distinct(path) && forall i :: 0 <= i < |path| ==> path[i] in names
    ensures |path| <= |names|
  {
    CountTellsDistinct(path);
    SubsetCount(Elements(path), Elements(names));
    CountTellsDistinct(names);
  }

  lemma FinishNode(names: seq<string>, edges: seq<seq<string>>, visited: set<string>, rank: map<string, nat>, name: string)
    requires |names| == |edges| && Finished(names, edges, visited, rank) && name in names && name !in visited
    requires forall d :: d in edges[IndexOf(names, name)] ==> d in visited
    ensures Finished(names, edges, visited + {name}, rank[name := |visited|])
  {
  }

  lemma PathGrows(names: seq<string>, edges: seq<seq<string>>, path: seq<string>, name: string)
    requires |names| == |edges| && Path(names, edges, path) && Extends(names, edges, path, name)
    requires name in names && name !in path
    ensures Path(names, edges, path + [name]) && Elements(path + [name]) == Elements(path) + {name}
    ensures |path| < |names|
    ensures forall d :: d in edges[IndexOf(names, name)] ==> Extends(names, edges, path + [name], d)
  {
    PathFitsGraph(names, path + [name]);
  }

  /** One depth-first visit; `active` is the set of nodes on `path`. */
  method Visit(names: seq<string>, edges: seq<seq<string>>, name: string, visited: set<string>, active: set<string>,
               ghost path: seq<string>, ghost rank: map<string, nat>)
    returns (ok: bool, visited': set<string>, ghost rank': map<string, nat>)
    requires |names| == |edges| && Path(names, edges, path) && Extends(names, edges, path, name)
    requires active == Elements(path) && active !! visited && Finished(names, edges, visited, rank)
    ensures !ok ==> !WellFormed(names, edges)
    ensures ok ==> name in visited' && visited <= visited' && active !! visited' && Finished(names, edges, visited', rank')
    decreases |names| - |path|
  {
    hide Path, Extends, Finished, WellFormed;
    ok, visited', rank' := true, visited, rank;
    if name !in names || name in active {
      BadEdgeBreaksGraph(names, edges, path, name);
      ok := false;
      return;
    }
    if name in visited { return; }
    ghost var longer := path + [name];
    PathGrows(names, edges, path, name);
    var targets := edges[IndexOf(names, name)];
    var i := 0;
    while i < |targets|
      invariant i <= |targets|
      invariant ok && visited <= visited' && active + {name} !! visited' && Finished(names, edges, visited', rank')
      invariant forall k :: 0 <= k < i ==> targets[k] in visited'
    {
      ok, visited', rank' := Visit(names, edges, targets[i], visited', active + {name}, longer, rank');
      if !ok { return; }
      i := i + 1;
    }
    FinishNode(names, edges, visited', rank', name);
    rank' := rank'[name := |visited'|];
    visited' := visited' + {name};
  }

  /** Depth-first validation accepts exactly the well-formed graphs. */
  method Validate(names: seq<string>, edges: seq<seq<string>>) returns (ok: bool)
    requires |names| == |edges| && Distinct(names)
    ensures ok <==> WellFormed(names, edges)
  {
    var visited: set<string> := {};
    ghost var rank: map<string, nat> := map[];
    var i := 0;
    while i < |names|
      invariant i <= |names| && Finished(names, edges, visited, rank)
      invariant forall k :: 0 <= k < i ==> names[k] in visited
    {
      ok, visited, rank := Visit(names, edges, names[i], visited, {}, [], rank);
      if !ok { return; }
      i := i + 1;
    }
    forall k, d | 0 <= k < |names| && d in edges[k] ensures d in names && rank[d] < rank[names[k]] {
      assert IndexOf(names, names[k]) == k;
    }
    assert Ranks(names, edges, rank);
    ok := true;
  }
}
