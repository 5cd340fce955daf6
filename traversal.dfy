/** The recursive depth-first search that the two earlier document variants use to order their layers:
    starting from the `"text"` field it follows the reverse target map (a target to the layers that
    annotate it) and lists each node the first time it is reached. */
module Traversal {
  import opened Wrappers
  import opened PyLists

  /** The reverse target map: a target to the layers that annotate it. A layer without a target is
      listed under `None`, a key the search, which starts from a field name, never looks up. */
  type Graph = map<Option<string>, seq<string>>

  /** `graph.get(node) or []` */
  function Neighbours(graph: Graph, node: string): seq<string> {
    if Some(node) in graph then graph[Some(node)] else []
  }

  /** `g` lists every `src` of an edge `(src, dst)` once under `dst`, and nothing else. */
  ghost predicate ReverseMap(edges: set<(string, Option<string>)>, g: Graph) {
    (forall dst :: dst in g <==> exists src :: (src, dst) in edges) &&
    (forall dst :: dst in g ==> NoDuplicates(g[dst])) &&
    (forall dst :: dst in g ==> forall src :: src in g[dst] <==> (src, dst) in edges)
  }

  /** The loop of `__post_init__` over the set of `(layer, target)` edges: each layer is listed under
      its target, in the order the set yields the edges. */
  method ReverseTargets(edges: set<(string, Option<string>)>) returns (g: Graph)
    ensures ReverseMap(edges, g)
  {
    g := map[];
    var rest := edges;
    while rest != {}
      invariant rest <= edges
      invariant forall dst :: dst in g <==> exists src :: (src, dst) in edges - rest
      invariant forall dst :: dst in g ==> NoDuplicates(g[dst])
      invariant forall dst :: dst in g ==> forall src :: src in g[dst] <==> (src, dst) in edges - rest
      decreases rest
    {
      var e :| e in rest;
      var src, dst := e.0, e.1;
      if dst !in g {
        g := g[dst := []];
      }
      assert src !in g[dst];
      g := g[dst := g[dst] + [src]];
      rest := rest - {e};
    }
  }

  /** Every node that occurs as a neighbour. */
  function Targets(graph: Graph): set<string> {
    set k, v | k in graph && v in graph[k] :: v
  }

  /** The nodes of `r` from position `from` on are new (not in `visited`) and distinct. */
  predicate Fresh(r: seq<string>, from: nat, visited: set<string>)
    requires from <= |r|
  {
    forall i :: from <= i < |r| ==> r[i] !in visited && r[i] !in r[from..i]
  }

  /** `visited` holds exactly the old visited nodes and the nodes of `r` from position `from` on. */
  ghost predicate VisitedAre(visited: set<string>, before: set<string>, r: seq<string>, from: nat)
    requires from <= |r|
  {
    forall x :: x in visited <==> x in before || x in r[from..]
  }

  /** Every node of `r` after position `from` was first reached from an earlier node at or after `from`. */
  predicate HasParents(graph: Graph, r: seq<string>, from: nat) {
    forall i :: from < i < |r| ==> HasParent(graph, r, from, i)
  }

  /** `r[i]` is a neighbour of a node at a position in `[from, i)`. */
  predicate HasParent(graph: Graph, r: seq<string>, from: nat, i: nat)
    requires i < |r|
  {
    exists j :: from <= j < i && r[i] in Neighbours(graph, r[j])
  }

  /** The neighbours of the nodes of `r` from position `from` on are all in `visited`. */
  predicate Closed(graph: Graph, r: seq<string>, from: nat, visited: set<string>) {
    forall i :: from <= i < |r| ==> forall y :: y in Neighbours(graph, r[i]) ==> y in visited
  }

  /** `_depth_first_search(lst, visited, graph, node)` (and the prototype's `dfs`): `lst` and `visited`
      are the list and set the Python code updates in place; their new values are returned. */
  method Dfs(lst: seq<string>, visited: set<string>, graph: Graph, node: string)
      returns (lst': seq<string>, visited': set<string>)
    ensures node in visited ==> lst' == lst && visited' == visited
    ensures node !in visited ==> |lst'| > |lst| && lst'[|lst|] == node
    ensures lst <= lst'
    ensures node in visited'
    ensures VisitedAre(visited', visited, lst', |lst|)
    ensures Fresh(lst', |lst|, visited)
    ensures HasParents(graph, lst', |lst|)
    ensures Closed(graph, lst', |lst|, visited')
    decreases Targets(graph) + {node} - visited
  {
    if node in visited {
      return lst, visited;
    }
    lst', visited' := lst + [node], visited + {node};
    DfsEntry(graph, lst, visited, node);
    var ns := Neighbours(graph, node);
    for k := 0 to |ns|
      invariant lst + [node] <= lst'
      invariant visited + {node} <= visited'
      invariant VisitedAre(visited', visited, lst', |lst|)
      invariant Fresh(lst', |lst|, visited)
      invariant HasParents(graph, lst', |lst|)
      invariant Closed(graph, lst', |lst| + 1, visited')
      invariant forall y :: y in ns[..k] ==> y in visited'
    {
      var prev, prevVisited := lst', visited';
      assert Some(node) in graph && ns[k] in graph[Some(node)];
      assert ns[k] in Targets(graph);
      Shrinks(Targets(graph), visited, prevVisited, node, ns[k]);
      lst', visited' := Dfs(lst', visited', graph, ns[k]);
      FreshStep(prev, lst', |lst|, visited, prevVisited);
      VisitedStep(prev, lst', |lst|, visited, prevVisited, visited');
      ParentsStep(graph, prev, lst', |lst|, ns[k]);
      ClosedStep(graph, prev, lst', |lst| + 1, prevVisited, visited');
      assert ns[..k + 1] == ns[..k] + [ns[k]];
    }
    assert ns[..|ns|] == ns;
    DfsExit(graph, lst, node, lst', visited');
  }

  /** After listing a new node, the search's postconditions hold for the list so far, its
      neighbours aside. */
  lemma DfsEntry(graph: Graph, lst: seq<string>, visited: set<string>, node: string)
    requires node !in visited
    ensures VisitedAre(visited + {node}, visited, lst + [node], |lst|)
    ensures Fresh(lst + [node], |lst|, visited)
    ensures HasParents(graph, lst + [node], |lst|)
    ensures Closed(graph, lst + [node], |lst| + 1, visited + {node})
  {
    assert (lst + [node])[|lst|..] == [node];
    assert (lst + [node])[|lst|..|lst|] == [];
  }

  /** Once the node's neighbours are visited, the nodes listed from the node on are closed. */
  lemma DfsExit(graph: Graph, lst: seq<string>, node: string, lst': seq<string>, visited': set<string>)
    requires |lst| < |lst'| && lst'[|lst|] == node
    requires Closed(graph, lst', |lst| + 1, visited')
    requires forall y :: y in Neighbours(graph, node) ==> y in visited'
    ensures Closed(graph, lst', |lst|, visited')
  {
  }

  /** Visiting a node shrinks the set of nodes the search can still list. */
  lemma Shrinks(targets: set<string>, visited: set<string>, now: set<string>, node: string, next: string)
    requires node !in visited && visited + {node} <= now && next in targets
    ensures targets + {next} - now < targets + {node} - visited
  {
    assert node in targets + {node} - visited && node !in targets + {next} - now;
  }

  lemma FreshStep(prev: seq<string>, next: seq<string>, from: nat, visited: set<string>,
                  prevVisited: set<string>)
    requires from <= |prev| && prev <= next
    requires Fresh(prev, from, visited) && Fresh(next, |prev|, prevVisited)
    requires VisitedAre(prevVisited, visited, prev, from)
    ensures Fresh(next, from, visited)
  {
    forall i | from <= i < |next| ensures next[i] !in visited && next[i] !in next[from..i] {
      if i >= |prev| {
        assert next[from..i] == prev[from..] + next[|prev|..i];
      } else {
        assert next[from..i] == prev[from..i];
        assert next[i] == prev[i];
      }
    }
  }

  lemma VisitedStep(prev: seq<string>, next: seq<string>, from: nat, visited: set<string>,
                    prevVisited: set<string>, nextVisited: set<string>)
    requires from <= |prev| && prev <= next
    requires VisitedAre(prevVisited, visited, prev, from)
    requires VisitedAre(nextVisited, prevVisited, next, |prev|)
    ensures VisitedAre(nextVisited, visited, next, from)
  {
    assert next[from..] == prev[from..] + next[|prev|..];
  }

  lemma ParentsStep(graph: Graph, prev: seq<string>, next: seq<string>, from: nat, child: string)
    requires from < |prev| && prev <= next
    requires HasParents(graph, prev, from) && HasParents(graph, next, |prev|)
    requires child in Neighbours(graph, prev[from])
    requires |next| > |prev| ==> next[|prev|] == child
    ensures HasParents(graph, next, from)
  {
    forall i | from < i < |next| ensures HasParent(graph, next, from, i) {
      if i < |prev| {
        assert HasParent(graph, prev, from, i);
        var j :| from <= j < i && prev[i] in Neighbours(graph, prev[j]);
        assert next[j] == prev[j] && next[i] == prev[i];
      } else if i == |prev| {
        assert next[from] == prev[from];
      } else {
        assert HasParent(graph, next, |prev|, i);
        var j :| |prev| <= j < i && next[i] in Neighbours(graph, next[j]);
      }
    }
  }

  lemma ClosedStep(graph: Graph, prev: seq<string>, next: seq<string>, from: nat,
                   prevVisited: set<string>, visited: set<string>)
    requires prev <= next && prevVisited <= visited
    requires Closed(graph, prev, from, prevVisited) && Closed(graph, next, |prev|, visited)
    ensures Closed(graph, next, from, visited)
  {
    forall i | from <= i < |next| ensures forall y :: y in Neighbours(graph, next[i]) ==> y in visited {
      if i < |prev| {
        assert next[i] == prev[i];
      }
    }
  }

  /** A path along the reverse target map. */
  ghost predicate IsWalk(graph: Graph, w: seq<string>) {
    |w| > 0 && forall k :: 0 <= k < |w| - 1 ==> Step(graph, w, k)
  }

  /** The walk moves from `w[k]` to one of its neighbours. */
  ghost predicate Step(graph: Graph, w: seq<string>, k: nat)
    requires k < |w| - 1
  {
    w[k + 1] in Neighbours(graph, w[k])
  }

  /** `node` can be reached from `start`. */
  ghost predicate Reachable(graph: Graph, start: string, node: string) {
    exists w :: IsWalk(graph, w) && w[0] == start && w[|w| - 1] == node
  }

  /** Every node of a walk from the start stays inside a list closed under neighbours. */
  lemma {:induction false} WalkInside(graph: Graph, r: seq<string>, w: seq<string>, k: nat)
    requires IsWalk(graph, w) && w[0] in r && k < |w|
    requires forall x :: x in r ==> forall y :: y in Neighbours(graph, x) ==> y in r
    ensures w[k] in r
  {
    if k > 0 {
      WalkInside(graph, r, w, k - 1);
      assert Step(graph, w, k - 1);
    }
  }

  /** A node of the list whose parent chain leads back to the start is reachable. */
  lemma {:induction false} ParentChainReachable(graph: Graph, r: seq<string>, i: nat)
    requires 0 < |r| && i < |r|
    requires HasParents(graph, r, 0)
    ensures Reachable(graph, r[0], r[i])
  {
    if i == 0 {
      assert IsWalk(graph, [r[0]]);
    } else {
      assert HasParent(graph, r, 0, i);
      var j :| 0 <= j < i && r[i] in Neighbours(graph, r[j]);
      ParentChainReachable(graph, r, j);
      var w :| IsWalk(graph, w) && w[0] == r[0] && w[|w| - 1] == r[j];
      var w' := w + [r[i]];
      forall k | 0 <= k < |w'| - 1 ensures Step(graph, w', k) {
        if k < |w| - 1 {
          assert Step(graph, w, k);
          assert w'[k] == w[k] && w'[k + 1] == w[k + 1];
        } else {
          assert w'[k] == r[j] && w'[k + 1] == r[i];
        }
      }
      assert IsWalk(graph, w') && w'[0] == r[0] && w'[|w'| - 1] == r[i];
    }
  }

  /** The top-level search with an empty list and visited set: it lists the start first and then
      exactly the nodes reachable from it, each once. */
  method Search(graph: Graph, start: string) returns (r: seq<string>)
    ensures |r| > 0 && r[0] == start
    ensures NoDuplicates(r)
    ensures forall x :: x in r <==> Reachable(graph, start, x)
    ensures HasParents(graph, r, 0)
  {
    var visited;
    r, visited := Dfs([], {}, graph, start);
    forall i, j | 0 <= i < j < |r| ensures r[i] != r[j] {
      assert r[..j] == r[0..j];
      assert r[i] in r[0..j];
    }
    assert r[0..] == r;
    forall x | x in r ensures Reachable(graph, start, x) {
      var i :| 0 <= i < |r| && r[i] == x;
      ParentChainReachable(graph, r, i);
    }
    forall x | Reachable(graph, start, x) ensures x in r {
      var w :| IsWalk(graph, w) && w[0] == start && w[|w| - 1] == x;
      WalkInside(graph, r, w, |w| - 1);
    }
  }
}
