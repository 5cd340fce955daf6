/** The recursive topological sort that orders a document's annotation layers before deserialisation:
    every layer comes after the layers it depends on, and a cycle met on the path being explored is a
    ValueError. */
module DependencyGraph {
  import opened Wrappers
  import opened PyLists

  /** `dependency_graph`: a node's dependencies; a node without an entry is terminal. */
  type Graph = map<string, seq<string>>

  function CycleMessage(node: string): string {
    "circular dependency detected at node: " + node
  }

  /** The dependencies of `r[i]` all occur before position `i`. */
  predicate DepsBefore(graph: Graph, r: seq<string>, i: nat)
    requires i < |r|
  {
    r[i] in graph ==> forall d :: d in graph[r[i]] ==> d in r[..i]
  }

  /** Every node of `r` comes after its dependencies. */
  predicate Sorted(graph: Graph, r: seq<string>) {
    forall i :: 0 <= i < |r| ==> DepsBefore(graph, r, i)
  }

  /** A path along dependency edges. */
  ghost predicate IsWalk(graph: Graph, w: seq<string>) {
    |w| > 0 && forall k :: 0 <= k < |w| - 1 ==> w[k] in graph && w[k + 1] in graph[w[k]]
  }

  /** A walk from one of `nodes` that ends on a node of `path` or on a node it passed before. */
  ghost predicate Revisits(graph: Graph, nodes: seq<string>, path: set<string>, w: seq<string>) {
    IsWalk(graph, w) && w[0] in nodes && (w[|w| - 1] in path || w[|w| - 1] in w[..|w| - 1])
  }

  /** `x` lies at the end of a walk from one of `nodes`. */
  ghost predicate Reachable(graph: Graph, nodes: seq<string>, x: string) {
    exists w :: IsWalk(graph, w) && w[0] in nodes && w[|w| - 1] == x
  }

  /** What the dependencies of a start node reach, the start nodes reach too. */
  lemma ReachableThrough(graph: Graph, nodes: seq<string>, node: string, x: string)
    requires node in nodes && node in graph && Reachable(graph, graph[node], x)
    ensures Reachable(graph, nodes, x)
  {
    var w :| IsWalk(graph, w) && w[0] in graph[node] && w[|w| - 1] == x;
    var longer := [node] + w;
    forall k | 0 <= k < |longer| - 1 ensures longer[k] in graph && longer[k + 1] in graph[longer[k]] {
      if k > 0 {
        assert longer[k] == w[k - 1] && longer[k + 1] == w[k];
      }
    }
    assert IsWalk(graph, longer) && longer[0] in nodes && longer[|longer| - 1] == x;
  }

  /** Appending a start node after reachable nodes keeps every added node reachable. */
  lemma ReachableAppended(graph: Graph, nodes: seq<string>, resolved: seq<string>, res: seq<string>,
                          next: seq<string>, node: string)
    requires node in nodes && |resolved| <= |res| && res <= next
    requires forall j :: |resolved| <= j < |res| ==> Reachable(graph, nodes, res[j])
    requires forall j :: |res| <= j < |next| ==> Reachable(graph, nodes, next[j])
    ensures forall j :: |resolved| <= j < |next + [node]| ==> Reachable(graph, nodes, (next + [node])[j])
  {
    assert IsWalk(graph, [node]);
    forall j | |resolved| <= j < |next + [node]| ensures Reachable(graph, nodes, (next + [node])[j]) {
      if j < |res| {
        assert (next + [node])[j] == res[j];
      } else if j < |next| {
        assert (next + [node])[j] == next[j];
      }
    }
  }

  /** The facts the loop of `_enumerate_dependencies` keeps about the nodes `res` adds to `resolved`:
      each added once, after its dependencies, off the current path and reachable from `nodes`. */
  ghost predicate Added(graph: Graph, nodes: seq<string>, currentPath: set<string>, resolved: seq<string>,
                        res: seq<string>) {
    resolved <= res &&
    (forall j :: |resolved| <= j < |res| ==> res[j] !in res[..j]) &&
    (forall j :: |resolved| <= j < |res| ==> DepsBefore(graph, res, j)) &&
    (forall j :: |resolved| <= j < |res| ==> res[j] !in currentPath) &&
    (forall j :: |resolved| <= j < |res| ==> Reachable(graph, nodes, res[j]))
  }

  /** Appending a start node after the nodes its dependencies added keeps the loop's facts. */
  lemma AddedStep(graph: Graph, nodes: seq<string>, currentPath: set<string>, resolved: seq<string>,
                  res: seq<string>, next: seq<string>, node: string)
    requires Added(graph, nodes, currentPath, resolved, res)
    requires node in nodes && node !in currentPath && node !in res && res <= next
    requires node !in graph ==> next == res
    requires node in graph ==> Added(graph, graph[node], currentPath + {node}, res, next)
    requires node in graph ==> forall d :: d in graph[node] ==> d in next
    ensures Added(graph, nodes, currentPath, resolved, next + [node])
  {
    var out := next + [node];
    ExtendKeepsDeps(graph, res, next);
    ExtendKeepsDeps(graph, next, out);
    assert out[..|next|] == next;
    forall j | |res| <= j < |next| ensures Reachable(graph, nodes, next[j]) {
      ReachableThrough(graph, nodes, node, next[j]);
    }
    ReachableAppended(graph, nodes, resolved, res, next, node);
    forall j | |resolved| <= j < |out| ensures out[j] !in out[..j] && out[j] !in currentPath {
      if j < |next| {
        assert out[j] == next[j] && out[..j] == next[..j];
        if j < |res| {
          assert next[j] == res[j] && next[..j] == res[..j];
        }
      } else {
        assert node !in next;
      }
    }
  }

  /** `_enumerate_dependencies(resolved, dependency_graph, nodes, current_path)`: `resolved` is the list
      the Python code extends in place; the extended list is returned. `walk` witnesses the cycle when
      a ValueError is raised. */
  method EnumerateDependencies(resolved: seq<string>, graph: Graph, nodes: seq<string>,
                               currentPath: set<string>)
      returns (r: Result<seq<string>>, ghost walk: seq<string>)
    ensures r.Success? ==> forall n :: n in nodes ==> n in r.value
    ensures r.Success? ==> Added(graph, nodes, currentPath, resolved, r.value)
    ensures r.Failure? ==> exists n :: r.error == ValueError(CycleMessage(n))
    ensures r.Failure? ==> Revisits(graph, nodes, currentPath, walk)
    decreases graph.Keys - currentPath
  {
    var res := resolved;
    walk := [];
    for i := 0 to |nodes|
      invariant forall n :: n in nodes[..i] ==> n in res
      invariant Added(graph, nodes, currentPath, resolved, res)
    {
      var node := nodes[i];
      if node in currentPath {
        return Failure(ValueError(CycleMessage(node))), [node];
      }
      if node !in res {
        if node !in graph {
          AddedStep(graph, nodes, currentPath, resolved, res, res, node);
          res := res + [node];
        } else {
          var sub, subWalk := EnumerateDependencies(res, graph, graph[node], currentPath + {node});
          if sub.Failure? {
            walk := [node] + subWalk;
            assert walk[..|walk| - 1] == [node] + subWalk[..|subWalk| - 1];
            return sub.PropagateFailure(), walk;
          }
          AddedStep(graph, nodes, currentPath, resolved, res, sub.value, node);
          res := sub.value + [node];
        }
      }
      assert nodes[..i + 1] == nodes[..i] + [node];
    }
    assert nodes[..|nodes|] == nodes;
    r := Success(res);
  }

  /** Extending a list keeps every old position's dependencies before it. */
  lemma ExtendKeepsDeps(graph: Graph, r: seq<string>, s: seq<string>)
    requires r <= s
    ensures forall j :: 0 <= j < |r| && DepsBefore(graph, r, j) ==> DepsBefore(graph, s, j)
  {
    forall j | 0 <= j < |r| && DepsBefore(graph, r, j) ensures DepsBefore(graph, s, j) {
      assert s[..j] == r[..j];
      assert s[j] == r[j];
    }
  }

  /** A node listed before position `k` has its first occurrence before `k`. */
  lemma FirstIndexBefore(r: seq<string>, x: string, k: nat)
    requires k <= |r| && x in r[..k]
    ensures x in r && FirstIndex(r, x) < k
  {
    var j :| 0 <= j < k && r[..k][j] == x;
    assert r[j] == x;
  }

  /** Along a walk that starts in a sorted list, every node is in the list and sits strictly before
      the nodes the walk passed earlier. */
  lemma {:induction false} WalkDescends(graph: Graph, r: seq<string>, w: seq<string>, k: nat)
    requires Sorted(graph, r) && IsWalk(graph, w) && w[0] in r && k < |w|
    ensures forall j :: 0 <= j <= k ==> w[j] in r
    ensures forall j :: 0 <= j < k ==> FirstIndex(r, w[k]) < FirstIndex(r, w[j])
  {
    if k > 0 {
      WalkDescends(graph, r, w, k - 1);
      var p := FirstIndex(r, w[k - 1]);
      assert DepsBefore(graph, r, p);
      assert w[k] in graph[w[k - 1]];
      FirstIndexBefore(r, w[k], p);
    }
  }

  /** A sorted list that holds the start nodes rules out every cycle reachable from them. */
  lemma SortedHasNoCycle(graph: Graph, r: seq<string>, nodes: seq<string>, w: seq<string>)
    requires Sorted(graph, r) && forall n :: n in nodes ==> n in r
    ensures !Revisits(graph, nodes, {}, w)
  {
    if IsWalk(graph, w) && w[0] in nodes {
      var k := |w| - 1;
      WalkDescends(graph, r, w, k);
      forall j | 0 <= j < k ensures w[..k][j] != w[k] {
        assert w[..k][j] == w[j];
      }
    }
  }

  /** The top-level call made by deserialisation: it succeeds exactly when no cycle is reachable
      from the start nodes, and then lists exactly the reachable layers, each after its dependencies,
      once. */
  method Enumerate(graph: Graph, nodes: seq<string>) returns (r: Result<seq<string>>)
    ensures r.Success? ==> Sorted(graph, r.value) && NoDuplicates(r.value)
    ensures r.Success? ==> forall x :: x in r.value <==> Reachable(graph, nodes, x)
    ensures r.Success? ==> forall n :: n in nodes ==> n in r.value
    ensures r.Success? <==> forall w :: !Revisits(graph, nodes, {}, w)
    ensures r.Failure? ==> exists n :: r.error == ValueError(CycleMessage(n))
  {
    ghost var walk;
    r, walk := EnumerateDependencies([], graph, nodes, {});
    if r.Success? {
      forall w ensures !Revisits(graph, nodes, {}, w) {
        SortedHasNoCycle(graph, r.value, nodes, w);
      }
      forall i, j | 0 <= i < j < |r.value| ensures r.value[i] != r.value[j] {
        assert r.value[i] in r.value[..j];
      }
      forall x | Reachable(graph, nodes, x) ensures x in r.value {
        var w :| IsWalk(graph, w) && w[0] in nodes && w[|w| - 1] == x;
        WalkDescends(graph, r.value, w, |w| - 1);
      }
    }
  }
}
