// The three-colour depth-first search that refuses a cyclic plan
// (plnt/control/dag.py, _has_cycle).
module CycleCheck {
  import opened Graph

  datatype Color = White | Gray | Black

  // Every node of `order` comes after all of its dependencies.
  ghost predicate Ordered(g: Graph, order: seq<string>) {
    forall i, d :: 0 <= i < |order| && order[i] in g && d in g[order[i]] ==> d in order[..i]
  }

  lemma {:induction false} WalkFallsInOrder(g: Graph, order: seq<string>, p: seq<string>, i: nat)
    requires Ordered(g, order) && Walk(g, p) && |p| > 1
    requires i < |order| && order[i] == p[0]
    ensures p[|p| - 1] in order[..i]
    decreases |p|
  {
    assert Step(g, p, 0);
    if |p| > 2 {
      assert Step(g, p, 1);
      WalkTail(g, p);
      var j :| 0 <= j < i && order[..i][j] == p[1];
      WalkFallsInOrder(g, order, p[1..], j);
    }
  }

  lemma {:induction false} NoCycleThrough(g: Graph, order: seq<string>, p: seq<string>, i: nat)
    requires Ordered(g, order) && Walk(g, p) && |p| > 1 && p[0] == p[|p| - 1]
    requires i < |order|
    ensures order[i] != p[0]
  {
    if order[i] == p[0] {
      WalkFallsInOrder(g, order, p, i);
      var j :| 0 <= j < i && order[..i][j] == p[0];
      NoCycleThrough(g, order, p, j);
    }
  }

  lemma OrderedMeansAcyclic(g: Graph, order: seq<string>)
    requires Ordered(g, order) && forall id :: id in g ==> id in order
    ensures !HasCycle(g)
  {
    if HasCycle(g) {
      var p :| Walk(g, p) && |p| > 1 && p[0] == p[|p| - 1];
      var i :| 0 <= i < |order| && order[i] == p[0];
      NoCycleThrough(g, order, p, i);
    }
  }

  lemma OrderedSnoc(g: Graph, order: seq<string>, node: string)
    requires Ordered(g, order) && node in g
    requires forall d :: d in g[node] ==> d in order
    ensures Ordered(g, order + [node])
  {
    var longer := order + [node];
    forall i, d | 0 <= i < |longer| && longer[i] in g && d in g[longer[i]]
      ensures d in longer[..i]
    {
      assert longer[..i] == order[..i];
      if i == |order| {
        assert order[..i] == order;
      }
    }
  }

  lemma WalkSnoc(g: Graph, p: seq<string>, d: string)
    requires Walk(g, p) && p[|p| - 1] in g && d in g[p[|p| - 1]]
    ensures Walk(g, p + [d])
  {
    var q := p + [d];
    forall i | 0 <= i < |q| - 1
      ensures Step(g, q, i)
    {
      if i < |p| - 1 {
        assert Step(g, p, i);
      }
    }
  }

  lemma ClosingEdgeIsCycle(g: Graph, p: seq<string>, d: string)
    requires Walk(g, p) && p[|p| - 1] in g && d in g[p[|p| - 1]] && d in p
    ensures HasCycle(g)
  {
    var i :| 0 <= i < |p| && p[i] == d;
    WalkSnoc(g, p, d);
    var q := p + [d];
    WalkSlice(g, q, i, |p|);
    var c := q[i..|p| + 1];
    assert c[0] == c[|c| - 1];
  }

  // `path` holds the gray nodes, outermost call first; `order` the black ones,
  // first finished first.
  ghost predicate Consistent(g: Graph, color: map<string, Color>, path: seq<string>, order: seq<string>) {
    && color.Keys == g.Keys
    && (forall id :: id in g ==> (color[id] == Gray <==> id in path))
    && (forall id :: id in g ==> (color[id] == Black <==> id in order))
    && (path != [] ==> Walk(g, path) && path[|path| - 1] in g)
    && Ordered(g, order)
  }

  ghost function Whites(color: map<string, Color>): set<string> {
    set id | id in color && color[id] == White
  }

  lemma Enter(g: Graph, color: map<string, Color>, path: seq<string>, order: seq<string>, node: string)
    requires Consistent(g, color, path, order) && node in g && color[node] == White
    requires path != [] ==> node in g[path[|path| - 1]]
    ensures Consistent(g, color[node := Gray], path + [node], order)
    ensures Whites(color[node := Gray]) < Whites(color)
  {
    if path == [] {
      assert Walk(g, path + [node]);
    } else {
      WalkSnoc(g, path, node);
    }
    assert node in Whites(color) && node !in Whites(color[node := Gray]);
  }

  lemma Leave(g: Graph, color: map<string, Color>, path: seq<string>, order: seq<string>, node: string)
    requires Consistent(g, color, path + [node], order) && node in g && node !in path
    requires path != [] ==> Walk(g, path) && path[|path| - 1] in g
    requires forall d :: d in g[node] ==> d in order
    ensures Consistent(g, color[node := Black], path, order + [node])
    ensures Whites(color[node := Black]) <= Whites(color)
  {
    assert node in path + [node];
    OrderedSnoc(g, order, node);
  }

  class CycleSearch {
    const deps: Graph
    var color: map<string, Color>
    ghost var path: seq<string>
    ghost var order: seq<string>

    constructor (deps: Graph)
      requires Closed(deps)
      ensures this.deps == deps && Valid() && path == [] && order == []
    {
      this.deps := deps;
      color := map id | id in deps :: White;
      path := [];
      order := [];
    }

    ghost predicate Valid()
      reads this
    {
      Closed(deps) && Consistent(deps, color, path, order)
    }

    method TurnGray(node: string)
      requires Valid() && node in deps && color[node] == White
      requires path != [] ==> node in deps[path[|path| - 1]]
      modifies this
      ensures Valid() && path == old(path) + [node] && order == old(order) && node !in old(path)
      ensures old(path) != [] ==> Walk(deps, old(path)) && old(path)[|old(path)| - 1] in deps
      ensures Whites(color) < old(Whites(color))
    {
      Enter(deps, color, path, order, node);
      color := color[node := Gray];
      path := path + [node];
    }

    method TurnBlack(node: string, ghost before: seq<string>)
      requires Valid() && node in deps && path == before + [node] && node !in before
      requires before != [] ==> Walk(deps, before) && before[|before| - 1] in deps
      requires forall d :: d in deps[node] ==> d in order
      modifies this
      ensures Valid() && path == before && order == old(order) + [node]
      ensures Whites(color) <= old(Whites(color))
    {
      Leave(deps, color, before, order, node);
      color := color[node := Black];
      order := order + [node];
      path := before;
    }

    method Visit(node: string) returns (found: bool)
      requires Valid() && node in deps
      requires path != [] ==> node in deps[path[|path| - 1]]
      modifies this
      ensures found ==> HasCycle(deps)
      ensures !found ==>
        && Valid()
        && path == old(path)
        && old(order) <= order
        && node in order
        && Whites(color) <= old(Whites(color))
      decreases Whites(color)
    {
      if color[node] == Gray {
        ClosingEdgeIsCycle(deps, path, node);
        return true;
      }
      if color[node] == Black {
        return false;
      }
      TurnGray(node);
      var ups := deps[node];
      for i := 0 to |ups|
        invariant Valid()
        invariant path == old(path) + [node]
        invariant old(order) <= order
        invariant forall j :: 0 <= j < i ==> ups[j] in order
        invariant Whites(color) < old(Whites(color))
      {
        var deeper := Visit(ups[i]);
        if deeper {
          return true;
        }
      }
      TurnBlack(node, old(path));
      return false;
    }

    method Search() returns (found: bool)
      requires Valid() && path == []
      modifies this
      ensures found <==> HasCycle(deps)
    {
      var todo := deps.Keys;
      while todo != {}
        invariant Valid() && path == [] && todo <= deps.Keys
        invariant forall id :: id in deps && id !in todo ==> id in order
      {
        var n :| n in todo;
        todo := todo - {n};
        if color[n] == White {
          found := Visit(n);
          if found {
            return;
          }
        }
      }
      OrderedMeansAcyclic(deps, order);
      return false;
    }
  }

  method HasDependencyCycle(deps: Graph) returns (cyclic: bool)
    requires Closed(deps)
    ensures cyclic <==> HasCycle(deps)
  {
    var search := new CycleSearch(deps);
    cyclic := search.Search();
  }
}
