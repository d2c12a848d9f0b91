// Dependency graphs as both schedulers see them: every node with the list of
// node ids it waits for. The list may name ids that are not nodes, and may
// name the same id twice.
module Graph {
  type Graph = map<string, seq<string>>

  // The i-th step of `p` goes from a node to one of its dependencies.
  ghost predicate Step(g: Graph, p: seq<string>, i: nat)
    requires i + 1 < |p|
  {
    p[i] in g && p[i + 1] in g[p[i]]
  }

  // A walk follows dependency edges. Only its last id may lie outside the graph.
  ghost predicate Walk(g: Graph, p: seq<string>) {
    |p| > 0 && p[0] in g && forall i :: 0 <= i < |p| - 1 ==> Step(g, p, i)
  }

  ghost predicate Repeats(p: seq<string>) {
    exists i, j :: 0 <= i < j < |p| && p[i] == p[j]
  }

  // From a blocked node one can walk into a dependency cycle, or to an id
  // nobody will ever produce a result for.
  ghost predicate Blocked(g: Graph, id: string) {
    exists p :: Walk(g, p) && p[0] == id && (p[|p| - 1] !in g || Repeats(p))
  }

  ghost function BlockedNodes(g: Graph): set<string> {
    set id | id in g && Blocked(g, id)
  }

  ghost predicate HasCycle(g: Graph) {
    exists p :: Walk(g, p) && |p| > 1 && p[0] == p[|p| - 1]
  }

  ghost predicate Closed(g: Graph) {
    forall id, d :: id in g && d in g[id] ==> d in g
  }

  // The longest walk from `id` has exactly `edges` edges.
  ghost predicate LongestWalk(g: Graph, id: string, edges: nat) {
    && (exists p :: Walk(g, p) && p[0] == id && |p| == edges + 1)
    && (forall p :: Walk(g, p) && p[0] == id ==> |p| <= edges + 1)
  }

  // What can be finished in `k` rounds when a round finishes every node whose
  // dependencies were finished in earlier rounds.
  function Done(g: Graph, k: nat): set<string> {
    if k == 0 then {}
    else
      var before := Done(g, k - 1);
      set id | id in g && forall d :: d in g[id] ==> d in before
  }

  function Wave(g: Graph, k: nat): set<string> {
    Done(g, k + 1) - Done(g, k)
  }

  lemma {:induction false} DoneGrows(g: Graph, k: nat)
    ensures Done(g, k) <= Done(g, k + 1) <= g.Keys
  {
    if k > 0 {
      DoneGrows(g, k - 1);
    }
  }

  lemma {:induction false} DoneStays(g: Graph, k: nat, m: nat)
    requires k <= m && Done(g, k + 1) == Done(g, k)
    ensures Done(g, m) == Done(g, k)
  {
    if k < m {
      DoneStays(g, k, m - 1);
      assert Done(g, m) == Done(g, k + 1);
    }
  }

  lemma WalkTail(g: Graph, p: seq<string>)
    requires Walk(g, p) && |p| > 1 && p[1] in g
    ensures Walk(g, p[1..])
  {
    var q := p[1..];
    forall i | 0 <= i < |q| - 1
      ensures Step(g, q, i)
    {
      assert Step(g, p, i + 1);
    }
  }

  lemma WalkCons(g: Graph, id: string, q: seq<string>)
    requires id in g && |q| > 0 && q[0] in g[id]
    requires Walk(g, q) || |q| == 1
    ensures Walk(g, [id] + q)
  {
    var p := [id] + q;
    forall i | 0 <= i < |p| - 1
      ensures Step(g, p, i)
    {
      if i > 0 {
        assert Step(g, q, i - 1);
      }
    }
  }

  // Being finished within k rounds says exactly how far one can walk.
  lemma {:induction false} DoneByWalks(g: Graph, k: nat, id: string)
    ensures id in Done(g, k) <==>
      id in g && forall p :: Walk(g, p) && p[0] == id ==> |p| <= k && p[|p| - 1] in g
  {
    if k == 0 {
      if id in g {
        assert Walk(g, [id]);
      }
    } else if id in Done(g, k) {
      forall p | Walk(g, p) && p[0] == id
        ensures |p| <= k && p[|p| - 1] in g
      {
        if |p| > 1 {
          assert Step(g, p, 0);
          DoneByWalks(g, k - 1, p[1]);
          WalkTail(g, p);
        }
      }
    } else if id in g && forall p :: Walk(g, p) && p[0] == id ==> |p| <= k && p[|p| - 1] in g {
      forall d | d in g[id]
        ensures d in Done(g, k - 1)
      {
        WalkCons(g, id, [d]);
        assert ([id] + [d])[1] in g;
        forall q | Walk(g, q) && q[0] == d
          ensures |q| <= k - 1 && q[|q| - 1] in g
        {
          WalkCons(g, id, q);
          var p := [id] + q;
          assert p[0] == id && p[|p| - 1] == q[|q| - 1];
        }
        DoneByWalks(g, k - 1, d);
      }
    }
  }

  // The k-th round holds exactly the nodes whose longest dependency chain has k links.
  lemma WaveIsLevel(g: Graph, k: nat, id: string)
    ensures id in Wave(g, k) ==> LongestWalk(g, id, k)
    ensures Closed(g) && id in g && LongestWalk(g, id, k) ==> id in Wave(g, k)
  {
    DoneByWalks(g, k, id);
    DoneByWalks(g, k + 1, id);
    if id in Wave(g, k) {
      var p :| Walk(g, p) && p[0] == id && !(|p| <= k && p[|p| - 1] in g);
      assert |p| == k + 1;
    }
    if Closed(g) && id in g && LongestWalk(g, id, k) {
      forall p | Walk(g, p) && p[0] == id
        ensures |p| <= k + 1 && p[|p| - 1] in g
      {
        WalkStaysInside(g, p);
      }
    }
  }

  lemma WalkStaysInside(g: Graph, p: seq<string>)
    requires Closed(g) && Walk(g, p)
    ensures p[|p| - 1] in g
  {
    if |p| > 1 {
      var i := |p| - 2;
      assert Step(g, p, i);
    }
  }

  // ---------------------------------------------------------------- blocked nodes

  lemma WalkSlice(g: Graph, p: seq<string>, i: nat, j: nat)
    requires Walk(g, p) && i < j < |p|
    ensures Walk(g, p[i..j + 1])
  {
    var q := p[i..j + 1];
    assert Step(g, p, i);
    forall k | 0 <= k < |q| - 1
      ensures Step(g, q, k)
    {
      assert Step(g, p, i + k);
    }
  }

  lemma {:induction false} DoneDropsAlongWalk(g: Graph, p: seq<string>, k: nat)
    requires Walk(g, p) && p[0] in Done(g, k)
    ensures |p| <= k && p[|p| - 1] in Done(g, k + 1 - |p|)
  {
    DoneByWalks(g, k, p[0]);
    if |p| > 1 {
      assert Step(g, p, 0);
      assert p[1] in Done(g, k - 1);
      DoneGrows(g, k - 1);
      WalkTail(g, p);
      DoneDropsAlongWalk(g, p[1..], k - 1);
    }
  }

  lemma {:induction false} NotDoneOnCycle(g: Graph, p: seq<string>, k: nat)
    requires Walk(g, p) && |p| > 1 && p[0] == p[|p| - 1]
    ensures p[0] !in Done(g, k)
  {
    if p[0] in Done(g, k) {
      DoneDropsAlongWalk(g, p, k);
      NotDoneOnCycle(g, p, k + 1 - |p|);
    }
  }

  lemma DoneMeansNotBlocked(g: Graph, id: string, k: nat)
    requires id in Done(g, k)
    ensures !Blocked(g, id)
  {
    if Blocked(g, id) {
      var p :| Walk(g, p) && p[0] == id && (p[|p| - 1] !in g || Repeats(p));
      DoneByWalks(g, k, id);
      var i, j :| 0 <= i < j < |p| && p[i] == p[j];
      var head := p[..i + 1];
      assert Walk(g, head) by {
        if i > 0 { WalkSlice(g, p, 0, i); assert p[0..i + 1] == head; }
      }
      DoneDropsAlongWalk(g, head, k);
      WalkSlice(g, p, i, j);
      NotDoneOnCycle(g, p[i..j + 1], k + 1 - |head|);
    }
  }

  ghost predicate HeldUp(g: Graph, stuck: set<string>, id: string) {
    id in g && exists d :: d in g[id] && (d in stuck || d !in g)
  }

  // In a stuck set every node waits for another stuck node, or for an id
  // outside the graph: walk on until the walk leaves or is as long as asked.
  lemma {:induction false} WalkInStuckSet(g: Graph, stuck: set<string>, id: string, len: nat)
    returns (p: seq<string>)
    requires id in stuck && len > 0
    requires forall x :: x in stuck ==> HeldUp(g, stuck, x)
    ensures Walk(g, p) && p[0] == id
    ensures p[|p| - 1] !in g || (|p| == len && forall x :: x in p ==> x in stuck)
    decreases len
  {
    if len == 1 {
      p := [id];
    } else {
      assert HeldUp(g, stuck, id);
      var d :| d in g[id] && (d in stuck || d !in g);
      if d !in g {
        WalkCons(g, id, [d]);
        p := [id] + [d];
      } else {
        var q := WalkInStuckSet(g, stuck, d, len - 1);
        WalkCons(g, id, q);
        p := [id] + q;
      }
    }
  }

  lemma {:induction false} LongSeqRepeats(p: seq<string>, s: set<string>)
    requires |p| > |s| && forall x :: x in p ==> x in s
    ensures Repeats(p)
  {
    var last := p[|p| - 1];
    var front := p[..|p| - 1];
    if last in front {
      var i :| 0 <= i < |front| && front[i] == last;
      assert p[i] == p[|p| - 1];
    } else {
      LongSeqRepeats(front, s - {last});
      var i, j :| 0 <= i < j < |front| && front[i] == front[j];
      assert p[i] == p[j];
    }
  }

  lemma StuckIsBlocked(g: Graph, k: nat, id: string)
    requires Done(g, k + 1) == Done(g, k)
    requires id in g && id !in Done(g, k)
    ensures Blocked(g, id)
  {
    var stuck := g.Keys - Done(g, k);
    forall x | x in stuck
      ensures HeldUp(g, stuck, x)
    {
      assert x !in Done(g, k + 1);
    }
    var p := WalkInStuckSet(g, stuck, id, |stuck| + 1);
    if p[|p| - 1] in g {
      LongSeqRepeats(p, stuck);
    }
  }

  lemma ProperSubsetSmaller(a: set<string>, b: set<string>)
    requires a < b
    ensures |a| < |b|
  {
    assert b == a + (b - a);
    assert |b| == |a| + |b - a|;
  }

  // Rounds that finish nothing end the schedule; until then each finishes a node.
  lemma {:induction false} EnoughRounds(g: Graph, k: nat)
    ensures |Done(g, k)| >= k || Done(g, k + 1) == Done(g, k)
  {
    if k > 0 {
      var a, b := Done(g, k - 1), Done(g, k);
      EnoughRounds(g, k - 1);
      DoneGrows(g, k - 1);
      if a == b {
        DoneStays(g, k - 1, k + 1);
      } else {
        ProperSubsetSmaller(a, b);
      }
    }
  }

  lemma DoneIsStable(g: Graph)
    ensures Done(g, |g| + 1) == Done(g, |g|)
  {
    EnoughRounds(g, |g|);
    DoneGrows(g, |g|);
    if |Done(g, |g|)| >= |g| {
      SubsetSameSize(Done(g, |g|), g.Keys);
    }
  }

  lemma SubsetSameSize(a: set<string>, b: set<string>)
    requires a <= b && |a| >= |b|
    ensures a == b
  {
    assert b == a + (b - a);
    assert |b| == |a| + |b - a|;
  }

  // Exactly the nodes that are not blocked are ever finished.
  lemma FinishedIffNotBlocked(g: Graph, id: string)
    requires id in g
    ensures id in Done(g, |g|) <==> !Blocked(g, id)
  {
    if id in Done(g, |g|) {
      DoneMeansNotBlocked(g, id, |g|);
    } else {
      DoneIsStable(g);
      StuckIsBlocked(g, |g|, id);
    }
  }

  // With no dangling dependency a graph finishes completely iff it has no cycle.
  lemma AcyclicFinishes(g: Graph)
    requires Closed(g)
    ensures !HasCycle(g) <==> Done(g, |g|) == g.Keys
  {
    DoneGrows(g, |g|);
    if HasCycle(g) {
      var p :| Walk(g, p) && |p| > 1 && p[0] == p[|p| - 1];
      NotDoneOnCycle(g, p, |g|);
    } else {
      forall id | id in g
        ensures id in Done(g, |g|)
      {
        FinishedIffNotBlocked(g, id);
        if Blocked(g, id) {
          var p :| Walk(g, p) && p[0] == id && (p[|p| - 1] !in g || Repeats(p));
          WalkStaysInside(g, p);
          var i, j :| 0 <= i < j < |p| && p[i] == p[j];
          WalkSlice(g, p, i, j);
        }
      }
    }
  }

  // Once a round finishes nothing, what is left is exactly what is blocked.
  lemma LeftIsBlocked(g: Graph, k: nat)
    requires Wave(g, k) == {}
    ensures g.Keys - Done(g, k) == BlockedNodes(g)
  {
    DoneGrows(g, k);
    assert Done(g, k + 1) == Done(g, k) + Wave(g, k);
    forall id | id in g
      ensures id !in Done(g, k) <==> Blocked(g, id)
    {
      if id in Done(g, k) {
        DoneMeansNotBlocked(g, id, k);
      } else {
        StuckIsBlocked(g, k, id);
      }
    }
  }

  lemma AllDoneNoneBlocked(g: Graph, k: nat)
    requires Done(g, k) == g.Keys
    ensures BlockedNodes(g) == {}
  {
    forall id | id in g
      ensures !Blocked(g, id)
    {
      DoneMeansNotBlocked(g, id, k);
    }
  }

  lemma SmallerOrEqual(a: set<string>, b: set<string>)
    requires a <= b
    ensures |a| <= |b|
  {
    if a != b {
      ProperSubsetSmaller(a, b);
    }
  }
}
