// The in-degree executor, the wave loop of the parent turn and the console's
// layers() are three programs for one schedule.
module ScheduleAgreement {
  import opened Graph
  import opened Schedulers
  import opened DagExecutor
  import opened Events
  import opened PlanParser

  lemma {:induction false} KnownAll(raw: seq<string>, ids: set<string>)
    requires forall d :: d in raw ==> d in ids
    ensures KnownOnly(raw, ids) == raw
  {
    if raw != [] {
      assert raw == raw[..|raw| - 1] + [raw[|raw| - 1]];
      KnownAll(raw[..|raw| - 1], ids);
    }
  }

  lemma CollectsDepsOf(items: seq<Node>, g: Graph, a: Node)
    requires UniqueIds(items) && g == GraphOf(items) && Describes(items, g) && Closed(g) && a in items
    ensures CollectDeps(items)[a.id] == g[a.id]
  {
    KnownAll(a.deps, IdsOf(items));
  }

  // With no dangling dependency the executor works on the plan as written.
  lemma CollectsWholePlan(items: seq<Node>)
    requires UniqueIds(items) && Closed(GraphOf(items))
    ensures CollectDeps(items) == GraphOf(items)
  {
    var g := GraphOf(items);
    GraphOfDescribes(items);
    var c := CollectDeps(items);
    forall id | id in g
      ensures c[id] == g[id]
    {
      assert id in IdsOf(items);
      var a :| a in items && a.id == id;
      CollectsDepsOf(items, g, a);
    }
    assert c.Keys == g.Keys;
  }

  // A schedule of all rounds is as long as the rounds are not empty.
  lemma {:induction false} NoMoreWaves(g: Graph, k: nat, waves: seq<set<string>>)
    requires AllWaves(g, waves) && Done(g, k) == g.Keys
    ensures |waves| <= k
  {
    if |waves| > k {
      WaveAt(g, waves, k);
      DoneGrows(g, k);
    }
  }

  lemma SameWaves(g: Graph, a: seq<set<string>>, b: seq<set<string>>)
    requires AllWaves(g, a) && AllWaves(g, b)
    requires Done(g, |a|) == g.Keys && Done(g, |b|) == g.Keys
    ensures a == b
  {
    NoMoreWaves(g, |a|, b);
    NoMoreWaves(g, |b|, a);
    forall k | 0 <= k < |a|
      ensures a[k] == b[k]
    {
      WaveAt(g, a, k);
      WaveAt(g, b, k);
    }
  }

  lemma LayerIds(items: seq<Node>, g: Graph, k: nat, layer: seq<Node>)
    requires Describes(items, g) && layer == Pick(items, Wave(g, k))
    ensures IdsOf(layer) == Wave(g, k)
  {
    PickMembers(items, Wave(g, k));
    DoneGrows(g, k);
    DoneGrows(g, k + 1);
    forall id | id in Wave(g, k)
      ensures id in IdsOf(layer)
    {
      assert id in IdsOf(items);
      var a :| a in items && a.id == id;
      assert a in layer;
    }
  }

  // The rounds the drawn layers stand for.
  function LayerSets(layers: seq<seq<Node>>): seq<set<string>> {
    seq(|layers|, k requires 0 <= k < |layers| => IdsOf(layers[k]))
  }

  lemma {:induction false} LayersAreWaves(items: seq<Node>, g: Graph, layers: seq<seq<Node>>)
    requires Describes(items, g) && Rounds(items, g, layers)
    ensures AllWaves(g, LayerSets(layers))
  {
    if layers != [] {
      var n := |layers| - 1;
      LayersAreWaves(items, g, layers[..n]);
      LayerIds(items, g, n, layers[n]);
      assert LayerSets(layers)[..n] == LayerSets(layers[..n]);
      assert layers[n][0] in layers[n];
      assert layers[n][0].id in IdsOf(layers[n]);
    }
  }

  // Each round holds exactly the agents whose longest dependency chain has as
  // many links as there were rounds before it.
  ghost predicate ByLevel(g: Graph, waves: seq<set<string>>) {
    forall k, id :: 0 <= k < |waves| ==> (id in waves[k] <==> id in g && LongestWalk(g, id, k))
  }

  ghost predicate Covers(g: Graph, waves: seq<set<string>>) {
    forall id :: id in g ==> exists k :: 0 <= k < |waves| && id in waves[k]
  }

  lemma WavesByLevel(g: Graph, waves: seq<set<string>>)
    requires Closed(g) && AllWaves(g, waves)
    ensures ByLevel(g, waves)
  {
    forall k, id | 0 <= k < |waves|
      ensures id in waves[k] <==> id in g && LongestWalk(g, id, k)
    {
      WaveAt(g, waves, k);
      WaveIsLevel(g, k, id);
      DoneGrows(g, k);
    }
  }

  lemma {:induction false} SomeWave(g: Graph, n: nat, id: string) returns (k: nat)
    requires id in Done(g, n)
    ensures k < n && id in Wave(g, k)
  {
    if id in Done(g, n - 1) {
      k := SomeWave(g, n - 1, id);
    } else {
      k := n - 1;
    }
  }

  lemma WavesCover(g: Graph, waves: seq<set<string>>)
    requires AllWaves(g, waves) && Done(g, |waves|) == g.Keys
    ensures Covers(g, waves)
  {
    forall id | id in g
      ensures exists k :: 0 <= k < |waves| && id in waves[k]
    {
      var k := SomeWave(g, |waves|, id);
      WaveAt(g, waves, k);
    }
  }

  lemma LayersAgree(items: seq<Node>, g: Graph, layers: seq<seq<Node>>)
    requires Describes(items, g) && Closed(g) && !HasCycle(g) && LayeredBy(items, g, layers)
    ensures AllWaves(g, LayerSets(layers)) && Done(g, |layers|) == g.Keys
  {
    AcyclicFinishes(g);
    AllDoneNoneBlocked(g, |g|);
    LayersAreWaves(items, g, layers);
  }

  // On an acyclic plan with distinct ids and no dangling dependency: the same
  // rounds from all three, one for each length of dependency chain, and every
  // agent in exactly one of them.
  lemma ThreeSchedulersAgree(items: seq<Node>, g: Graph, dag: seq<set<string>>, turn: seq<set<string>>, layers: seq<seq<Node>>)
    requires UniqueIds(items) && g == GraphOf(items) && Closed(g) && !HasCycle(g)
    requires AllWaves(CollectDeps(items), dag) && Done(CollectDeps(items), |dag|) == IdsOf(items)
    requires AllWaves(g, turn) && Done(g, |turn|) == g.Keys
    requires LayeredBy(items, g, layers)
    ensures dag == turn == LayerSets(layers)
    ensures ByLevel(g, dag) && Covers(g, dag)
  {
    GraphOfDescribes(items);
    CollectsWholePlan(items);
    SameWaves(g, dag, turn);
    LayersAgree(items, g, layers);
    SameWaves(g, dag, LayerSets(layers));
    WavesByLevel(g, dag);
    WavesCover(g, dag);
  }

  // ------------------------------------------------------------ the same plan for all three

  function NodesOf(agents: seq<PlanEntry>): seq<Node> {
    seq(|agents|, i requires 0 <= i < |agents| => Node(agents[i].id, agents[i].dependsOn))
  }

  lemma {:induction false} SameGraph(agents: seq<PlanEntry>)
    ensures GraphOf(NodesOf(agents)) == GraphOfEntries(agents)
  {
    if agents != [] {
      SameGraph(agents[..|agents| - 1]);
      assert NodesOf(agents)[..|agents| - 1] == NodesOf(agents[..|agents| - 1]);
    }
  }
}
