// Plans as lists of nodes, and the console's layers()
// (console/src/lib/transcript.ts), proved against the rounds of Graph. The
// in-degree executor is in DagExecutor.dfy, the wave loop of the parent turn
// in TurnWaves.dfy.
module Schedulers {
  import opened Graph

  datatype Node = Node(id: string, deps: seq<string>)

  function IdsOf(plan: seq<Node>): set<string> {
    set a | a in plan :: a.id
  }

  ghost predicate UniqueIds(plan: seq<Node>) {
    forall i, j :: 0 <= i < j < |plan| ==> plan[i].id != plan[j].id
  }

  // A dict keyed by id: a repeated id keeps its first place but its last value.
  function GraphOf(plan: seq<Node>): Graph {
    if plan == [] then map[]
    else
      var last := plan[|plan| - 1];
      GraphOf(plan[..|plan| - 1])[last.id := last.deps]
  }

  ghost predicate Describes(plan: seq<Node>, g: Graph) {
    IdsOf(plan) == g.Keys && forall a :: a in plan ==> a.id in g && g[a.id] == a.deps
  }

  lemma {:induction false} GraphOfKeys(plan: seq<Node>)
    ensures GraphOf(plan).Keys == IdsOf(plan)
  {
    if plan != [] {
      GraphOfKeys(plan[..|plan| - 1]);
      assert plan == plan[..|plan| - 1] + [plan[|plan| - 1]];
    }
  }

  lemma {:induction false} GraphOfDescribes(plan: seq<Node>)
    requires UniqueIds(plan)
    ensures Describes(plan, GraphOf(plan))
  {
    GraphOfKeys(plan);
    if plan != [] {
      GraphOfDescribes(plan[..|plan| - 1]);
      assert plan == plan[..|plan| - 1] + [plan[|plan| - 1]];
    }
  }

  // ------------------------------------------------------------ plan order

  // The nodes of `items` whose id is in `keep`, in plan order.
  function Pick(items: seq<Node>, keep: set<string>): seq<Node> {
    if items == [] then []
    else (if items[0].id in keep then [items[0]] else []) + Pick(items[1..], keep)
  }

  lemma {:induction false} PickConcat(x: seq<Node>, y: seq<Node>, keep: set<string>)
    ensures Pick(x + y, keep) == Pick(x, keep) + Pick(y, keep)
  {
    if x == [] {
      assert x + y == y;
    } else {
      var head := if x[0].id in keep then [x[0]] else [];
      PickConcat(x[1..], y, keep);
      assert (x + y)[1..] == x[1..] + y;
      assert head + (Pick(x[1..], keep) + Pick(y, keep)) == head + Pick(x[1..], keep) + Pick(y, keep);
    }
  }

  lemma {:induction false} PickPick(items: seq<Node>, a: set<string>, b: set<string>)
    ensures Pick(Pick(items, a), b) == Pick(items, a * b)
  {
    if items != [] {
      PickPick(items[1..], a, b);
      var head := if items[0].id in a then [items[0]] else [];
      PickConcat(head, Pick(items[1..], a), b);
    }
  }

  lemma {:induction false} PickMembers(items: seq<Node>, keep: set<string>)
    ensures forall a :: a in Pick(items, keep) <==> a in items && a.id in keep
  {
    if items != [] {
      PickMembers(items[1..], keep);
    }
  }

  lemma {:induction false} PickAll(items: seq<Node>, keep: set<string>)
    requires IdsOf(items) <= keep
    ensures Pick(items, keep) == items
  {
    if items != [] {
      assert items[0].id in IdsOf(items);
      assert IdsOf(items[1..]) <= keep by {
        forall x | x in IdsOf(items[1..]) ensures x in keep { assert x in IdsOf(items); }
      }
      PickAll(items[1..], keep);
    }
  }

  lemma {:induction false} PickSame(items: seq<Node>, a: set<string>, b: set<string>)
    requires forall x :: x in items ==> (x.id in a <==> x.id in b)
    ensures Pick(items, a) == Pick(items, b)
  {
    if items != [] {
      PickSame(items[1..], a, b);
    }
  }

  lemma {:induction false} PickShrinks(items: seq<Node>, keep: set<string>, out: Node)
    requires out in items && out.id !in keep
    ensures |Pick(items, keep)| < |items|
  {
    if items[0] == out {
      PickBound(items[1..], keep);
    } else {
      PickShrinks(items[1..], keep, out);
    }
  }

  lemma {:induction false} PickBound(items: seq<Node>, keep: set<string>)
    ensures |Pick(items, keep)| <= |items|
  {
    if items != [] {
      PickBound(items[1..], keep);
    }
  }

  lemma PickNone(items: seq<Node>, keep: set<string>)
    requires Pick(items, keep) == []
    ensures IdsOf(items) !! keep
  {
    PickMembers(items, keep);
    forall id | id in IdsOf(items)
      ensures id !in keep
    {
      var a :| a in items && a.id == id;
      assert a !in Pick(items, keep);
    }
  }

  function ReadyIds(rest: seq<Node>, placed: set<string>): set<string> {
    set a | a in rest && (forall d :: d in a.deps ==> d in placed) :: a.id
  }

  // ------------------------------------------------------------ layers()

  // The first |out| rounds, each in plan order and none of them empty.
  ghost predicate Rounds(items: seq<Node>, g: Graph, out: seq<seq<Node>>) {
    out != [] ==>
      && Rounds(items, g, out[..|out| - 1])
      && IsRound(items, g, |out| - 1, out[|out| - 1])
  }

  ghost predicate IsRound(items: seq<Node>, g: Graph, k: nat, layer: seq<Node>) {
    layer != [] && layer == Pick(items, Wave(g, k))
  }

  lemma {:induction false} RoundAt(items: seq<Node>, g: Graph, out: seq<seq<Node>>, k: nat)
    requires Rounds(items, g, out) && k < |out|
    ensures out[k] != [] && out[k] == Pick(items, Wave(g, k))
  {
    if k < |out| - 1 {
      RoundAt(items, g, out[..|out| - 1], k);
    }
  }

  // What layers() draws: all rounds, then everything blocked in one last layer.
  ghost predicate LayeredBy(items: seq<Node>, g: Graph, out: seq<seq<Node>>) {
    if BlockedNodes(g) == {} then
      Rounds(items, g, out) && Done(g, |out|) == g.Keys
    else
      && out != []
      && Rounds(items, g, out[..|out| - 1])
      && out[|out| - 1] == Pick(items, BlockedNodes(g))
      && Done(g, |out| - 1) == g.Keys - BlockedNodes(g)
  }

  // One round: the ready nodes are the next wave, and removing them leaves the rest.
  lemma RoundAdvances(items: seq<Node>, g: Graph, k: nat, ready: seq<Node>, rest: seq<Node>)
    requires Describes(items, g)
    requires rest == Pick(items, g.Keys - Done(g, k))
    requires ready == Pick(rest, ReadyIds(rest, Done(g, k)))
    ensures ready == Pick(items, Wave(g, k))
    ensures IdsOf(ready) == Wave(g, k)
    ensures Done(g, k) + IdsOf(ready) == Done(g, k + 1)
    ensures Pick(rest, IdsOf(rest) - IdsOf(ready)) == Pick(items, g.Keys - Done(g, k + 1))
  {
    var left := g.Keys - Done(g, k);
    DoneGrows(g, k);
    PickMembers(items, left);
    assert ReadyIds(rest, Done(g, k)) == Wave(g, k) by {
      forall id | id in Wave(g, k)
        ensures id in ReadyIds(rest, Done(g, k))
      {
        assert id in IdsOf(items);
        var a :| a in items && a.id == id;
        assert a in rest;
      }
    }
    PickPick(items, left, Wave(g, k));
    assert left * Wave(g, k) == Wave(g, k);
    PickMembers(items, Wave(g, k));
    PickSame(rest, IdsOf(rest) - IdsOf(ready), g.Keys - Done(g, k + 1));
    PickPick(items, left, g.Keys - Done(g, k + 1));
    assert left * (g.Keys - Done(g, k + 1)) == g.Keys - Done(g, k + 1);
  }

  lemma BlockedLast(items: seq<Node>, g: Graph, out: seq<seq<Node>>, rest: seq<Node>)
    requires Describes(items, g) && Rounds(items, g, out) && rest != []
    requires Wave(g, |out|) == {}
    requires rest == Pick(items, g.Keys - Done(g, |out|))
    ensures LayeredBy(items, g, out + [rest])
  {
    PickMembers(items, g.Keys - Done(g, |out|));
    assert rest[0] in rest;
    LeftIsBlocked(g, |out|);
    DoneGrows(g, |out|);
    assert (out + [rest])[..|out|] == out;
  }

  lemma NothingLeft(items: seq<Node>, g: Graph, out: seq<seq<Node>>)
    requires Describes(items, g) && Rounds(items, g, out)
    requires Pick(items, g.Keys - Done(g, |out|)) == []
    ensures LayeredBy(items, g, out)
  {
    PickNone(items, g.Keys - Done(g, |out|));
    DoneGrows(g, |out|);
    AllDoneNoneBlocked(g, |out|);
  }

  ghost predicate Placing(items: seq<Node>, g: Graph, out: seq<seq<Node>>, placed: set<string>, rest: seq<Node>) {
    && Describes(items, g)
    && Rounds(items, g, out)
    && placed == Done(g, |out|) <= g.Keys
    && rest == Pick(items, g.Keys - placed)
  }

  lemma PlaceRound(items: seq<Node>, g: Graph, out: seq<seq<Node>>, placed: set<string>, rest: seq<Node>, ready: seq<Node>)
    requires Placing(items, g, out, placed, rest)
    requires ready == Pick(rest, ReadyIds(rest, placed)) && ready != []
    ensures Placing(items, g, out + [ready], placed + IdsOf(ready), Pick(rest, IdsOf(rest) - IdsOf(ready)))
  {
    RoundAdvances(items, g, |out|, ready, rest);
    DoneGrows(g, |out| + 1);
    RoundsSnoc(items, g, out, ready);
  }

  lemma RoundsSnoc(items: seq<Node>, g: Graph, out: seq<seq<Node>>, layer: seq<Node>)
    requires Rounds(items, g, out) && IsRound(items, g, |out|, layer)
    ensures Rounds(items, g, out + [layer])
  {
    assert (out + [layer])[..|out|] == out;
  }

  // ------------------------------------------------------------ layers() on any list

  predicate IsReady(a: Node, placed: set<string>) {
    forall d :: d in a.deps ==> d in placed
  }

  predicate AllReady(layer: seq<Node>, placed: set<string>) {
    forall a :: a in layer ==> IsReady(a, placed)
  }

  predicate NoneReady(layer: seq<Node>, placed: set<string>) {
    forall a :: a in layer ==> !IsReady(a, placed)
  }

  function ReadyOf(rest: seq<Node>, placed: set<string>): seq<Node> {
    if rest == [] then []
    else (if IsReady(rest[0], placed) then [rest[0]] else []) + ReadyOf(rest[1..], placed)
  }

  function Without(rest: seq<Node>, layer: seq<Node>): seq<Node> {
    if rest == [] then []
    else (if rest[0] in layer then [] else [rest[0]]) + Without(rest[1..], layer)
  }

  lemma {:induction false} ReadyMembers(rest: seq<Node>, placed: set<string>)
    ensures forall a :: a in ReadyOf(rest, placed) <==> a in rest && IsReady(a, placed)
  {
    if rest != [] {
      ReadyMembers(rest[1..], placed);
    }
  }

  lemma {:induction false} WithoutMembers(rest: seq<Node>, layer: seq<Node>)
    ensures forall a :: a in Without(rest, layer) <==> a in rest && a !in layer
  {
    if rest != [] {
      WithoutMembers(rest[1..], layer);
    }
  }

  function Listed(items: seq<Node>, a: Node): nat {
    if items == [] then 0 else (if items[0] == a then 1 else 0) + Listed(items[1..], a)
  }

  lemma {:induction false} ListedConcat(x: seq<Node>, y: seq<Node>, a: Node)
    ensures Listed(x + y, a) == Listed(x, a) + Listed(y, a)
  {
    if x == [] {
      assert x + y == y;
    } else {
      assert (x + y)[1..] == x[1..] + y;
      ListedConcat(x[1..], y, a);
    }
  }

  // Taking out what is ready takes out every copy of it.
  lemma {:induction false} Divided(rest: seq<Node>, layer: seq<Node>, placed: set<string>, a: Node)
    requires forall b :: b in rest ==> (b in layer <==> IsReady(b, placed))
    ensures Listed(ReadyOf(rest, placed), a) + Listed(Without(rest, layer), a) == Listed(rest, a)
  {
    if rest != [] {
      Divided(rest[1..], layer, placed, a);
      ListedConcat(if IsReady(rest[0], placed) then [rest[0]] else [], ReadyOf(rest[1..], placed), a);
      ListedConcat(if rest[0] in layer then [] else [rest[0]], Without(rest[1..], layer), a);
    }
  }

  lemma {:induction false} WithoutAll(rest: seq<Node>, layer: seq<Node>)
    requires forall a :: a in rest ==> a in layer
    ensures Without(rest, layer) == []
  {
    if rest != [] {
      WithoutAll(rest[1..], layer);
    }
  }

  lemma {:induction false} WithoutShrinks(rest: seq<Node>, layer: seq<Node>)
    ensures |Without(rest, layer)| <= |rest|
    ensures (exists a :: a in rest && a in layer) ==> |Without(rest, layer)| < |rest|
  {
    if rest != [] {
      WithoutShrinks(rest[1..], layer);
    }
  }

  function Flat(out: seq<seq<Node>>): seq<Node> {
    if out == [] then [] else Flat(out[..|out| - 1]) + out[|out| - 1]
  }

  lemma FlatSnoc(out: seq<seq<Node>>, layer: seq<Node>)
    ensures Flat(out + [layer]) == Flat(out) + layer
  {
    assert (out + [layer])[..|out|] == out;
  }

  // The ids of the first k layers.
  function Seen(out: seq<seq<Node>>, k: nat): set<string>
    requires k <= |out|
  {
    IdsOf(Flat(out[..k]))
  }

  lemma SeenStays(out: seq<seq<Node>>, layer: seq<Node>, k: nat)
    requires k <= |out|
    ensures Seen(out + [layer], k) == Seen(out, k)
  {
    assert (out + [layer])[..k] == out[..k];
  }

  lemma SeenMore(out: seq<seq<Node>>, layer: seq<Node>)
    ensures Seen(out + [layer], |out| + 1) == Seen(out, |out|) + IdsOf(layer)
  {
    assert (out + [layer])[..|out| + 1] == out + [layer] && out[..|out|] == out;
    FlatSnoc(out, layer);
    IdsOfConcat(Flat(out), layer);
  }

  // Layer k holds what could not be placed earlier and can be placed now; or
  // it is the last one, and nothing in it can be placed.
  ghost predicate InTime(out: seq<seq<Node>>, k: nat)
    requires k < |out|
  {
    && out[k] != []
    && (k > 0 ==> NoneReady(out[k], Seen(out, k - 1)))
    && (AllReady(out[k], Seen(out, k))
        || (k == |out| - 1 && NoneReady(out[k], Seen(out, k))))
  }

  // Every item is drawn, as often as it is listed, each as early as can be.
  ghost predicate Drawn(items: seq<Node>, out: seq<seq<Node>>) {
    (forall a :: Listed(Flat(out), a) == Listed(items, a)) && forall k :: 0 <= k < |out| ==> InTime(out, k)
  }

  ghost predicate Drawing(items: seq<Node>, out: seq<seq<Node>>, placed: set<string>, rest: seq<Node>) {
    && placed == Seen(out, |out|)
    && (forall a :: Listed(Flat(out), a) + Listed(rest, a) == Listed(items, a))
    && (forall k :: 0 <= k < |out| ==> InTime(out, k))
    && (out != [] && rest != [] ==>
          && NoneReady(rest, Seen(out, |out| - 1))
          && AllReady(out[|out| - 1], Seen(out, |out| - 1)))
  }

  lemma InTimeStays(out: seq<seq<Node>>, layer: seq<Node>, k: nat)
    requires k < |out| && InTime(out, k)
    requires k == |out| - 1 ==> AllReady(out[k], Seen(out, k))
    ensures InTime(out + [layer], k)
  {
    SeenStays(out, layer, k);
    if k > 0 {
      SeenStays(out, layer, k - 1);
    }
  }

  lemma NewInTime(out: seq<seq<Node>>, layer: seq<Node>)
    requires layer != []
    requires out != [] ==> NoneReady(layer, Seen(out, |out| - 1))
    requires AllReady(layer, Seen(out, |out|)) || NoneReady(layer, Seen(out, |out|))
    ensures InTime(out + [layer], |out|)
  {
    SeenStays(out, layer, |out|);
    if out != [] {
      SeenStays(out, layer, |out| - 1);
    }
  }

  ghost predicate NextLayer(rest: seq<Node>, placed: set<string>, layer: seq<Node>) {
    layer != [] && layer == if ReadyOf(rest, placed) != [] then ReadyOf(rest, placed) else rest
  }

  lemma LayerListed(rest: seq<Node>, placed: set<string>, layer: seq<Node>, a: Node)
    requires NextLayer(rest, placed, layer)
    ensures Listed(layer, a) + Listed(Without(rest, layer), a) == Listed(rest, a)
  {
    ReadyMembers(rest, placed);
    if ReadyOf(rest, placed) != [] {
      Divided(rest, layer, placed, a);
    } else {
      WithoutAll(rest, layer);
    }
  }

  lemma LayersInTime(out: seq<seq<Node>>, layer: seq<Node>)
    requires forall k :: 0 <= k < |out| ==> InTime(out, k)
    requires out != [] ==> AllReady(out[|out| - 1], Seen(out, |out| - 1)) && InTime(out + [layer], |out|)
    requires out == [] ==> InTime(out + [layer], 0)
    ensures forall k :: 0 <= k < |out + [layer]| ==> InTime(out + [layer], k)
  {
    forall k | 0 <= k < |out|
      ensures InTime(out + [layer], k)
    {
      InTimeStays(out, layer, k);
    }
  }

  lemma LayerTimed(rest: seq<Node>, placed: set<string>, layer: seq<Node>)
    requires NextLayer(rest, placed, layer)
    ensures if ReadyOf(rest, placed) != [] then AllReady(layer, placed) && NoneReady(Without(rest, layer), placed)
      else NoneReady(layer, placed) && Without(rest, layer) == []
    ensures forall a :: a in layer ==> a in rest
  {
    ReadyMembers(rest, placed);
    WithoutMembers(rest, layer);
    if ReadyOf(rest, placed) == [] {
      WithoutAll(rest, layer);
    }
  }

  lemma DrawLayer(items: seq<Node>, out: seq<seq<Node>>, placed: set<string>, rest: seq<Node>, layer: seq<Node>)
    requires Drawing(items, out, placed, rest) && rest != [] && NextLayer(rest, placed, layer)
    ensures Drawing(items, out + [layer], placed + IdsOf(layer), Without(rest, layer))
  {
    LayerTimed(rest, placed, layer);
    NewInTime(out, layer);
    LayersInTime(out, layer);
    SeenMore(out, layer);
    SeenStays(out, layer, |out|);
    FlatSnoc(out, layer);
    forall a
      ensures Listed(Flat(out + [layer]), a) + Listed(Without(rest, layer), a) == Listed(items, a)
    {
      ListedConcat(Flat(out), layer, a);
      LayerListed(rest, placed, layer, a);
    }
  }

  lemma IdsOfConcat(x: seq<Node>, y: seq<Node>)
    ensures IdsOf(x + y) == IdsOf(x) + IdsOf(y)
  {
    forall id | id in IdsOf(x) + IdsOf(y)
      ensures id in IdsOf(x + y)
    {
      var a :| (a in x || a in y) && a.id == id;
      assert a in x + y;
    }
  }

  // With distinct ids, filtering specs and filtering their ids is the same.
  lemma {:induction false} ReadyById(items: seq<Node>, rest: seq<Node>, placed: set<string>)
    requires UniqueIds(items) && forall a :: a in rest ==> a in items
    ensures ReadyOf(rest, placed) == Pick(rest, ReadyIds(rest, placed))
  {
    ReadyByIdIn(items, rest, rest, placed);
  }

  lemma SameId(items: seq<Node>, a: Node, b: Node)
    requires UniqueIds(items) && a in items && b in items && a.id == b.id
    ensures a == b
  {
  }

  lemma {:induction false} ReadyByIdIn(items: seq<Node>, part: seq<Node>, rest: seq<Node>, placed: set<string>)
    requires UniqueIds(items) && (forall a :: a in rest ==> a in items) && forall a :: a in part ==> a in rest
    ensures ReadyOf(part, placed) == Pick(part, ReadyIds(rest, placed))
  {
    if part != [] {
      ReadyByIdIn(items, part[1..], rest, placed);
      assert part[0] in part;
      if part[0].id in ReadyIds(rest, placed) {
        var b :| b in rest && IsReady(b, placed) && b.id == part[0].id;
        SameId(items, part[0], b);
      }
    }
  }

  lemma {:induction false} WithoutById(items: seq<Node>, rest: seq<Node>, whole: seq<Node>, layer: seq<Node>)
    requires UniqueIds(items) && (forall a :: a in rest ==> a in items && a in whole) && forall a :: a in layer ==> a in items
    ensures Without(rest, layer) == Pick(rest, IdsOf(whole) - IdsOf(layer))
  {
    if rest != [] {
      WithoutById(items, rest[1..], whole, layer);
      assert rest[0] in rest && rest[0].id in IdsOf(whole);
      if rest[0].id in IdsOf(layer) {
        var b :| b in layer && b.id == rest[0].id;
        SameId(items, rest[0], b);
      }
    }
  }

  // One layer, on a plan with distinct ids.
  ghost predicate Rounding(items: seq<Node>, out: seq<seq<Node>>, placed: set<string>, rest: seq<Node>) {
    (forall a :: a in rest ==> a in items) && Placing(items, GraphOf(items), out, placed, rest)
  }

  lemma RoundDrawn(items: seq<Node>, out: seq<seq<Node>>, placed: set<string>, rest: seq<Node>, ready: seq<Node>, left: seq<Node>)
    requires UniqueIds(items) && Rounding(items, out, placed, rest)
    requires ready == ReadyOf(rest, placed) && ready != [] && left == Without(rest, ready)
    ensures Rounding(items, out + [ready], placed + IdsOf(ready), left)
  {
    ReadyById(items, rest, placed);
    ReadyMembers(rest, placed);
    WithoutById(items, rest, rest, ready);
    WithoutMembers(rest, ready);
    PlaceRound(items, GraphOf(items), out, placed, rest, ready);
  }

  lemma RestDrawn(items: seq<Node>, out: seq<seq<Node>>, placed: set<string>, rest: seq<Node>)
    requires UniqueIds(items) && Rounding(items, out, placed, rest) && rest != [] && ReadyOf(rest, placed) == []
    ensures LayeredBy(items, GraphOf(items), out + [rest])
  {
    ReadyById(items, rest, placed);
    RoundAdvances(items, GraphOf(items), |out|, [], rest);
    BlockedLast(items, GraphOf(items), out, rest);
  }

  lemma NothingDrawn(items: seq<Node>)
    ensures Drawing(items, [], {}, items)
    ensures UniqueIds(items) ==> Rounding(items, [], {}, items)
  {
    if UniqueIds(items) {
      GraphOfDescribes(items);
      PickAll(items, GraphOf(items).Keys);
      assert GraphOf(items).Keys - {} == GraphOf(items).Keys;
    }
  }

  // Any list is drawn completely and as early as can be; and if its ids are
  // distinct, in the rounds of the plan and in plan order.
  method Layers(items: seq<Node>) returns (out: seq<seq<Node>>)
    ensures Drawn(items, out)
    ensures UniqueIds(items) ==> LayeredBy(items, GraphOf(items), out)
  {
    out := [];
    var placed: set<string> := {};
    var rest := items;
    NothingDrawn(items);
    while rest != []
      invariant Drawing(items, out, placed, rest)
      invariant UniqueIds(items) ==> if rest != [] then Rounding(items, out, placed, rest)
        else Rounding(items, out, placed, rest) || LayeredBy(items, GraphOf(items), out)
      decreases |rest|
    {
      var ready := ReadyOf(rest, placed);
      var layer := if ready != [] then ready else rest;
      var left := Without(rest, layer);
      Shrunk(rest, placed, layer);
      DrawLayer(items, out, placed, rest, layer);
      if UniqueIds(items) {
        if ready == [] {
          RestDrawn(items, out, placed, rest);
        } else {
          RoundDrawn(items, out, placed, rest, ready, left);
        }
      }
      out, placed, rest := out + [layer], placed + IdsOf(layer), left;
    }
    if UniqueIds(items) && !LayeredBy(items, GraphOf(items), out) {
      NothingLeft(items, GraphOf(items), out);
    }
  }

  lemma Shrunk(rest: seq<Node>, placed: set<string>, layer: seq<Node>)
    requires rest != [] && layer == if ReadyOf(rest, placed) != [] then ReadyOf(rest, placed) else rest
    ensures NextLayer(rest, placed, layer) && |Without(rest, layer)| < |rest|
    ensures ReadyOf(rest, placed) == [] ==> Without(rest, layer) == []
  {
    ReadyMembers(rest, placed);
    assert layer[0] in layer && layer[0] in rest;
    WithoutShrinks(rest, layer);
    if ReadyOf(rest, placed) == [] {
      WithoutAll(rest, layer);
    }
  }
}
