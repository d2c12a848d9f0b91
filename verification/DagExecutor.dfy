// The in-degree executor with linked outputs (plnt/control/dag.py, DAGExecutor.run).
module DagExecutor {
  import opened Basics
  import opened Graph
  import opened Schedulers
  import CycleCheck

  // ------------------------------------------------------------ _collect_deps

  // A dependency list without the ids that name no spec.
  function KnownOnly(raw: seq<string>, ids: set<string>): (known: seq<string>)
    ensures forall d :: d in known <==> d in raw && d in ids
  {
    if raw == [] then []
    else
      var front := KnownOnly(raw[..|raw| - 1], ids);
      if raw[|raw| - 1] in ids then front + [raw[|raw| - 1]] else front
  }

  function CollectDeps(specs: seq<Node>): (g: Graph)
    ensures g.Keys == IdsOf(specs) && Closed(g)
    ensures UniqueIds(specs) ==> forall s :: s in specs ==> g[s.id] == KnownOnly(s.deps, IdsOf(specs))
  {
    GraphOfKeys(specs);
    assert UniqueIds(specs) ==> Describes(specs, GraphOf(specs)) by {
      if UniqueIds(specs) {
        GraphOfDescribes(specs);
      }
    }
    map id | id in GraphOf(specs) :: KnownOnly(GraphOf(specs)[id], IdsOf(specs))
  }

  // How many specs carry this id.
  function Copies(specs: seq<Node>, id: string): nat {
    if specs == [] then 0
    else Copies(specs[..|specs| - 1], id) + if specs[|specs| - 1].id == id then 1 else 0
  }

  lemma CopiesSnoc(specs: seq<Node>, s: Node, id: string)
    ensures Copies(specs + [s], id) == Copies(specs, id) + if s.id == id then 1 else 0
  {
    assert (specs + [s])[..|specs|] == specs;
  }

  lemma {:induction false} CopiesCount(specs: seq<Node>, id: string)
    ensures Copies(specs, id) > 0 <==> id in IdsOf(specs)
    ensures UniqueIds(specs) ==> Copies(specs, id) <= 1
  {
    if specs != [] {
      var front, last := specs[..|specs| - 1], specs[|specs| - 1];
      CopiesCount(front, id);
      assert specs == front + [last] && last in specs;
      if id in IdsOf(front) {
        var a :| a in front && a.id == id;
        assert a in specs;
      }
    }
  }

  // An id that stands for several specs and has dependencies: each of them is
  // counted once, but taken off once for every copy.
  ghost predicate Overcounted(specs: seq<Node>, g: Graph, id: string) {
    id in g && Copies(specs, id) > 1 && g[id] != []
  }

  ghost predicate Exact(specs: seq<Node>, g: Graph) {
    forall id :: !Overcounted(specs, g, id)
  }

  lemma UniqueIsExact(specs: seq<Node>, g: Graph)
    requires UniqueIds(specs)
    ensures Exact(specs, g)
  {
    forall id
      ensures Copies(specs, id) <= 1
    {
      CopiesCount(specs, id);
    }
  }

  // ------------------------------------------------------------ in-degree counting

  // How often an id occurs in a list.
  function Occurs(list: seq<string>, x: string): nat {
    if list == [] then 0 else Occurs(list[..|list| - 1], x) + if list[|list| - 1] == x then 1 else 0
  }

  lemma OccursSnoc(list: seq<string>, y: string, x: string)
    ensures Occurs(list + [y], x) == Occurs(list, x) + if y == x then 1 else 0
  {
    assert (list + [y])[..|list|] == list;
  }

  lemma {:induction false} OccursIn(list: seq<string>, x: string)
    ensures Occurs(list, x) > 0 <==> x in list
  {
    if list != [] {
      OccursIn(list[..|list| - 1], x);
      assert list == list[..|list| - 1] + [list[|list| - 1]];
    }
  }

  // The collected list keeps every known entry as often as it is written.
  lemma {:induction false} KnownOften(raw: seq<string>, ids: set<string>, d: string)
    ensures Occurs(KnownOnly(raw, ids), d) == if d in ids then Occurs(raw, d) else 0
  {
    if raw != [] {
      var n := |raw| - 1;
      KnownOften(raw[..n], ids, d);
      OccursSnoc(KnownOnly(raw[..n], ids), raw[n], d);
    }
  }

  // How many entries of a dependency list are finished.
  function Shut(deps: seq<string>, done: set<string>): nat {
    if deps == [] then 0
    else Shut(deps[..|deps| - 1], done) + if deps[|deps| - 1] in done then 1 else 0
  }

  lemma {:induction false} ShutAll(deps: seq<string>, done: set<string>)
    ensures Shut(deps, done) <= |deps|
    ensures Shut(deps, done) == |deps| <==> forall d :: d in deps ==> d in done
  {
    if deps != [] {
      ShutAll(deps[..|deps| - 1], done);
      assert deps == deps[..|deps| - 1] + [deps[|deps| - 1]];
    }
  }

  lemma {:induction false} ShutGrows(deps: seq<string>, done: set<string>, u: string)
    requires u !in done
    ensures Shut(deps, done + {u}) == Shut(deps, done) + Occurs(deps, u)
  {
    if deps != [] {
      ShutGrows(deps[..|deps| - 1], done, u);
      assert deps == deps[..|deps| - 1] + [deps[|deps| - 1]];
    }
  }

  lemma {:induction false} ShutNone(deps: seq<string>)
    ensures Shut(deps, {}) == 0
  {
    if deps != [] {
      ShutNone(deps[..|deps| - 1]);
    }
  }

  // n taken m times.
  function Times(m: nat, n: nat): nat {
    if m == 0 then 0 else Times(m - 1, n) + n
  }

  lemma {:induction false} TimesSum(m: nat, x: nat, y: nat)
    ensures Times(m, x + y) == Times(m, x) + Times(m, y)
  {
    if m > 0 {
      TimesSum(m - 1, x, y);
    }
  }

  lemma TimesOne(n: nat)
    ensures Times(1, n) == n
  {
    assert Times(0, n) == 0;
  }

  lemma {:induction false} TimesNothing(m: nat)
    ensures Times(m, 0) == 0
  {
    if m > 0 {
      TimesNothing(m - 1);
    }
  }

  lemma {:induction false} MoreThanOnce(m: nat, n: nat)
    requires m > 1 && n > 0
    ensures Times(m, n) > n
  {
    if m > 2 {
      MoreThanOnce(m - 1, n);
    } else {
      TimesOne(n);
    }
  }

  // What the loop keeps of each in-degree, repeated ids included.
  ghost predicate Counted(specs: seq<Node>, g: Graph, inDegree: map<string, int>, done: set<string>) {
    inDegree.Keys == g.Keys && forall c :: c in g ==> inDegree[c] == Left(Copies(specs, c), g[c], done)
  }

  // `children[u]` lists c as often as u occurs in c's dependency list, for
  // every copy of c.
  ghost predicate Reversed(specs: seq<Node>, g: Graph, children: map<string, seq<string>>) {
    && children.Keys == g.Keys
    && (forall u, c :: u in g && c in g ==> Occurs(children[u], c) == Times(Copies(specs, c), Occurs(g[c], u)))
    && (forall u, c :: u in g && c in children[u] ==> c in g)
  }

  method AddDependent(before: map<string, seq<string>>, id: string, ups: seq<string>) returns (children: map<string, seq<string>>)
    requires forall u :: u in ups ==> u in before
    ensures children.Keys == before.Keys
    ensures forall u, c :: u in before ==> Occurs(children[u], c) == Occurs(before[u], c) + if c == id then Occurs(ups, u) else 0
  {
    children := before;
    forall u
      ensures Occurs(ups[..0], u) == 0
    {
    }
    for j := 0 to |ups|
      invariant children.Keys == before.Keys
      invariant forall u, c :: u in before ==> Occurs(children[u], c) == Occurs(before[u], c) + if c == id then Occurs(ups[..j], u) else 0
    {
      assert ups[..j + 1][..j] == ups[..j] && ups[j] in ups;
      forall c
        ensures Occurs(children[ups[j]] + [id], c) == Occurs(children[ups[j]], c) + if id == c then 1 else 0
      {
        OccursSnoc(children[ups[j]], id, c);
      }
      children := children[ups[j] := children[ups[j]] + [id]];
    }
    assert ups[..|ups|] == ups;
  }

  // `Reversed`, as far as the specs in `part` are concerned.
  ghost predicate HalfReversed(part: seq<Node>, g: Graph, children: map<string, seq<string>>) {
    && children.Keys == g.Keys
    && forall u, c :: u in g ==> Occurs(children[u], c) == Cell(part, g, u, c)
  }

  lemma OneMoreCopy(part: seq<Node>, s: Node, c: string, n: nat)
    ensures Times(Copies(part + [s], c), n) == Times(Copies(part, c), n) + if c == s.id then n else 0
  {
    CopiesSnoc(part, s, c);
  }

  // What one entry of `children` comes to.
  function Cell(part: seq<Node>, g: Graph, u: string, c: string): nat {
    if c in g then Times(Copies(part, c), Occurs(g[c], u)) else 0
  }

  lemma CellGrows(part: seq<Node>, s: Node, g: Graph, u: string, c: string)
    requires s.id in g
    ensures Cell(part + [s], g, u, c) == Cell(part, g, u, c) + if c == s.id then Occurs(g[s.id], u) else 0
  {
    if c in g {
      OneMoreCopy(part, s, c, Occurs(g[c], u));
    }
  }

  lemma ReverseStep(part: seq<Node>, s: Node, g: Graph, before: map<string, seq<string>>, after: map<string, seq<string>>)
    requires HalfReversed(part, g, before) && s.id in g && after.Keys == before.Keys
    requires forall u, c :: u in before ==> Occurs(after[u], c) == Occurs(before[u], c) + if c == s.id then Occurs(g[s.id], u) else 0
    ensures HalfReversed(part + [s], g, after)
  {
    forall u, c | u in g
      ensures Occurs(after[u], c) == Cell(part + [s], g, u, c)
    {
      assert u in before && Occurs(before[u], c) == Cell(part, g, u, c);
      CellGrows(part, s, g, u, c);
    }
  }

  lemma ReverseDone(specs: seq<Node>, g: Graph, children: map<string, seq<string>>)
    requires HalfReversed(specs, g, children)
    ensures Reversed(specs, g, children)
  {
    forall u, c | u in g && c in children[u]
      ensures c in g
    {
      OccursIn(children[u], c);
    }
  }

  lemma NothingReversed(g: Graph, children: map<string, seq<string>>)
    requires children.Keys == g.Keys && forall u :: u in g ==> children[u] == []
    ensures HalfReversed([], g, children)
  {
    forall u, c | u in g
      ensures Occurs(children[u], c) == Cell([], g, u, c)
    {
    }
  }

  method ReverseEdges(specs: seq<Node>, deps: Graph) returns (children: map<string, seq<string>>)
    requires deps.Keys == IdsOf(specs) && Closed(deps)
    ensures Reversed(specs, deps, children)
  {
    children := map id | id in deps :: [];
    NothingReversed(deps, children);
    assert specs[..0] == [];
    for i := 0 to |specs|
      invariant HalfReversed(specs[..i], deps, children)
    {
      children := ReverseOne(specs, i, deps, children);
    }
    assert specs[..|specs|] == specs;
    ReverseDone(specs, deps, children);
  }

  method ReverseOne(specs: seq<Node>, i: nat, deps: Graph, before: map<string, seq<string>>) returns (children: map<string, seq<string>>)
    requires i < |specs| && deps.Keys == IdsOf(specs) && Closed(deps) && HalfReversed(specs[..i], deps, before)
    ensures HalfReversed(specs[..i + 1], deps, children)
  {
    assert specs[i] in specs;
    assert specs[..i + 1] == specs[..i] + [specs[i]];
    children := AddDependent(before, specs[i].id, deps[specs[i].id]);
    ReverseStep(specs[..i], specs[i], deps, before, children);
  }

  method Decrement(inDegree: map<string, int>, children: seq<string>) returns (next: map<string, int>)
    requires forall c :: c in children ==> c in inDegree
    ensures next.Keys == inDegree.Keys
    ensures forall c :: c in inDegree ==> next[c] == inDegree[c] - Occurs(children, c)
  {
    next := inDegree;
    for j := 0 to |children|
      invariant next.Keys == inDegree.Keys
      invariant forall c :: c in inDegree ==> next[c] == inDegree[c] - Occurs(children[..j], c)
    {
      assert children[..j + 1][..j] == children[..j] && children[j] in children;
      next := next[children[j] := next[children[j]] - 1];
    }
    assert children[..|children|] == children;
  }

  // What is left of an in-degree.
  function Left(m: nat, deps: seq<string>, done: set<string>): int {
    |deps| - Times(m, Shut(deps, done))
  }

  lemma LeftDrops(m: nat, deps: seq<string>, done: set<string>, u: string)
    requires u !in done
    ensures Left(m, deps, done + {u}) == Left(m, deps, done) - Times(m, Occurs(deps, u))
  {
    ShutGrows(deps, done, u);
    TimesSum(m, Shut(deps, done), Occurs(deps, u));
  }

  lemma FinishingCounts(specs: seq<Node>, g: Graph, inDegree: map<string, int>, next: map<string, int>,
                        children: map<string, seq<string>>, done: set<string>, u: string)
    requires Counted(specs, g, inDegree, done) && Reversed(specs, g, children) && u in g && u !in done
    requires next.Keys == inDegree.Keys
    requires forall c :: c in inDegree ==> next[c] == inDegree[c] - Occurs(children[u], c)
    ensures Counted(specs, g, next, done + {u})
  {
    forall c | c in g
      ensures next[c] == Left(Copies(specs, c), g[c], done + {u})
    {
      LeftDrops(Copies(specs, c), g[c], done, u);
    }
  }

  function ZeroDegree(inDegree: map<string, int>, remaining: set<string>): set<string>
    requires remaining <= inDegree.Keys
  {
    set id | id in remaining && inDegree[id] == 0
  }

  // The nodes with in-degree zero are the ones the simple rule calls ready, if
  // no dependency is taken off more than once.
  lemma ZeroIsReady(specs: seq<Node>, g: Graph, inDegree: map<string, int>, k: nat, remaining: set<string>)
    requires Counted(specs, g, inDegree, Done(g, k)) && remaining == g.Keys - Done(g, k)
    requires Exact(specs, g) && g.Keys == IdsOf(specs)
    ensures ZeroDegree(inDegree, remaining) == Wave(g, k)
  {
    DoneGrows(g, k);
    forall id | id in remaining
      ensures inDegree[id] == 0 <==> id in Wave(g, k)
    {
      ShutAll(g[id], Done(g, k));
      CopiesCount(specs, id);
      assert !Overcounted(specs, g, id);
      if g[id] == [] {
        TimesNothing(Copies(specs, id));
      } else {
        TimesOne(Shut(g[id], Done(g, k)));
      }
    }
  }

  // An overcounted node reaches zero, if it ever does, with a dependency open.
  lemma ZeroIsEarly(specs: seq<Node>, g: Graph, inDegree: map<string, int>, done: set<string>, id: string)
    requires Counted(specs, g, inDegree, done) && Overcounted(specs, g, id) && inDegree[id] == 0
    ensures exists d :: d in g[id] && d !in done
  {
    ShutAll(g[id], done);
    MoreThanOnce(Copies(specs, id), |g[id]|);
  }

  // ------------------------------------------------------------ run

  // What a spec is handed: nothing in place of an output that is not there.
  function Upstream<Out>(g: Graph, outputs: map<string, Out>, id: string): map<string, Option<Out>>
    requires id in g
  {
    map d | d in g[id] :: if d in outputs then Some(outputs[d]) else None
  }

  // `u` holds the output of everything `id` depends on, and nothing else.
  ghost predicate HandsOn<Out(!new)>(g: Graph, outputs: map<string, Out>, id: string, u: map<string, Option<Out>>)
    requires id in g
  {
    && (forall d :: d in u <==> d in g[id])
    && (forall d :: d in g[id] ==> d in outputs && u[d] == Some(outputs[d]))
  }

  // What each agent hands on is computed from what all it depends on handed it.
  ghost predicate LinkedAt<Out(!new)>(g: Graph, run: (string, map<string, Option<Out>>) -> Out, outputs: map<string, Out>, id: string)
    requires id in outputs
  {
    id in g && exists u :: HandsOn(g, outputs, id, u) && outputs[id] == run(id, u)
  }

  ghost predicate Linked<Out(!new)>(g: Graph, run: (string, map<string, Option<Out>>) -> Out, outputs: map<string, Out>) {
    forall id :: id in outputs ==> LinkedAt(g, run, outputs, id)
  }

  lemma StaysLinked<Out(!new)>(g: Graph, run: (string, map<string, Option<Out>>) -> Out, outputs: map<string, Out>, more: map<string, Out>, id: string)
    requires id in outputs && id in more && more[id] == outputs[id] && LinkedAt(g, run, outputs, id)
    requires forall x :: x in outputs ==> x in more && more[x] == outputs[x]
    ensures LinkedAt(g, run, more, id)
  {
    var u :| HandsOn(g, outputs, id, u) && outputs[id] == run(id, u);
    assert HandsOn(g, more, id, u);
  }

  lemma LinkedAdd<Out(!new)>(g: Graph, run: (string, map<string, Option<Out>>) -> Out, start: map<string, Out>, outputs: map<string, Out>, id: string)
    requires Linked(g, run, outputs) && id in g && id !in outputs
    requires start.Keys <= outputs.Keys && forall x :: x in start ==> outputs[x] == start[x]
    requires forall d :: d in g[id] ==> d in start
    ensures Linked(g, run, outputs[id := run(id, Upstream(g, start, id))])
  {
    var more := outputs[id := run(id, Upstream(g, start, id))];
    forall x | x in more
      ensures LinkedAt(g, run, more, x)
    {
      if x == id {
        assert HandsOn(g, more, id, Upstream(g, start, id));
      } else {
        StaysLinked(g, run, outputs, more, x);
      }
    }
  }

  datatype DagResult<Out> =
    | CycleDetected
    | Stuck
    | Completed(waves: seq<set<string>>, outputs: map<string, Out>)

  // Every round is a non-empty wave, and each comes from the simple rule.
  ghost predicate AllWaves(g: Graph, waves: seq<set<string>>) {
    waves != [] ==>
      && AllWaves(g, waves[..|waves| - 1])
      && waves[|waves| - 1] == Wave(g, |waves| - 1) != {}
  }

  lemma {:induction false} WaveAt(g: Graph, waves: seq<set<string>>, k: nat)
    requires AllWaves(g, waves) && k < |waves|
    ensures waves[k] == Wave(g, k) != {}
  {
    if k < |waves| - 1 {
      WaveAt(g, waves[..|waves| - 1], k);
    }
  }

  // Everything in `ready` has all it depends on in `start`.
  ghost predicate Fed(g: Graph, ready: set<string>, start: set<string>) {
    forall id, d :: id in ready && id in g && d in g[id] ==> d in start
  }

  ghost predicate Ran<Out(!new)>(specs: seq<Node>, g: Graph, run: (string, map<string, Option<Out>>) -> Out, fed: bool,
                                 inDegree: map<string, int>, outputs: map<string, Out>) {
    Counted(specs, g, inDegree, outputs.Keys) && (fed ==> Linked(g, run, outputs))
  }

  // Part of a round: `todo` is still to finish.
  ghost predicate InRound<Out(!new)>(specs: seq<Node>, g: Graph, run: (string, map<string, Option<Out>>) -> Out, fed: bool,
                                     start: map<string, Out>, ready: set<string>, todo: set<string>,
                                     inDegree: map<string, int>, outputs: map<string, Out>) {
    && todo <= ready && todo !! outputs.Keys
    && outputs.Keys + todo == start.Keys + ready
    && start.Keys <= outputs.Keys && (forall x :: x in start ==> outputs[x] == start[x])
    && Ran(specs, g, run, fed, inDegree, outputs)
  }

  lemma FinishKeepsRan<Out(!new)>(specs: seq<Node>, g: Graph, run: (string, map<string, Option<Out>>) -> Out, fed: bool,
                                  children: map<string, seq<string>>, start: map<string, Out>,
                                  inDegree: map<string, int>, next: map<string, int>, outputs: map<string, Out>, id: string)
    requires Reversed(specs, g, children) && Ran(specs, g, run, fed, inDegree, outputs)
    requires id in g && id !in outputs && (fed ==> forall d :: d in g[id] ==> d in start)
    requires start.Keys <= outputs.Keys && forall x :: x in start ==> outputs[x] == start[x]
    requires next.Keys == inDegree.Keys
    requires forall c :: c in inDegree ==> next[c] == inDegree[c] - Occurs(children[id], c)
    ensures Ran(specs, g, run, fed, next, outputs[id := run(id, Upstream(g, start, id))])
  {
    KeysAdd(outputs, id, run(id, Upstream(g, start, id)));
    if fed {
      LinkedAdd(g, run, start, outputs, id);
    }
    FinishingCounts(specs, g, inDegree, next, children, outputs.Keys, id);
  }

  lemma FinishOne<Out(!new)>(specs: seq<Node>, g: Graph, run: (string, map<string, Option<Out>>) -> Out, fed: bool,
                             start: map<string, Out>, ready: set<string>, todo: set<string>,
                             inDegree: map<string, int>, next: map<string, int>, outputs: map<string, Out>,
                             id: string, out: Out)
    requires InRound(specs, g, run, fed, start, ready, todo, inDegree, outputs) && id in todo
    requires Ran(specs, g, run, fed, next, outputs[id := out])
    ensures InRound(specs, g, run, fed, start, ready, todo - {id}, next, outputs[id := out])
  {
    KeysAdd(outputs, id, out);
    MoveOne(outputs.Keys, todo, start.Keys + ready, id);
  }

  // One round of the pool: every ready spec gets the outputs of its
  // dependencies as they were when the round began.
  method RunWave<Out(!new)>(ghost specs: seq<Node>, g: Graph, run: (string, map<string, Option<Out>>) -> Out,
                            children: map<string, seq<string>>, ready: set<string>, degrees: map<string, int>,
                            start: map<string, Out>, ghost fed: bool)
    returns (inDegree: map<string, int>, outputs: map<string, Out>)
    requires Reversed(specs, g, children) && Ran(specs, g, run, fed, degrees, start)
    requires ready <= g.Keys && ready !! start.Keys && (fed ==> Fed(g, ready, start.Keys))
    ensures outputs.Keys == start.Keys + ready
    ensures Ran(specs, g, run, fed, inDegree, outputs)
  {
    inDegree, outputs := degrees, start;
    var todo := ready;
    while todo != {}
      invariant InRound(specs, g, run, fed, start, ready, todo, inDegree, outputs)
    {
      var id :| id in todo;
      var next := Decrement(inDegree, children[id]);
      var upstream := Upstream(g, start, id);
      FinishKeepsRan(specs, g, run, fed, children, start, inDegree, next, outputs, id);
      FinishOne(specs, g, run, fed, start, ready, todo, inDegree, next, outputs, id, run(id, upstream));
      inDegree, outputs, todo := next, outputs[id := run(id, upstream)], todo - {id};
    }
  }

  lemma StuckIsHeldUp(g: Graph, k: nat)
    requires Wave(g, k) == {} && g.Keys != Done(g, k)
    ensures BlockedNodes(g) != {}
  {
    LeftIsBlocked(g, k);
    DoneGrows(g, k);
    if BlockedNodes(g) == {} {
      Basics.NothingLeft(g.Keys, Done(g, k));
    }
  }

  lemma AcyclicHoldsUpNobody(g: Graph)
    requires Closed(g) && !HasCycle(g)
    ensures BlockedNodes(g) == {}
  {
    AcyclicFinishes(g);
    AllDoneNoneBlocked(g, |g|);
  }

  // What is left to run, and what the in-degrees are, after these rounds.
  ghost predicate Counting<Out(!new)>(specs: seq<Node>, g: Graph, waves: seq<set<string>>, remaining: set<string>,
                                      inDegree: map<string, int>, outputs: map<string, Out>) {
    && outputs.Keys == InSome(waves) <= g.Keys
    && remaining == g.Keys - outputs.Keys
    && Counted(specs, g, inDegree, outputs.Keys)
    && forall id :: id in outputs && Overcounted(specs, g, id) ==> Early(g, waves, id)
  }

  // As long as nothing is overcounted, these are the rounds of the simple rule.
  ghost predicate Running<Out(!new)>(g: Graph, run: (string, map<string, Option<Out>>) -> Out, waves: seq<set<string>>,
                                     outputs: map<string, Out>) {
    outputs.Keys == Done(g, |waves|) && AllWaves(g, waves) && Linked(g, run, outputs)
  }

  function InSome(waves: seq<set<string>>): set<string> {
    if waves == [] then {} else InSome(waves[..|waves| - 1]) + waves[|waves| - 1]
  }

  lemma InSomeSnoc(waves: seq<set<string>>, wave: set<string>)
    ensures InSome(waves + [wave]) == InSome(waves) + wave
  {
    assert (waves + [wave])[..|waves|] == waves;
  }

  // `id` ran in a round before which one of its dependencies had not run.
  ghost predicate Early(g: Graph, waves: seq<set<string>>, id: string) {
    id in g && exists k, d :: 0 <= k < |waves| && id in waves[k] && d in g[id] && d !in InSome(waves[..k])
  }

  lemma EarlyStays(g: Graph, waves: seq<set<string>>, wave: set<string>, id: string)
    requires Early(g, waves, id)
    ensures Early(g, waves + [wave], id)
  {
    var k, d :| 0 <= k < |waves| && id in waves[k] && d in g[id] && d !in InSome(waves[..k]);
    assert (waves + [wave])[..k] == waves[..k] && (waves + [wave])[k] == waves[k];
  }

  lemma {:induction false} WavesAreDone(g: Graph, waves: seq<set<string>>)
    requires AllWaves(g, waves)
    ensures InSome(waves) == Done(g, |waves|)
  {
    if waves != [] {
      WavesAreDone(g, waves[..|waves| - 1]);
      DoneGrows(g, |waves| - 1);
    }
  }

  lemma {:induction false} WavesPrefix(g: Graph, waves: seq<set<string>>, k: nat)
    requires AllWaves(g, waves) && k <= |waves|
    ensures AllWaves(g, waves[..k])
  {
    if k < |waves| {
      WavesPrefix(g, waves[..|waves| - 1], k);
      assert waves[..|waves| - 1][..k] == waves[..k];
    } else {
      assert waves[..k] == waves;
    }
  }

  // The simple rule starts nobody early.
  lemma EarlyIsNoWave(g: Graph, waves: seq<set<string>>, id: string)
    requires Early(g, waves, id)
    ensures !AllWaves(g, waves)
  {
    var k, d :| 0 <= k < |waves| && id in waves[k] && d in g[id] && d !in InSome(waves[..k]);
    if AllWaves(g, waves) {
      WaveAt(g, waves, k);
      WavesPrefix(g, waves, k);
      WavesAreDone(g, waves[..k]);
    }
  }

  lemma DoneAndWave(g: Graph, k: nat)
    ensures Done(g, k) + Wave(g, k) == Done(g, k + 1)
  {
    DoneGrows(g, k);
  }

  lemma AllWavesSnoc(g: Graph, waves: seq<set<string>>, wave: set<string>)
    requires AllWaves(g, waves) && wave == Wave(g, |waves|) && wave != {}
    ensures AllWaves(g, waves + [wave])
  {
    assert (waves + [wave])[..|waves|] == waves;
  }

  lemma RoundIsWave<Out(!new)>(g: Graph, run: (string, map<string, Option<Out>>) -> Out, waves: seq<set<string>>,
                               before: map<string, Out>, ready: set<string>, outputs: map<string, Out>)
    requires Running(g, run, waves, before) && ready == Wave(g, |waves|) && ready != {}
    requires outputs.Keys == before.Keys + ready && Linked(g, run, outputs)
    ensures Running(g, run, waves + [ready], outputs)
  {
    DoneAndWave(g, |waves|);
    AllWavesSnoc(g, waves, ready);
  }

  lemma RoundCounts<Out(!new)>(specs: seq<Node>, g: Graph, waves: seq<set<string>>, remaining: set<string>,
                               degrees: map<string, int>, before: map<string, Out>, ready: set<string>,
                               inDegree: map<string, int>, outputs: map<string, Out>)
    requires Counting(specs, g, waves, remaining, degrees, before)
    requires ready == ZeroDegree(degrees, remaining)
    requires outputs.Keys == before.Keys + ready && Counted(specs, g, inDegree, outputs.Keys)
    ensures Counting(specs, g, waves + [ready], remaining - ready, inDegree, outputs)
  {
    InSomeSnoc(waves, ready);
    forall id | id in outputs && Overcounted(specs, g, id)
      ensures Early(g, waves + [ready], id)
    {
      if id in before {
        EarlyStays(g, waves, ready, id);
      } else {
        ZeroIsEarly(specs, g, degrees, before.Keys, id);
        var d :| d in g[id] && d !in before.Keys;
        assert (waves + [ready])[|waves|] == ready && (waves + [ready])[..|waves|] == waves;
      }
    }
    Remainder(g.Keys, before.Keys, outputs.Keys);
    assert outputs.Keys - before.Keys == ready;
  }

  function InDegrees(deps: Graph): map<string, int> {
    map id | id in deps :: |deps[id]|
  }

  lemma NothingRunYet<Out(!new)>(specs: seq<Node>, g: Graph, outputs: map<string, Out>)
    requires outputs == map[]
    ensures Counting(specs, g, [], g.Keys, InDegrees(g), outputs)
  {
    forall c | c in g
      ensures InDegrees(g)[c] == Left(Copies(specs, c), g[c], {})
    {
      ShutNone(g[c]);
      TimesNothing(Copies(specs, c));
    }
    assert outputs.Keys == {};
  }

  // What the loop over rounds comes to.
  ghost predicate Outcome<Out(!new)>(specs: seq<Node>, g: Graph, run: (string, map<string, Option<Out>>) -> Out, r: DagResult<Out>) {
    match r
    case CycleDetected => false
    case Stuck => Exact(specs, g) ==> BlockedNodes(g) != {}
    case Completed(waves, outputs) =>
      && outputs.Keys == g.Keys == InSome(waves)
      && (if Exact(specs, g) then AllWaves(g, waves) && Linked(g, run, outputs) else SomeEarly(specs, g, waves))
  }

  // A spec with several copies ran before one of its dependencies.
  ghost predicate SomeEarly(specs: seq<Node>, g: Graph, waves: seq<set<string>>) {
    exists id :: Overcounted(specs, g, id) && Early(g, waves, id)
  }

  lemma AllCompleted<Out(!new)>(specs: seq<Node>, g: Graph, run: (string, map<string, Option<Out>>) -> Out,
                                waves: seq<set<string>>, inDegree: map<string, int>, outputs: map<string, Out>)
    requires Counting(specs, g, waves, {}, inDegree, outputs)
    requires Exact(specs, g) ==> Running(g, run, waves, outputs)
    ensures Outcome(specs, g, run, Completed(waves, outputs))
  {
    Basics.NothingLeft(g.Keys, outputs.Keys);
    if !Exact(specs, g) {
      var id :| Overcounted(specs, g, id);
      assert Early(g, waves, id);
    }
  }

  lemma NobodyReady<Out(!new)>(specs: seq<Node>, g: Graph, run: (string, map<string, Option<Out>>) -> Out, waves: seq<set<string>>,
                               remaining: set<string>, inDegree: map<string, int>, outputs: map<string, Out>)
    requires Counting(specs, g, waves, remaining, inDegree, outputs) && g.Keys == IdsOf(specs)
    requires Exact(specs, g) ==> Running(g, run, waves, outputs)
    requires remaining != {} && ZeroDegree(inDegree, remaining) == {}
    ensures Outcome(specs, g, run, DagResult<Out>.Stuck)
  {
    if Exact(specs, g) {
      ZeroIsReady(specs, g, inDegree, |waves|, remaining);
      StuckIsHeldUp(g, |waves|);
    }
  }

  // The loop over rounds.
  method RunRounds<Out(!new)>(ghost specs: seq<Node>, deps: Graph, run: (string, map<string, Option<Out>>) -> Out, children: map<string, seq<string>>)
    returns (r: DagResult<Out>)
    requires Reversed(specs, deps, children) && deps.Keys == IdsOf(specs)
    ensures Outcome(specs, deps, run, r)
  {
    var inDegree := InDegrees(deps);
    var outputs: map<string, Out> := map[];
    var waves: seq<set<string>> := [];
    NothingRunYet(specs, deps, outputs);
    var remaining := deps.Keys;
    while remaining != {}
      invariant Counting(specs, deps, waves, remaining, inDegree, outputs)
      invariant Exact(specs, deps) ==> Running(deps, run, waves, outputs)
      decreases |remaining|
    {
      var ready := ZeroDegree(inDegree, remaining);
      if ready == {} {
        NobodyReady(specs, deps, run, waves, remaining, inDegree, outputs);
        return Stuck;
      }
      var degrees, more := Round(specs, deps, run, children, waves, ready, remaining, inDegree, outputs);
      inDegree, outputs := degrees, more;
      waves := waves + [ready];
      remaining := remaining - ready;
    }
    AllCompleted(specs, deps, run, waves, inDegree, outputs);
    return Completed(waves, outputs);
  }

  lemma TakenOut(whole: set<string>, part: set<string>)
    requires part <= whole && part != {}
    ensures |whole - part| < |whole|
  {
    ProperSubsetSmaller(whole - part, whole);
  }

  method Round<Out(!new)>(ghost specs: seq<Node>, deps: Graph, run: (string, map<string, Option<Out>>) -> Out, children: map<string, seq<string>>,
                          ghost waves: seq<set<string>>, ready: set<string>, ghost remaining: set<string>,
                          degrees: map<string, int>, before: map<string, Out>)
    returns (inDegree: map<string, int>, outputs: map<string, Out>)
    requires Reversed(specs, deps, children) && deps.Keys == IdsOf(specs)
    requires Counting(specs, deps, waves, remaining, degrees, before) && ready == ZeroDegree(degrees, remaining) != {}
    requires Exact(specs, deps) ==> Running(deps, run, waves, before)
    ensures Counting(specs, deps, waves + [ready], remaining - ready, inDegree, outputs)
    ensures |remaining - ready| < |remaining|
    ensures Exact(specs, deps) ==> Running(deps, run, waves + [ready], outputs)
  {
    TakenOut(remaining, ready);
    ghost var exact := Exact(specs, deps);
    if exact {
      ZeroIsReady(specs, deps, degrees, |waves|, remaining);
      Handed(deps, |waves|);
    }
    inDegree, outputs := RunWave(specs, deps, run, children, ready, degrees, before, exact);
    RoundCounts(specs, deps, waves, remaining, degrees, before, ready, inDegree, outputs);
    if exact {
      RoundIsWave(deps, run, waves, before, ready, outputs);
    }
  }

  lemma Handed(g: Graph, k: nat)
    ensures Fed(g, Wave(g, k), Done(g, k))
  {
    DoneGrows(g, k);
  }

  // A plan that runs in the rounds of the simple rule, each spec on all the
  // outputs it asked for.
  ghost predicate Conforms<Out(!new)>(g: Graph, run: (string, map<string, Option<Out>>) -> Out, r: DagResult<Out>) {
    && r.Completed? && AllWaves(g, r.waves) && Done(g, |r.waves|) == g.Keys == r.outputs.Keys
    && Linked(g, run, r.outputs)
  }

  // A cyclic plan is refused. Any other runs as it should exactly when no
  // repeated id has dependencies; if one has, the plan gets stuck or starts
  // that spec before its dependencies.
  method Run<Out(!new)>(specs: seq<Node>, run: (string, map<string, Option<Out>>) -> Out) returns (r: DagResult<Out>)
    ensures r.CycleDetected? <==> HasCycle(CollectDeps(specs))
    ensures Conforms(CollectDeps(specs), run, r) <==> !HasCycle(CollectDeps(specs)) && Exact(specs, CollectDeps(specs))
    ensures !HasCycle(CollectDeps(specs)) && !Exact(specs, CollectDeps(specs)) ==>
      r.Stuck? || SomeEarly(specs, CollectDeps(specs), r.waves)
  {
    var deps := CollectDeps(specs);
    var cyclic := CycleCheck.HasDependencyCycle(deps);
    if cyclic {
      return CycleDetected;
    }
    AcyclicHoldsUpNobody(deps);
    var children := ReverseEdges(specs, deps);
    r := RunRounds(specs, deps, run, children);
    Verdict(specs, deps, run, r);
  }

  lemma Verdict<Out(!new)>(specs: seq<Node>, g: Graph, run: (string, map<string, Option<Out>>) -> Out, r: DagResult<Out>)
    requires Outcome(specs, g, run, r) && BlockedNodes(g) == {}
    ensures Conforms(g, run, r) <==> Exact(specs, g)
    ensures !r.CycleDetected? && (!Exact(specs, g) ==> r.Stuck? || SomeEarly(specs, g, r.waves))
  {
    if r.Completed? {
      if Exact(specs, g) {
        WavesAreDone(g, r.waves);
      } else {
        var id :| Overcounted(specs, g, id) && Early(g, r.waves, id);
        EarlyIsNoWave(g, r.waves, id);
      }
    }
  }
}
