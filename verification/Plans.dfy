// The parent's plan as _turn_parent holds it (plnt/executors/local.py): a dict
// from agent id to spec, and the dict of those still to run, both in order.
module Plans {
  import opened Basics
  import opened Events
  import opened Graph
  import opened AgentLoop
  import opened AgentPool
  import opened PlanParser

  // One entry of a plan: what the parent wrote, the agent it would become, or
  // why that agent cannot be built (not installed, disabled, secrets missing).
  datatype Plan = Plan(entry: PlanEntry, spec: Spec, refused: Option<string>)

  function Build(p: Plan): Spec {
    p.spec.(id := p.entry.id, info := p.spec.info.(dependsOn := p.entry.dependsOn))
  }

  function Place(specs: seq<Spec>, id: string): (i: nat)
    ensures i <= |specs|
    ensures i < |specs| ==> specs[i].id == id
    ensures forall j :: 0 <= j < i ==> specs[j].id != id
  {
    if specs == [] then 0 else if specs[0].id == id then 0 else 1 + Place(specs[1..], id)
  }

  // specs[s.id] = s, for a dict.
  function Put(specs: seq<Spec>, s: Spec): seq<Spec> {
    var i := Place(specs, s.id);
    if i < |specs| then specs[i := s] else specs + [s]
  }

  function SpecDict(plans: seq<Plan>): seq<Spec> {
    if plans == [] then [] else Put(SpecDict(plans[..|plans| - 1]), Build(plans[|plans| - 1]))
  }

  function Entries(plans: seq<Plan>): seq<PlanEntry> {
    seq(|plans|, i requires 0 <= i < |plans| => plans[i].entry)
  }

  // A repeated id keeps its last plan.
  function PlanGraph(plans: seq<Plan>): Graph {
    GraphOfEntries(Entries(plans))
  }

  lemma PlanGraphSnoc(plans: seq<Plan>)
    requires plans != []
    ensures var last := plans[|plans| - 1].entry;
      PlanGraph(plans) == PlanGraph(plans[..|plans| - 1])[last.id := last.dependsOn]
  {
    assert Entries(plans)[..|plans| - 1] == Entries(plans[..|plans| - 1]);
  }

  ghost predicate Describes(specs: seq<Spec>, g: Graph) {
    SpecIds(specs) == g.Keys && forall s :: s in specs ==> s.id in g && g[s.id] == s.info.dependsOn
  }

  lemma PutKeeps(specs: seq<Spec>, s: Spec, g: Graph)
    requires UniqueSpecs(specs) && Describes(specs, g)
    ensures UniqueSpecs(Put(specs, s)) && Describes(Put(specs, s), g[s.id := s.info.dependsOn])
  {
    var after := Put(specs, s);
    var i := Place(specs, s.id);
    forall x | x in specs && x.id != s.id
      ensures x in after
    {
      var j :| 0 <= j < |specs| && specs[j] == x;
      assert after[j] == x;
    }
    assert after[i] == s;
    forall x | x in after
      ensures x == s || (x in specs && x.id != s.id)
    {
      var j :| 0 <= j < |after| && after[j] == x;
    }
  }

  // The dict of specs is the plan: unique ids, each with its own dependencies.
  lemma {:induction false} SpecDictIsPlan(plans: seq<Plan>)
    ensures UniqueSpecs(SpecDict(plans)) && Describes(SpecDict(plans), PlanGraph(plans))
  {
    if plans != [] {
      SpecDictIsPlan(plans[..|plans| - 1]);
      PlanGraphSnoc(plans);
      PutKeeps(SpecDict(plans[..|plans| - 1]), Build(plans[|plans| - 1]), PlanGraph(plans[..|plans| - 1]));
    }
  }

  // `s` is the agent the plan asks for: its own spec under the entry's id, with
  // the entry's dependencies.
  ghost predicate MadeFor(s: Spec, p: Plan) {
    && s.id == p.entry.id
    && s.info.dependsOn == p.entry.dependsOn
    && p.spec.(id := s.id, info := p.spec.info.(dependsOn := s.info.dependsOn)) == s
  }

  // With distinct ids the dict is the plan, entry for entry and in its order.
  lemma {:induction false} SpecsFollowPlan(plans: seq<Plan>)
    requires forall i, j :: 0 <= i < j < |plans| ==> plans[i].entry.id != plans[j].entry.id
    ensures |SpecDict(plans)| == |plans|
    ensures forall i :: 0 <= i < |plans| ==> MadeFor(SpecDict(plans)[i], plans[i])
  {
    if plans != [] {
      var n := |plans| - 1;
      SpecsFollowPlan(plans[..n]);
      var before := SpecDict(plans[..n]);
      forall i | 0 <= i < n
        ensures before[i].id != plans[n].entry.id
      {
        assert MadeFor(before[i], plans[..n][i]);
      }
      assert Place(before, plans[n].entry.id) == n;
    }
  }

  // ------------------------------------------------------------ picking the next wave

  function Ready(remaining: seq<Spec>, have: set<string>): seq<Spec> {
    if remaining == [] then []
    else
      (if forall d :: d in remaining[0].info.dependsOn ==> d in have then [remaining[0]] else [])
      + Ready(remaining[1..], have)
  }

  // What is left of a dict once the ids in `gone` are deleted.
  function Rest(specs: seq<Spec>, gone: set<string>): seq<Spec> {
    if specs == [] then []
    else (if specs[0].id in gone then [] else [specs[0]]) + Rest(specs[1..], gone)
  }

  ghost predicate Depends(s: Spec, have: set<string>) {
    forall d :: d in s.info.dependsOn ==> d in have
  }

  lemma {:induction false} ReadyMembers(remaining: seq<Spec>, have: set<string>)
    ensures forall s :: s in Ready(remaining, have) <==> s in remaining && Depends(s, have)
  {
    if remaining != [] {
      ReadyMembers(remaining[1..], have);
      assert remaining == [remaining[0]] + remaining[1..];
    }
  }

  lemma {:induction false} RestMembers(specs: seq<Spec>, gone: set<string>)
    ensures forall s :: s in Rest(specs, gone) <==> s in specs && s.id !in gone
  {
    if specs != [] {
      RestMembers(specs[1..], gone);
      assert specs == [specs[0]] + specs[1..];
    }
  }

  lemma UniqueCons(head: Spec, tail: seq<Spec>)
    requires UniqueSpecs(tail) && head.id !in SpecIds(tail)
    ensures UniqueSpecs([head] + tail)
  {
    forall j | 0 <= j < |tail|
      ensures tail[j].id != head.id
    {
      assert tail[j] in tail;
    }
  }

  lemma UniqueTail(specs: seq<Spec>)
    requires UniqueSpecs(specs) && specs != []
    ensures UniqueSpecs(specs[1..]) && specs[0].id !in SpecIds(specs[1..])
  {
  }

  lemma {:induction false} ReadyUnique(remaining: seq<Spec>, have: set<string>)
    requires UniqueSpecs(remaining)
    ensures UniqueSpecs(Ready(remaining, have))
  {
    if remaining != [] {
      UniqueTail(remaining);
      ReadyUnique(remaining[1..], have);
      ReadyMembers(remaining[1..], have);
      UniqueCons(remaining[0], Ready(remaining[1..], have));
    }
  }

  lemma {:induction false} RestUnique(specs: seq<Spec>, gone: set<string>)
    requires UniqueSpecs(specs)
    ensures UniqueSpecs(Rest(specs, gone))
  {
    if specs != [] {
      UniqueTail(specs);
      RestUnique(specs[1..], gone);
      RestMembers(specs[1..], gone);
      UniqueCons(specs[0], Rest(specs[1..], gone));
    }
  }

  lemma {:induction false} RestRest(specs: seq<Spec>, a: set<string>, b: set<string>)
    ensures Rest(Rest(specs, a), b) == Rest(specs, a + b)
  {
    if specs != [] {
      RestRest(specs[1..], a, b);
      var r, tail := Rest(specs, a), Rest(specs[1..], a);
      if specs[0].id in a {
        assert r == tail;
      } else {
        assert r == [specs[0]] + tail && r[1..] == tail;
      }
    }
  }

  lemma {:induction false} RestAll(specs: seq<Spec>)
    ensures Rest(specs, {}) == specs
  {
    if specs != [] {
      RestAll(specs[1..]);
    }
  }

  lemma {:induction false} RestShrinks(specs: seq<Spec>, gone: set<string>, s: Spec)
    requires s in specs && s.id in gone
    ensures |Rest(specs, gone)| < |specs|
  {
    if specs[0] == s {
      RestBound(specs[1..], gone);
    } else {
      RestShrinks(specs[1..], gone, s);
    }
  }

  lemma {:induction false} RestBound(specs: seq<Spec>, gone: set<string>)
    ensures |Rest(specs, gone)| <= |specs|
  {
    if specs != [] {
      RestBound(specs[1..], gone);
    }
  }

  // The ready agents after k waves are exactly the next wave of the graph.
  lemma ReadyIsWave(specs: seq<Spec>, g: Graph, k: nat)
    requires Describes(specs, g)
    ensures SpecIds(Ready(Rest(specs, Done(g, k)), Done(g, k))) == Wave(g, k)
  {
    RestMembers(specs, Done(g, k));
    ReadyMembers(Rest(specs, Done(g, k)), Done(g, k));
    DoneGrows(g, k);
    forall id | id in Wave(g, k)
      ensures id in SpecIds(Ready(Rest(specs, Done(g, k)), Done(g, k)))
    {
      assert id in SpecIds(specs);
      var s :| s in specs && s.id == id;
      assert s in Ready(Rest(specs, Done(g, k)), Done(g, k));
    }
  }

  // Deleting the wave leaves what the next rounds have to run.
  lemma WaveDeleted(specs: seq<Spec>, g: Graph, k: nat)
    requires Describes(specs, g)
    ensures Rest(Rest(specs, Done(g, k)), Wave(g, k)) == Rest(specs, Done(g, k + 1))
    ensures SpecIds(Rest(specs, Done(g, k))) == g.Keys - Done(g, k)
  {
    RestRest(specs, Done(g, k), Wave(g, k));
    DoneGrows(g, k);
    assert Done(g, k) + Wave(g, k) == Done(g, k + 1);
    RestMembers(specs, Done(g, k));
    forall id | id in g.Keys - Done(g, k)
      ensures id in SpecIds(Rest(specs, Done(g, k)))
    {
      assert id in SpecIds(specs);
      var s :| s in specs && s.id == id;
    }
  }

  // ------------------------------------------------------------ the order of results

  function IdSeq(specs: seq<Spec>): seq<string> {
    seq(|specs|, i requires 0 <= i < |specs| => specs[i].id)
  }

  // `order` lists exactly the ids in `ids`, each once.
  ghost predicate Lists(order: seq<string>, ids: set<string>) {
    (forall id :: id in order <==> id in ids) && forall i, j :: 0 <= i < j < |order| ==> order[i] != order[j]
  }

  lemma ListsMore(order: seq<string>, ids: set<string>, ready: seq<Spec>)
    requires Lists(order, ids) && UniqueSpecs(ready) && SpecIds(ready) !! ids
    ensures Lists(order + IdSeq(ready), ids + SpecIds(ready))
  {
    var more := IdSeq(ready);
    forall id
      ensures id in more <==> id in SpecIds(ready)
    {
      if id in more {
        var i :| 0 <= i < |more| && more[i] == id;
        assert ready[i] in ready;
      }
      if id in SpecIds(ready) {
        var s :| s in ready && s.id == id;
        var i :| 0 <= i < |ready| && ready[i] == s;
        assert more[i] == id;
      }
    }
    forall i, j | 0 <= i < j < |order + more|
      ensures (order + more)[i] != (order + more)[j]
    {
      if i < |order| <= j {
        assert order[i] in order && more[j - |order|] in more;
      }
    }
  }

  // The specs with an id in `ids`, in plan order.
  function Keep(specs: seq<Spec>, ids: set<string>): seq<Spec> {
    if specs == [] then []
    else (if specs[0].id in ids then [specs[0]] else []) + Keep(specs[1..], ids)
  }

  // Wave after wave, and in plan order within a wave.
  function OrderOf(specs: seq<Spec>, waves: seq<set<string>>): seq<string> {
    if waves == [] then []
    else OrderOf(specs, waves[..|waves| - 1]) + IdSeq(Keep(specs, waves[|waves| - 1]))
  }

  lemma {:induction false} ReadyKeeps(specs: seq<Spec>, have: set<string>, ids: set<string>)
    requires forall s :: s in specs ==> (s.id in ids <==> s.id !in have && Depends(s, have))
    ensures Ready(Rest(specs, have), have) == Keep(specs, ids)
  {
    if specs != [] {
      var tail := specs[1..];
      assert specs[0] in specs;
      ReadyKeeps(tail, have, ids);
      var r := Rest(specs, have);
      if specs[0].id in have {
        assert r == Rest(tail, have);
        assert Keep(specs, ids) == Keep(tail, ids);
      } else {
        assert r[0] == specs[0] && r[1..] == Rest(tail, have);
      }
    }
  }

  lemma ReadyInOrder(specs: seq<Spec>, g: Graph, k: nat)
    requires Describes(specs, g)
    ensures Ready(Rest(specs, Done(g, k)), Done(g, k)) == Keep(specs, Wave(g, k))
  {
    forall s | s in specs
      ensures s.id in Wave(g, k) <==> s.id !in Done(g, k) && Depends(s, Done(g, k))
    {
    }
    ReadyKeeps(specs, Done(g, k), Wave(g, k));
  }

  lemma OrderSnoc(specs: seq<Spec>, waves: seq<set<string>>, wave: set<string>)
    ensures OrderOf(specs, waves + [wave]) == OrderOf(specs, waves) + IdSeq(Keep(specs, wave))
  {
    assert (waves + [wave])[..|waves|] == waves;
  }
}
