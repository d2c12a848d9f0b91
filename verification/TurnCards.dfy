// The cards of a parent turn while its agents wait, run, and are skipped: what
// the transcript shows of a plan, whatever the interleaving.
module TurnCards {
  import opened Basics
  import opened Events
  import opened Transcript
  import opened TranscriptLaws
  import opened TokenLaws
  import opened AgentLoop
  import opened AgentLaws
  import opened AgentCards
  import opened AgentRuns
  import opened AgentPool

  // How one agent of the plan ran: what it was handed, the stop reasons its
  // steps saw, and where it ended.
  datatype Ran = Ran(up: Upstream, stops: Stops, a: Agent)

  type RanMap = map<string, Ran>

  function Fresh(s: Spec): Card {
    Spawn(NewCard(s.id), s.info)
  }

  // What a card says of its agent, apart from what its run does to it.
  function Title(c: Card): Card {
    c.(status := Status.Running, steps := [], files := [], tokens := 0, answer := None, error := None)
  }

  lemma {:induction false} CardFoldKeepsTitle(c: Card, kinds: seq<Kind>)
    ensures Title(CardFold(c, kinds)) == Title(c)
  {
    if kinds != [] {
      CardFoldKeepsTitle(c, kinds[..|kinds| - 1]);
    }
  }

  function KindsOf(s: Spec, r: Ran): seq<Kind> {
    Play(s, Init(s, r.up), r.stops).kinds
  }

  // A new card names its agent, what it was asked and what it waits for.
  lemma FreshSays(s: Spec)
    ensures Fresh(s) == Card(s.id, s.info.role, s.info.bundle, s.info.version, s.info.intent, s.info.dependsOn, s.info.tools,
                             Status.Running, [], [], 0, None, None)
  {
  }

  // ------------------------------------------------------------ before the first wave

  function Spawned(s: Spec): Event {
    Event(s.id, AgentSpawned(None, s.info))
  }

  function Spawns(specs: seq<Spec>): seq<Event> {
    seq(|specs|, i requires 0 <= i < |specs| => Spawned(specs[i]))
  }

  function FreshCards(specs: seq<Spec>): seq<Card> {
    seq(|specs|, i requires 0 <= i < |specs| => Fresh(specs[i]))
  }

  lemma SpawnAdds(cards: seq<Card>, s: Spec)
    requires forall i :: 0 <= i < |cards| ==> cards[i].id != s.id
    ensures SpawnIn(cards, s.id, s.info) == cards + [Fresh(s)]
  {
    assert Find(cards, s.id) == |cards|;
  }

  lemma SpawnStep(t: Turn, specs: seq<Spec>, s: Spec)
    requires t.agents == FreshCards(specs) && s.id !in SpecIds(specs)
    ensures PyStep(t, Spawned(s)) == t.(agents := FreshCards(specs + [s]))
  {
    forall i | 0 <= i < |specs|
      ensures FreshCards(specs)[i].id != s.id
    {
      assert specs[i] in specs;
    }
    SpawnAdds(FreshCards(specs), s);
    assert FreshCards(specs + [s]) == FreshCards(specs) + [Fresh(s)];
  }

  lemma SpawnsSnoc(front: seq<Spec>, s: Spec)
    ensures Spawns(front + [s]) == Spawns(front) + [Spawned(s)]
  {
  }

  lemma SpawnAfter(t: Turn, log: seq<Event>, more: seq<Event>, front: seq<Spec>, s: Spec)
    requires PyTurn(t, log) == t.(agents := FreshCards(front)) && s.id !in SpecIds(front) && more == log + [Spawned(s)]
    ensures PyTurn(t, more) == t.(agents := FreshCards(front + [s]))
  {
    PyTurnSnoc(t, log, Spawned(s));
    SpawnStep(PyTurn(t, log), front, s);
  }

  // Announcing a plan opens one card for each agent, in order.
  lemma {:induction false} SpawningOpensCards(t: Turn, specs: seq<Spec>)
    requires t.agents == [] && UniqueSpecs(specs)
    ensures PyTurn(t, Spawns(specs)) == t.(agents := FreshCards(specs))
  {
    if specs == [] {
      assert FreshCards(specs) == t.agents;
    } else {
      var front, s := specs[..|specs| - 1], specs[|specs| - 1];
      assert front + [s] == specs;
      SpawningOpensCards(t, front);
      SpawnsSnoc(front, s);
      SpawnAfter(t, Spawns(front), Spawns(specs), front, s);
    }
  }

  lemma {:induction false} OwnSpawns(specs: seq<Spec>, id: string)
    requires UniqueSpecs(specs)
    ensures forall s :: s in specs && s.id == id ==> Own(Spawns(specs), id) == [AgentSpawned(None, s.info)]
    ensures id !in SpecIds(specs) ==> Own(Spawns(specs), id) == []
  {
    if specs != [] {
      var n := |specs| - 1;
      OwnSpawns(specs[..n], id);
      assert Spawns(specs) == Spawns(specs[..n]) + [Spawned(specs[n])];
      OwnSnoc(Spawns(specs[..n]), Spawned(specs[n]), id);
      assert specs == specs[..n] + [specs[n]];
      if specs[n].id == id {
        assert id !in SpecIds(specs[..n]);
      }
    }
  }

  // ------------------------------------------------------------ waves

  // A card's agent has run, and the card shows it, or nothing touched the card yet.
  ghost predicate CardInStep(s: Spec, c: Card, ran: RanMap) {
    && Title(c) == Fresh(s)
    && if s.id in ran && Filed(s.id) then CardInv(ran[s.id].a, c) && Finished(ran[s.id].a) else Blank(c)
  }

  ghost predicate CardsInStep(cards: seq<Card>, specs: seq<Spec>, ran: RanMap) {
    |cards| == |specs| && forall i :: 0 <= i < |specs| ==> CardInStep(specs[i], cards[i], ran)
  }

  lemma FreshInStep(specs: seq<Spec>)
    ensures CardsInStep(FreshCards(specs), specs, map[])
  {
  }

  lemma Distinct(cards: seq<Card>, specs: seq<Spec>)
    requires UniqueSpecs(specs) && |cards| == |specs|
    requires forall i :: 0 <= i < |specs| ==> cards[i].id == specs[i].id
    ensures DistinctCards(cards)
  {
  }

  // The runs of a finished wave, added to those of earlier waves.
  ghost function WithWave(ran: RanMap, ready: seq<Spec>, ups: seq<Upstream>, stops: seq<Stops>, agents: seq<Agent>): RanMap
    requires |ready| == |ups| == |stops| == |agents|
  {
    if ready == [] then ran
    else
      var n := |ready| - 1;
      WithWave(ran, ready[..n], ups[..n], stops[..n], agents[..n])[ready[n].id := Ran(ups[n], stops[n], agents[n])]
  }

  lemma {:induction false} WithWaveKeys(ran: RanMap, ready: seq<Spec>, ups: seq<Upstream>, stops: seq<Stops>, agents: seq<Agent>)
    requires |ready| == |ups| == |stops| == |agents|
    ensures WithWave(ran, ready, ups, stops, agents).Keys == ran.Keys + SpecIds(ready)
  {
    if ready != [] {
      var n := |ready| - 1;
      WithWaveKeys(ran, ready[..n], ups[..n], stops[..n], agents[..n]);
      assert ready == ready[..n] + [ready[n]];
    }
  }

  lemma {:induction false} WithWaveNew(ran: RanMap, ready: seq<Spec>, ups: seq<Upstream>, stops: seq<Stops>, agents: seq<Agent>, i: nat)
    requires |ready| == |ups| == |stops| == |agents| && UniqueSpecs(ready) && i < |ready|
    ensures ready[i].id in WithWave(ran, ready, ups, stops, agents)
    ensures WithWave(ran, ready, ups, stops, agents)[ready[i].id] == Ran(ups[i], stops[i], agents[i])
  {
    var n := |ready| - 1;
    if i < n {
      WithWaveNew(ran, ready[..n], ups[..n], stops[..n], agents[..n], i);
    }
  }

  lemma {:induction false} WithWaveOld(ran: RanMap, ready: seq<Spec>, ups: seq<Upstream>, stops: seq<Stops>, agents: seq<Agent>, id: string)
    requires |ready| == |ups| == |stops| == |agents| && id in ran && id !in SpecIds(ready)
    ensures id in WithWave(ran, ready, ups, stops, agents)
    ensures WithWave(ran, ready, ups, stops, agents)[id] == ran[id]
  {
    if ready != [] {
      var n := |ready| - 1;
      assert ready[n] in ready && ready[n].id in SpecIds(ready);
      assert forall s :: s in ready[..n] ==> s in ready;
      assert id !in SpecIds(ready[..n]);
      WithWaveOld(ran, ready[..n], ups[..n], stops[..n], agents[..n], id);
    }
  }

  lemma WithWaveAt(ran: RanMap, ready: seq<Spec>, ups: seq<Upstream>, stops: seq<Stops>, agents: seq<Agent>)
    requires |ready| == |ups| == |stops| == |agents| && UniqueSpecs(ready)
    ensures var r := WithWave(ran, ready, ups, stops, agents);
      && r.Keys == ran.Keys + SpecIds(ready)
      && (forall i :: 0 <= i < |ready| ==> r[ready[i].id] == Ran(ups[i], stops[i], agents[i]))
      && (forall id :: id in ran && id !in SpecIds(ready) ==> r[id] == ran[id])
  {
    var r := WithWave(ran, ready, ups, stops, agents);
    WithWaveKeys(ran, ready, ups, stops, agents);
    forall i | 0 <= i < |ready|
      ensures ready[i].id in r && r[ready[i].id] == Ran(ups[i], stops[i], agents[i])
    {
      WithWaveNew(ran, ready, ups, stops, agents, i);
    }
    forall id | id in ran && id !in SpecIds(ready)
      ensures id in r && r[id] == ran[id]
    {
      WithWaveOld(ran, ready, ups, stops, agents, id);
    }
  }

  lemma {:induction false} OwnAbsent(log: seq<Event>, id: string)
    requires forall e :: e in log ==> e.agentId != id
    ensures Own(log, id) == []
  {
    if log != [] {
      assert log[|log| - 1] in log;
      OwnAbsent(log[..|log| - 1], id);
    }
  }

  lemma PoolIsAgentsOnly(cards: seq<Card>, specs: seq<Spec>, ids: set<string>, log: seq<Event>)
    requires |cards| == |specs| && forall i :: 0 <= i < |specs| ==> cards[i].id == specs[i].id
    requires FromReady(ids, log) && ids <= SpecIds(specs)
    ensures AgentsOnly(cards, log)
  {
    forall e | e in log
      ensures AgentKind(e.kind) && Known(cards, e.agentId)
    {
      assert e.agentId in SpecIds(specs);
      var s :| s in specs && s.id == e.agentId;
      var i :| 0 <= i < |specs| && specs[i] == s;
      assert cards[i].id == e.agentId;
    }
  }

  // The card of an agent that ran in this wave.
  lemma RanCard(s: Spec, c: Card, up: Upstream, stops: Stops, a: Agent, log: seq<Event>)
    requires ToolFree(s.prior) && Blank(c) && c.id == s.id && Filed(s.id)
    requires Play(s, Init(s, up), stops) == Run(a, Own(log, s.id))
    ensures CardInv(a, CardFold(c, Heard(log, s.id)))
  {
    EveryRun(s, c, up, stops);
  }

  // A wave moves exactly the cards of its own agents, each to show its run.
  lemma CardAfterPool(s: Spec, c: Card, ran: RanMap, ready: seq<Spec>, ups: seq<Upstream>, agents: seq<Agent>,
                      stops: seq<Stops>, log: seq<Event>, after: RanMap)
    requires CardInStep(s, c, ran) && ToolFree(s.prior)
    requires Played(ready, ups, agents, stops, log) && FromReady(SpecIds(ready), log) && AllFinished(agents)
    requires UniqueSpecs(ready) && (s.id in SpecIds(ready) ==> s in ready && s.id !in ran)
    requires after == WithWave(ran, ready, ups, stops, agents)
    ensures CardInStep(s, CardFold(c, Heard(log, s.id)), after)
  {
    WithWaveAt(ran, ready, ups, stops, agents);
    CardFoldKeepsTitle(c, Heard(log, s.id));
    if Filed(s.id) && s.id in SpecIds(ready) {
      var i :| 0 <= i < |ready| && ready[i] == s;
      RanCard(s, c, ups[i], stops[i], agents[i], log);
    } else if Filed(s.id) {
      OwnAbsent(log, s.id);
    }
  }

  lemma CardsAfterPool(t: Turn, specs: seq<Spec>, ran: RanMap, ready: seq<Spec>, ups: seq<Upstream>, agents: seq<Agent>,
                       stops: seq<Stops>, log: seq<Event>, after: RanMap)
    requires CardsInStep(t.agents, specs, ran) && UniqueSpecs(specs) && AllToolFree(specs)
    requires Pooled(ready, ups, agents, stops, log) && AllFinished(agents) && UniqueSpecs(ready)
    requires (forall s :: s in ready ==> s in specs) && SpecIds(ready) !! ran.Keys
    requires after == WithWave(ran, ready, ups, stops, agents)
    ensures CardsInStep(PyTurn(t, log).agents, specs, after)
    ensures PyTurn(t, log) == t.(agents := PyTurn(t, log).agents)
  {
    Distinct(t.agents, specs);
    PoolIsAgentsOnly(t.agents, specs, SpecIds(ready), log);
    AgentsFoldAlone(t, log);
    forall i | 0 <= i < |specs|
      ensures CardInStep(specs[i], EachAlone(t.agents, log)[i], after)
    {
      assert specs[i] in specs;
      ReadyIsSpec(specs, ready, i);
      CardAfterPool(specs[i], t.agents[i], ran, ready, ups, agents, stops, log, after);
    }
  }

  lemma ReadyIsSpec(specs: seq<Spec>, ready: seq<Spec>, i: nat)
    requires UniqueSpecs(specs) && (forall s :: s in ready ==> s in specs) && i < |specs|
    ensures specs[i].id in SpecIds(ready) ==> specs[i] in ready
  {
    if specs[i].id in SpecIds(ready) {
      var s :| s in ready && s.id == specs[i].id;
      var j :| 0 <= j < |specs| && specs[j] == s;
    }
  }
}
