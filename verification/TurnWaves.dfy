// The wave loop of _turn_parent (plnt/executors/local.py): what holds of the
// turn's log between two waves, whatever the agents and the operator do.
module TurnWaves {
  import opened Basics
  import opened Events
  import opened Graph
  import G = Graph
  import opened DagExecutor
  import opened Transcript
  import opened TranscriptLaws
  import opened TokenLaws
  import opened AgentLoop
  import opened AgentLaws
  import opened AgentCards
  import opened AgentRuns
  import opened RunState
  import opened AgentPool
  import opened Plans
  import opened TurnCards

  // ------------------------------------------------------------ what an agent is handed

  function Note(r: Res): string {
    if r.answer != "" then r.answer
    else if r.error.Some? && r.error.value != "" then r.error.value
    else "(nothing)"
  }

  predicate HaveAll(deps: seq<string>, results: map<string, Res>) {
    forall d :: d in deps ==> d in results
  }

  // One note for each dependency, in the order the plan names them.
  function Handed(deps: seq<string>, results: map<string, Res>): Upstream
    requires HaveAll(deps, results)
  {
    if deps == [] then []
    else
      var front, d := deps[..|deps| - 1], deps[|deps| - 1];
      if d in front then Handed(front, results) else Handed(front, results) + [(d, Note(results[d]))]
  }

  lemma {:induction false} HandedSame(deps: seq<string>, a: map<string, Res>, b: map<string, Res>)
    requires HaveAll(deps, a) && HaveAll(deps, b) && forall d :: d in deps ==> a[d] == b[d]
    ensures Handed(deps, a) == Handed(deps, b)
  {
    if deps != [] {
      HandedSame(deps[..|deps| - 1], a, b);
    }
  }

  // What an agent is told of one it depends on: its answer, or else its error.
  ghost predicate Tells(note: string, r: Res) {
    && (r.answer != "" ==> note == r.answer)
    && (r.answer == "" && r.error.Some? && r.error.value != "" ==> note == r.error.value)
    && note != ""
  }

  // Exactly one note for each dependency.
  lemma {:induction false} HandedOnce(deps: seq<string>, results: map<string, Res>)
    requires HaveAll(deps, results)
    ensures forall i :: 0 <= i < |Handed(deps, results)| ==>
      Handed(deps, results)[i].0 in deps && Tells(Handed(deps, results)[i].1, results[Handed(deps, results)[i].0])
    ensures forall d :: d in deps ==> exists i :: 0 <= i < |Handed(deps, results)| && Handed(deps, results)[i].0 == d
    ensures forall i, j :: 0 <= i < j < |Handed(deps, results)| ==> Handed(deps, results)[i].0 != Handed(deps, results)[j].0
  {
    if deps != [] {
      var n := |deps| - 1;
      HandedOnce(deps[..n], results);
      assert deps == deps[..n] + [deps[n]];
      var before, all := Handed(deps[..n], results), Handed(deps, results);
      forall d | d in deps
        ensures exists i :: 0 <= i < |all| && all[i].0 == d
      {
        if d in deps[..n] {
          var i :| 0 <= i < |before| && before[i].0 == d;
          assert all[i] == before[i];
        } else {
          assert all[|before|].0 == d;
        }
      }
    }
  }

  // ------------------------------------------------------------ the log so far

  // A log entry of a turn, as every thread writes it.
  predicate Proper(e: Event) {
    !e.kind.UserMessage? && Console.Filled(e.kind) && Sums(e.kind)
  }

  ghost predicate AllProper(log: seq<Event>) {
    forall e :: e in log ==> Proper(e)
  }

  // An agent's entries are its announcement and then exactly its run.
  ghost predicate OwnRun(s: Spec, log: seq<Event>, ran: RanMap) {
    Filed(s.id) ==>
      Own(log, s.id) == [AgentSpawned(None, s.info)] + if s.id in ran then KindsOf(s, ran[s.id]) else []
  }

  ghost predicate OwnRuns(specs: seq<Spec>, log: seq<Event>, ran: RanMap) {
    forall s :: s in specs ==> OwnRun(s, log, ran)
  }

  ghost predicate FinishedIn(log: seq<Event>, id: string) {
    exists e :: e in log && e.agentId == id && e.kind.AgentFinished?
  }

  ghost predicate DepsMet(g: Graph, before: seq<Event>, e: Event) {
    e.agentId in g && Filed(e.agentId) && e.kind.ModelCalled? ==> forall d :: d in g[e.agentId] ==> FinishedIn(before, d)
  }

  // No agent calls its model before every agent it waits for has finished.
  ghost predicate DepsFirst(g: Graph, log: seq<Event>) {
    log == [] || (DepsFirst(g, log[..|log| - 1]) && DepsMet(g, log[..|log| - 1], log[|log| - 1]))
  }

  lemma DepsFirstSnoc(g: Graph, log: seq<Event>, e: Event)
    requires DepsFirst(g, log) && DepsMet(g, log, e)
    ensures DepsFirst(g, log + [e])
  {
    assert (log + [e])[..|log|] == log;
  }

  lemma {:induction false} DepsFirstPool(g: Graph, before: seq<Event>, ids: set<string>, log: seq<Event>)
    requires DepsFirst(g, before) && FromReady(ids, log)
    requires forall id, d :: id in ids && id in g && d in g[id] ==> FinishedIn(before, d)
    ensures DepsFirst(g, before + log)
  {
    if log == [] {
      assert before + log == before;
    } else {
      var front, e := log[..|log| - 1], log[|log| - 1];
      DepsFirstPool(g, before, ids, front);
      assert before + log == (before + front) + [e];
      assert e in log;
      forall d | e.agentId in g && d in g[e.agentId]
        ensures FinishedIn(before + front, d)
      {
        assert e.agentId in ids && FinishedIn(before, d);
        var f :| f in before && f.agentId == d && f.kind.AgentFinished?;
        assert f in before + front;
      }
      DepsFirstSnoc(g, before + front, e);
    }
  }

  lemma {:induction false} OwnMember(log: seq<Event>, id: string, k: Kind)
    requires k in Own(log, id)
    ensures Event(id, k) in log
  {
    var front, e := log[..|log| - 1], log[|log| - 1];
    assert log == front + [e];
    if k in Own(front, id) {
      OwnMember(front, id, k);
    }
  }

  lemma {:induction false} FinishesMember(kinds: seq<Kind>) returns (k: Kind)
    requires Finishes(kinds) > 0
    ensures k in kinds && k.AgentFinished?
  {
    if kinds[|kinds| - 1].AgentFinished? {
      k := kinds[|kinds| - 1];
    } else {
      k := FinishesMember(kinds[..|kinds| - 1]);
    }
  }

  // ------------------------------------------------------------ the agents that ran

  // One agent's run: to its end, on what its dependencies left, and contained.
  ghost predicate RanFine(s: Spec, r: Ran, results: map<string, Res>, polite: bool) {
    && Play(s, Init(s, r.up), r.stops).a == r.a
    && s.id in results && r.a.phase == Ended(results[s.id]) && Explains(results[s.id])
    && HaveAll(s.info.dependsOn, results) && r.up == Handed(s.info.dependsOn, results)
    && (polite ==> Contained(s, KindsOf(s, r)))
  }

  ghost predicate AllRanFine(specs: seq<Spec>, ran: RanMap, results: map<string, Res>, polite: bool) {
    ran.Keys == results.Keys && forall s :: s in specs && s.id in ran ==> RanFine(s, ran[s.id], results, polite)
  }

  lemma RanFineLater(s: Spec, r: Ran, before: map<string, Res>, results: map<string, Res>, polite: bool)
    requires RanFine(s, r, before, polite)
    requires forall id :: id in before ==> id in results && results[id] == before[id]
    ensures RanFine(s, r, results, polite)
  {
    HandedSame(s.info.dependsOn, before, results);
  }

  // The run of one agent of the wave just over.
  lemma RanFineNow(s: Spec, r: Ran, before: map<string, Res>, results: map<string, Res>, polite: bool, stop: Option<string>)
    requires Play(s, Init(s, r.up), r.stops).a == r.a && ToolFree(s.prior)
    requires s.id in results && r.a.phase == Ended(results[s.id])
    requires HaveAll(s.info.dependsOn, before) && r.up == Handed(s.info.dependsOn, before)
    requires forall id :: id in before ==> id in results && results[id] == before[id]
    requires polite ==> Heeded(s, Init(s, r.up), r.stops, stop)
    ensures RanFine(s, r, results, polite)
  {
    HandedSame(s.info.dependsOn, before, results);
    EveryRun(s, NewCard(s.id), r.up, r.stops);
    if polite {
      HeedingRunIsContained(s, r.up, r.stops, stop);
    }
  }

  // What agents of a wave are handed.
  function HandedAll(ready: seq<Spec>, results: map<string, Res>): (ups: seq<Upstream>)
    requires forall i :: 0 <= i < |ready| ==> HaveAll(ready[i].info.dependsOn, results)
    ensures |ups| == |ready|
  {
    seq(|ready|, i requires 0 <= i < |ready| => Handed(ready[i].info.dependsOn, results))
  }

  // What is taken from a finished wave: an exception some thread raised, or
  // the result of every agent.
  ghost predicate Collected(ready: seq<Spec>, agents: seq<Agent>, before: map<string, Res>, crash: Option<Exn>, results: map<string, Res>) {
    && |ready| == |agents|
    && (crash.Some? ==> exists i :: 0 <= i < |agents| && agents[i].phase == Dead(crash.value))
    && (crash.None? ==>
          && results.Keys == before.Keys + SpecIds(ready)
          && (forall id :: id in before ==> results[id] == before[id])
          && (forall i :: 0 <= i < |agents| ==> agents[i].phase == Ended(results[ready[i].id])))
  }

  // results[s.id] = fut.result() for each agent of the wave; the first one
  // that raised ends the turn.
  method Collect(ready: seq<Spec>, agents: seq<Agent>, before: map<string, Res>)
    returns (crash: Option<Exn>, results: map<string, Res>)
    requires |ready| == |agents| && AllFinished(agents) && UniqueSpecs(ready)
    requires SpecIds(ready) !! before.Keys
    ensures Collected(ready, agents, before, crash, results)
  {
    crash, results := None, before;
    for n := 0 to |ready|
      invariant results.Keys == before.Keys + SpecIds(ready[..n])
      invariant forall id :: id in before ==> results[id] == before[id]
      invariant forall i :: 0 <= i < n ==> agents[i].phase == Ended(results[ready[i].id])
    {
      assert ready[n] in ready;
      assert ready[..n + 1] == ready[..n] + [ready[n]];
      match agents[n].phase
      case Ended(res) => results := results[ready[n].id := res];
      case Dead(exn) =>
        crash := Some(exn);
        return;
    }
    assert ready[..|ready|] == ready;
  }

  // ------------------------------------------------------------ one wave

  // Whatever happens, even when an agent's thread dies.
  ghost predicate Logged(text: string, specs: seq<Spec>, log: seq<Event>, ran: RanMap) {
    AllProper(log) && Honest(log) && CardsInStep(PyTurn(NewTurn(text), log).agents, specs, ran)
  }

  // Between two waves: `results` is what the waves so far have left.
  ghost predicate BetweenWaves(text: string, specs: seq<Spec>, g: Graph, log: seq<Event>, ran: RanMap, results: map<string, Res>, polite: bool) {
    && Logged(text, specs, log, ran) && DepsFirst(g, log)
    && OwnRuns(specs, log, ran)
    && AllRanFine(specs, ran, results, polite)
    && (forall id :: id in ran ==> FinishedIn(log, id))
  }

  lemma OwnRunReady(s: Spec, before: seq<Event>, log: seq<Event>, ran: RanMap, after: RanMap)
    requires OwnRun(s, before, ran) && s.id !in ran && s.id in after
    requires KindsOf(s, after[s.id]) == Own(log, s.id)
    ensures OwnRun(s, before + log, after)
  {
    OwnConcat(before, log, s.id);
  }

  lemma OwnRunOther(s: Spec, before: seq<Event>, log: seq<Event>, ran: RanMap, after: RanMap)
    requires OwnRun(s, before, ran) && forall e :: e in log ==> e.agentId != s.id
    requires s.id in ran <==> s.id in after
    requires s.id in ran ==> ran[s.id] == after[s.id]
    ensures OwnRun(s, before + log, after)
  {
    OwnConcat(before, log, s.id);
    OwnAbsent(log, s.id);
  }

  lemma OwnRunAfter(s: Spec, before: seq<Event>, ran: RanMap, ready: seq<Spec>, ups: seq<Upstream>, agents: seq<Agent>,
                    stops: seq<Stops>, log: seq<Event>, after: RanMap)
    requires OwnRun(s, before, ran) && UniqueSpecs(ready)
    requires Played(ready, ups, agents, stops, log) && FromReady(SpecIds(ready), log)
    requires s.id in SpecIds(ready) ==> s in ready && s.id !in ran
    requires after == WithWave(ran, ready, ups, stops, agents)
    ensures OwnRun(s, before + log, after)
  {
    WithWaveAt(ran, ready, ups, stops, agents);
    if s.id in SpecIds(ready) {
      var i :| 0 <= i < |ready| && ready[i] == s;
      assert after[s.id] == Ran(ups[i], stops[i], agents[i]);
      OwnRunReady(s, before, log, ran, after);
    } else {
      OwnRunOther(s, before, log, ran, after);
    }
  }

  lemma OwnRunsAfter(specs: seq<Spec>, before: seq<Event>, ran: RanMap, ready: seq<Spec>, ups: seq<Upstream>, agents: seq<Agent>,
                     stops: seq<Stops>, log: seq<Event>, after: RanMap)
    requires OwnRuns(specs, before, ran) && UniqueSpecs(ready) && UniqueSpecs(specs)
    requires Played(ready, ups, agents, stops, log) && FromReady(SpecIds(ready), log)
    requires (forall s :: s in ready ==> s in specs) && SpecIds(ready) !! ran.Keys
    requires after == WithWave(ran, ready, ups, stops, agents)
    ensures OwnRuns(specs, before + log, after)
  {
    forall s | s in specs
      ensures OwnRun(s, before + log, after)
    {
      var i :| 0 <= i < |specs| && specs[i] == s;
      ReadyIsSpec(specs, ready, i);
      OwnRunAfter(s, before, ran, ready, ups, agents, stops, log, after);
    }
  }

  lemma WaitingIsUnspent(specs: seq<Spec>, log: seq<Event>, ran: RanMap, ready: seq<Spec>)
    requires OwnRuns(specs, log, ran) && (forall s :: s in ready ==> s in specs) && SpecIds(ready) !! ran.Keys
    ensures Unspent(log, SpecIds(ready))
  {
    forall id | id in SpecIds(ready) && Filed(id)
      ensures Tokens(Own(log, id)) == 0
    {
      var s :| s in ready && s.id == id;
      assert OwnRun(s, log, ran);
      var own := [AgentSpawned(None, s.info)];
      assert Own(log, id) == own && own[..0] == [];
    }
  }

  // Everybody who ran to the end has logged it.
  lemma WaveFinished(ready: seq<Spec>, ups: seq<Upstream>, agents: seq<Agent>, stops: seq<Stops>, log: seq<Event>)
    requires Played(ready, ups, agents, stops, log) && AllToolFree(ready)
    requires forall i :: 0 <= i < |agents| ==> agents[i].phase.Ended?
    ensures forall id :: id in SpecIds(ready) ==> FinishedIn(log, id)
  {
    forall id | id in SpecIds(ready)
      ensures FinishedIn(log, id)
    {
      var s :| s in ready && s.id == id;
      var i :| 0 <= i < |ready| && ready[i] == s;
      EveryRun(s, NewCard(id), ups[i], stops[i]);
      var k := FinishesMember(Own(log, id));
      OwnMember(log, id, k);
    }
  }

  lemma FinishedLater(before: seq<Event>, log: seq<Event>, id: string)
    requires FinishedIn(before, id) || FinishedIn(log, id)
    ensures FinishedIn(before + log, id)
  {
    if FinishedIn(before, id) {
      var e :| e in before && e.agentId == id && e.kind.AgentFinished?;
      assert e in before + log;
    } else {
      var e :| e in log && e.agentId == id && e.kind.AgentFinished?;
      assert e in before + log;
    }
  }

  lemma AllRanFineAfter(specs: seq<Spec>, ran: RanMap, ready: seq<Spec>, ups: seq<Upstream>, agents: seq<Agent>,
                        stops: seq<Stops>, log: seq<Event>, after: RanMap, before: map<string, Res>, results: map<string, Res>,
                        stop: Option<string>, polite: bool)
    requires AllRanFine(specs, ran, before, polite) && UniqueSpecs(ready) && UniqueSpecs(specs) && AllToolFree(specs)
    requires Played(ready, ups, agents, stops, log) && (polite ==> AllHeed(ready, ups, stops, stop))
    requires (forall s :: s in ready ==> s in specs) && SpecIds(ready) !! ran.Keys
    requires forall i :: 0 <= i < |ready| ==> HaveAll(ready[i].info.dependsOn, before)
    requires ups == HandedAll(ready, before)
    requires results.Keys == before.Keys + SpecIds(ready) && forall id :: id in before ==> results[id] == before[id]
    requires forall i :: 0 <= i < |agents| ==> agents[i].phase == Ended(results[ready[i].id])
    requires after == WithWave(ran, ready, ups, stops, agents)
    ensures AllRanFine(specs, after, results, polite)
  {
    WithWaveAt(ran, ready, ups, stops, agents);
    forall s | s in specs && s.id in after
      ensures RanFine(s, after[s.id], results, polite)
    {
      if s.id in SpecIds(ready) {
        var j :| 0 <= j < |specs| && specs[j] == s;
        ReadyIsSpec(specs, ready, j);
        var i :| 0 <= i < |ready| && ready[i] == s;
        RanFineNow(s, after[s.id], before, results, polite, stop);
      } else {
        RanFineLater(s, ran[s.id], before, results, polite);
      }
    }
  }

  // The agents of a wave are agents of the plan that have not run yet.
  ghost predicate Waiting(specs: seq<Spec>, ran: RanMap, ready: seq<Spec>) {
    UniqueSpecs(ready) && (forall s :: s in ready ==> s in specs) && SpecIds(ready) !! ran.Keys
  }

  lemma LoggedAfter(text: string, specs: seq<Spec>, before: seq<Event>, ran: RanMap, ready: seq<Spec>, ups: seq<Upstream>,
                    agents: seq<Agent>, stops: seq<Stops>, log: seq<Event>, after: RanMap)
    requires Logged(text, specs, before, ran) && UniqueSpecs(specs) && AllToolFree(specs) && Waiting(specs, ran, ready)
    requires Pooled(ready, ups, agents, stops, log) && AllFinished(agents) && Honest(before + log)
    requires after == WithWave(ran, ready, ups, stops, agents)
    ensures Logged(text, specs, before + log, after)
  {
    CardsAfterPool(PyTurn(NewTurn(text), before), specs, ran, ready, ups, agents, stops, log, after);
    PyTurnConcat(NewTurn(text), before, log);
  }

  lemma WaveOver(text: string, specs: seq<Spec>, g: Graph, before: seq<Event>, ran: RanMap, ready: seq<Spec>, ups: seq<Upstream>,
                 agents: seq<Agent>, stops: seq<Stops>, log: seq<Event>, after: RanMap, had: map<string, Res>,
                 results: map<string, Res>, stop: Option<string>, polite: bool)
    requires BetweenWaves(text, specs, g, before, ran, had, polite)
    requires UniqueSpecs(specs) && AllToolFree(specs) && Waiting(specs, ran, ready) && Plans.Describes(specs, g)
    requires forall i :: 0 <= i < |ready| ==> HaveAll(ready[i].info.dependsOn, had)
    requires ups == HandedAll(ready, had)
    requires PoolInv(ready, ups, agents, stops, log, before, stop, polite) && AllFinished(agents)
    requires results.Keys == had.Keys + SpecIds(ready) && forall id :: id in had ==> results[id] == had[id]
    requires forall i :: 0 <= i < |agents| ==> agents[i].phase == Ended(results[ready[i].id])
    requires after == WithWave(ran, ready, ups, stops, agents)
    ensures BetweenWaves(text, specs, g, before + log, after, results, polite)
  {
    WaitingIsUnspent(specs, before, ran, ready);
    LoggedAfter(text, specs, before, ran, ready, ups, agents, stops, log, after);
    OwnRunsAfter(specs, before, ran, ready, ups, agents, stops, log, after);
    AllRanFineAfter(specs, ran, ready, ups, agents, stops, log, after, had, results, stop, polite);
    DepsFirstPool(g, before, SpecIds(ready), log);
    WaveFinished(ready, ups, agents, stops, log);
    FinishedAfter(before, log, ran, ready, ups, stops, agents);
  }

  lemma FinishedAfter(before: seq<Event>, log: seq<Event>, ran: RanMap, ready: seq<Spec>, ups: seq<Upstream>, stops: seq<Stops>, agents: seq<Agent>)
    requires |ready| == |ups| == |stops| == |agents| && UniqueSpecs(ready)
    requires forall id :: id in ran ==> FinishedIn(before, id)
    requires forall id :: id in SpecIds(ready) ==> FinishedIn(log, id)
    ensures forall id :: id in WithWave(ran, ready, ups, stops, agents) ==> FinishedIn(before + log, id)
  {
    WithWaveAt(ran, ready, ups, stops, agents);
    forall id | id in ran.Keys + SpecIds(ready)
      ensures FinishedIn(before + log, id)
    {
      FinishedLater(before, log, id);
    }
  }

  // ------------------------------------------------------------ the loop

  // How the loop over waves ended.
  datatype WaveEnd = AllRan | StoppedEarly | Stuck | Crash(exn: Exn)

  ghost predicate SomeMayDie(specs: seq<Spec>) {
    exists s :: s in specs && MayDie(s)
  }

  lemma SomeoneDied(specs: seq<Spec>, ready: seq<Spec>, ups: seq<Upstream>, agents: seq<Agent>, stops: seq<Stops>, log: seq<Event>, exn: Exn)
    requires Played(ready, ups, agents, stops, log) && exists i :: 0 <= i < |agents| && agents[i].phase == Dead(exn)
    requires forall s :: s in ready ==> s in specs
    ensures SomeMayDie(specs)
  {
    var i :| 0 <= i < |agents| && agents[i].phase == Dead(exn);
    DeadRun(ready[i], ups[i], stops[i]);
    assert ready[i] in specs;
  }

  lemma WaveDied(text: string, specs: seq<Spec>, before: seq<Event>, ran: RanMap, ready: seq<Spec>, ups: seq<Upstream>,
                 agents: seq<Agent>, stops: seq<Stops>, log: seq<Event>, stop: Option<string>, polite: bool, exn: Exn)
    requires Logged(text, specs, before, ran) && OwnRuns(specs, before, ran)
    requires UniqueSpecs(specs) && AllToolFree(specs) && Waiting(specs, ran, ready)
    requires PoolInv(ready, ups, agents, stops, log, before, stop, polite) && AllFinished(agents)
    requires exists i :: 0 <= i < |agents| && agents[i].phase == Dead(exn)
    ensures Logged(text, specs, before + log, WithWave(ran, ready, ups, stops, agents)) && SomeMayDie(specs)
  {
    WaitingIsUnspent(specs, before, ran, ready);
    SomeoneDied(specs, ready, ups, agents, stops, log, exn);
    LoggedAfter(text, specs, before, ran, ready, ups, agents, stops, log, WithWave(ran, ready, ups, stops, agents));
  }

  // What a wave leaves, whether or not a thread died.
  lemma WaveEnds(text: string, specs: seq<Spec>, g: Graph, before: seq<Event>, ran: RanMap, ready: seq<Spec>, ups: seq<Upstream>,
                 agents: seq<Agent>, stops: seq<Stops>, log: seq<Event>, had: map<string, Res>, results: map<string, Res>,
                 stop: Option<string>, polite: bool, crash: Option<Exn>, after: RanMap)
    requires BetweenWaves(text, specs, g, before, ran, had, polite)
    requires UniqueSpecs(specs) && AllToolFree(specs) && Waiting(specs, ran, ready) && Plans.Describes(specs, g)
    requires forall i :: 0 <= i < |ready| ==> HaveAll(ready[i].info.dependsOn, had)
    requires ups == HandedAll(ready, had)
    requires PoolInv(ready, ups, agents, stops, log, before, stop, polite) && AllFinished(agents)
    requires after == WithWave(ran, ready, ups, stops, agents)
    requires Collected(ready, agents, had, crash, results)
    ensures crash.Some? ==> Logged(text, specs, before + log, after) && SomeMayDie(specs)
    ensures crash.None? ==>
      BetweenWaves(text, specs, g, before + log, after, results, polite)
  {
    if crash.None? {
      WaveOver(text, specs, g, before, ran, ready, ups, agents, stops, log, after, had, results, stop, polite);
    } else {
      WaveDied(text, specs, before, ran, ready, ups, agents, stops, log, stop, polite, crash.value);
    }
  }

  // One wave of the loop: everything ready runs in parallel.
  method RunWave(db: Db, state: State, ready: seq<Spec>, had: map<string, Res>, ghost text: string, ghost specs: seq<Spec>,
                 ghost g: Graph, ghost m: Mark, ghost before: seq<Event>, ghost ranBefore: RanMap)
    returns (crash: Option<Exn>, results: map<string, Res>, ghost log: seq<Event>, ghost ran: RanMap)
    requires UniqueSpecs(specs) && AllToolFree(specs) && Plans.Describes(specs, g)
    requires BetweenWaves(text, specs, g, before, ranBefore, had, state.polite) && Waiting(specs, ranBefore, ready)
    requires forall i :: 0 <= i < |ready| ==> HaveAll(ready[i].info.dependsOn, had)
    requires Wrote(db, state, m, before) && (state.polite ==> state.stopReason != Some(""))
    modifies db, state
    ensures Wrote(db, state, m, log) && (state.polite ==> state.stopReason != Some(""))
    ensures crash.Some? ==> Logged(text, specs, log, ran) && SomeMayDie(specs)
    ensures crash.None? ==> BetweenWaves(text, specs, g, log, ran, results, state.polite)
    ensures crash.None? ==> results.Keys == had.Keys + SpecIds(ready)
    ensures before <= log
  {
    var ups := HandedAll(ready, had);
    var agents;
    ghost var stops, more;
    agents, stops, more := RunPool(db, state, ready, ups, before, m);
    Longer(before, before, more);
    log, ran := before + more, WithWave(ranBefore, ready, ups, stops, agents);
    crash, results := TakeResults(ready, agents, had, text, specs, g, before, ranBefore, ups, stops, more, state.stopReason, state.polite, ran);
  }

  // The results of a wave that is over, and what the wave leaves.
  method TakeResults(ready: seq<Spec>, agents: seq<Agent>, had: map<string, Res>, ghost text: string, ghost specs: seq<Spec>,
                     ghost g: Graph, ghost before: seq<Event>, ghost ran: RanMap, ghost ups: seq<Upstream>, ghost stops: seq<Stops>,
                     ghost log: seq<Event>, ghost stop: Option<string>, ghost polite: bool, ghost after: RanMap)
    returns (crash: Option<Exn>, results: map<string, Res>)
    requires BetweenWaves(text, specs, g, before, ran, had, polite)
    requires UniqueSpecs(specs) && AllToolFree(specs) && Waiting(specs, ran, ready) && Plans.Describes(specs, g)
    requires forall i :: 0 <= i < |ready| ==> HaveAll(ready[i].info.dependsOn, had)
    requires ups == HandedAll(ready, had)
    requires PoolInv(ready, ups, agents, stops, log, before, stop, polite) && AllFinished(agents)
    requires after == WithWave(ran, ready, ups, stops, agents)
    ensures crash.Some? ==> Logged(text, specs, before + log, after) && SomeMayDie(specs)
    ensures crash.None? ==> BetweenWaves(text, specs, g, before + log, after, results, polite)
    ensures crash.None? ==> results.Keys == had.Keys + SpecIds(ready)
  {
    crash, results := Collect(ready, agents, had);
    WaveEnds(text, specs, g, before, ran, ready, ups, agents, stops, log, had, results, stop, polite, crash, after);
  }

  // Where the loop stands: the waves so far, and nothing else, have run.
  ghost predicate InWaves(specs: seq<Spec>, g: Graph, waves: seq<set<string>>, remaining: seq<Spec>, results: map<string, Res>) {
    && AllWaves(g, waves)
    && results.Keys == G.Done(g, |waves|)
    && remaining == Rest(specs, results.Keys)
  }

  lemma PickWave(specs: seq<Spec>, g: Graph, waves: seq<set<string>>, remaining: seq<Spec>, results: map<string, Res>, ran: RanMap, ready: seq<Spec>)
    requires UniqueSpecs(specs) && Plans.Describes(specs, g) && InWaves(specs, g, waves, remaining, results)
    requires ran.Keys == results.Keys && ready == Ready(remaining, results.Keys)
    ensures Waiting(specs, ran, ready) && SpecIds(ready) == Wave(g, |waves|)
    ensures forall i :: 0 <= i < |ready| ==> HaveAll(ready[i].info.dependsOn, results)
  {
    ReadyIsWave(specs, g, |waves|);
    RestMembers(specs, results.Keys);
    ReadyMembers(remaining, results.Keys);
    RestUnique(specs, results.Keys);
    ReadyUnique(remaining, results.Keys);
    forall i | 0 <= i < |ready|
      ensures HaveAll(ready[i].info.dependsOn, results)
    {
      assert ready[i] in ready;
    }
  }

  lemma AllWavesSnoc(g: Graph, waves: seq<set<string>>, wave: set<string>)
    requires AllWaves(g, waves) && wave == Wave(g, |waves|) != {}
    ensures AllWaves(g, waves + [wave])
    ensures G.Done(g, |waves|) + wave == G.Done(g, |waves| + 1) <= g.Keys
    ensures G.Done(g, |waves|) < G.Done(g, |waves| + 1)
  {
    DoneGrows(g, |waves|);
    assert (waves + [wave])[..|waves|] == waves;
  }

  lemma NextWaves(specs: seq<Spec>, g: Graph, waves: seq<set<string>>, remaining: seq<Spec>, had: map<string, Res>,
                  wave: set<string>, results: map<string, Res>)
    requires InWaves(specs, g, waves, remaining, had)
    requires wave == Wave(g, |waves|) != {} && results.Keys == had.Keys + wave
    ensures InWaves(specs, g, waves + [wave], Rest(remaining, results.Keys), results)
    ensures G.Done(g, |waves|) < G.Done(g, |waves| + 1) <= g.Keys
  {
    AllWavesSnoc(g, waves, wave);
    RestRest(specs, had.Keys, results.Keys);
    assert had.Keys + results.Keys == results.Keys;
  }

  lemma StuckNow(specs: seq<Spec>, g: Graph, waves: seq<set<string>>, remaining: seq<Spec>, results: map<string, Res>)
    requires Plans.Describes(specs, g) && InWaves(specs, g, waves, remaining, results)
    requires Wave(g, |waves|) == {}
    ensures SpecIds(remaining) == BlockedNodes(g)
    ensures results.Keys == g.Keys - BlockedNodes(g)
  {
    WaveDeleted(specs, g, |waves|);
    LeftIsBlocked(g, |waves|);
    DoneGrows(g, |waves|);
  }

  lemma AllRanNow(specs: seq<Spec>, g: Graph, waves: seq<set<string>>, remaining: seq<Spec>, results: map<string, Res>)
    requires Plans.Describes(specs, g) && InWaves(specs, g, waves, remaining, results) && remaining == []
    ensures results.Keys == g.Keys && BlockedNodes(g) == {}
  {
    WaveDeleted(specs, g, |waves|);
    DoneGrows(g, |waves|);
    assert SpecIds(remaining) == {};
    forall id | id in g
      ensures id in G.Done(g, |waves|)
    {
      assert id !in g.Keys - G.Done(g, |waves|);
    }
    AllDoneNoneBlocked(g, |waves|);
  }

  // The loop's invariant.
  ghost predicate Waving(text: string, specs: seq<Spec>, g: Graph, log: seq<Event>, ran: RanMap, results: map<string, Res>,
                         polite: bool, waves: seq<set<string>>, remaining: seq<Spec>) {
    BetweenWaves(text, specs, g, log, ran, results, polite) && InWaves(specs, g, waves, remaining, results)
  }

  // One round of the loop that finds agents ready.
  method RunRound(db: Db, state: State, before: seq<Spec>, ready: seq<Spec>, had: map<string, Res>, ghost text: string,
                  ghost specs: seq<Spec>, ghost g: Graph, ghost m: Mark, ghost log0: seq<Event>, ghost ran0: RanMap,
                  ghost waves: seq<set<string>>)
    returns (crash: Option<Exn>, results: map<string, Res>, remaining: seq<Spec>, ghost log: seq<Event>, ghost ran: RanMap)
    requires UniqueSpecs(specs) && AllToolFree(specs) && Plans.Describes(specs, g)
    requires Waving(text, specs, g, log0, ran0, had, state.polite, waves, before)
    requires ready == Ready(before, had.Keys) && ready != []
    requires Wrote(db, state, m, log0) && (state.polite ==> state.stopReason != Some(""))
    modifies db, state
    ensures Wrote(db, state, m, log) && (state.polite ==> state.stopReason != Some(""))
    ensures crash.Some? ==> Logged(text, specs, log, ran) && SomeMayDie(specs)
    ensures crash.None? ==> Waving(text, specs, g, log, ran, results, state.polite, waves + [Wave(g, |waves|)], remaining)
    ensures crash.None? ==> |remaining| < |before|
    ensures log0 <= log
    ensures crash.None? ==> results.Keys == had.Keys + SpecIds(ready)
    ensures UniqueSpecs(ready) && SpecIds(ready) !! had.Keys
  {
    PickWave(specs, g, waves, before, had, ran0, ready);
    assert ready[0] in ready && ready[0].id in SpecIds(ready);
    AllWavesSnoc(g, waves, SpecIds(ready));
    crash, results, log, ran := RunWave(db, state, ready, had, text, specs, g, m, log0, ran0);
    remaining := Rest(before, results.Keys);
    if crash.None? {
      NextWaves(specs, g, waves, before, had, SpecIds(ready), results);
      ReadyMembers(before, had.Keys);
      RestShrinks(before, results.Keys, ready[0]);
    }
  }

  // Why the loop is over.
  function LoopEnd(remaining: seq<Spec>, results: map<string, Res>, stop: Option<string>): WaveEnd {
    if remaining == [] then AllRan else if Halted(stop) then StoppedEarly else WaveEnd.Stuck
  }

  lemma WavesStart(text: string, specs: seq<Spec>, g: Graph, log: seq<Event>, results: map<string, Res>, ran: RanMap, polite: bool)
    requires BetweenWaves(text, specs, g, log, ran, results, polite) && results == map[]
    ensures Waving(text, specs, g, log, ran, results, polite, [], specs)
  {
    RestAll(specs);
    assert results.Keys == {};
  }

  // Left alone, the loop runs exactly the agents no cycle or missing agent
  // holds up, and gets stuck exactly when some are held up.
  lemma LoopOver(text: string, specs: seq<Spec>, g: Graph, log: seq<Event>, ran: RanMap, results: map<string, Res>,
                 polite: bool, waves: seq<set<string>>, remaining: seq<Spec>, stop: Option<string>)
    requires UniqueSpecs(specs) && Plans.Describes(specs, g)
    requires Waving(text, specs, g, log, ran, results, polite, waves, remaining)
    requires remaining == [] || Halted(stop) || Ready(remaining, results.Keys) == []
    ensures match LoopEnd(remaining, results, stop)
      case AllRan => results.Keys == g.Keys && BlockedNodes(g) == {}
      case Stuck => results.Keys == g.Keys - BlockedNodes(g) && SpecIds(remaining) == BlockedNodes(g) && remaining != []
      case _ => Halted(stop) && remaining != []
  {
    if remaining == [] {
      AllRanNow(specs, g, waves, remaining, results);
    } else if !Halted(stop) {
      PickWave(specs, g, waves, remaining, results, ran, []);
      assert SpecIds([]) == {};
      StuckNow(specs, g, waves, remaining, results);
    }
  }

  lemma WaveInOrder(specs: seq<Spec>, g: Graph, waves: seq<set<string>>, remaining: seq<Spec>, results: map<string, Res>)
    requires Plans.Describes(specs, g) && InWaves(specs, g, waves, remaining, results)
    ensures OrderOf(specs, waves + [Wave(g, |waves|)]) == OrderOf(specs, waves) + IdSeq(Ready(remaining, results.Keys))
  {
    ReadyInOrder(specs, g, |waves|);
    OrderSnoc(specs, waves, Wave(g, |waves|));
  }

  // The loop of _turn_parent: wave after wave, until nobody is left, the run is
  // stopped, nobody is ready, or an agent's thread died. `order` is the order
  // in which `results` was filled.
  method RunWaves(db: Db, state: State, specs: seq<Spec>, ghost text: string, ghost g: Graph, ghost m: Mark, ghost before: seq<Event>)
    returns (end: WaveEnd, results: map<string, Res>, order: seq<string>, remaining: seq<Spec>,
             ghost log: seq<Event>, ghost ran: RanMap, ghost waves: seq<set<string>>)
    requires UniqueSpecs(specs) && AllToolFree(specs) && Plans.Describes(specs, g)
    requires BetweenWaves(text, specs, g, before, map[], map[], state.polite)
    requires Wrote(db, state, m, before) && (state.polite ==> state.stopReason != Some(""))
    modifies db, state
    ensures Wrote(db, state, m, log)
    ensures end.Crash? ==> Logged(text, specs, log, ran) && SomeMayDie(specs)
    ensures !end.Crash? ==> Waving(text, specs, g, log, ran, results, state.polite, waves, remaining)
    ensures !end.Crash? ==> order == OrderOf(specs, waves) && Lists(order, results.Keys) && end == LoopEnd(remaining, results, state.stopReason)
    ensures end.Stuck? ==> Ready(remaining, results.Keys) == []
    ensures before <= log
  {
    results, order, remaining, log, ran, waves := map[], [], specs, before, map[], [];
    WavesStart(text, specs, g, before, results, ran, state.polite);
    var crash: Option<Exn> := None;
    var ready := Ready(remaining, results.Keys);
    while crash.None? && remaining != [] && !Halted(state.stopReason) && ready != []
      invariant Wrote(db, state, m, log) && (state.polite ==> state.stopReason != Some(""))
      invariant crash.Some? ==> Logged(text, specs, log, ran) && SomeMayDie(specs)
      invariant crash.None? ==> Waving(text, specs, g, log, ran, results, state.polite, waves, remaining)
      invariant crash.None? ==> ready == Ready(remaining, results.Keys) && Lists(order, results.Keys)
      invariant order == OrderOf(specs, waves) && before <= log
      decreases crash.None?, |remaining|
    {
      ghost var had := results;
      WaveInOrder(specs, g, waves, remaining, results);
      crash, results, remaining, log, ran := RunRound(db, state, remaining, ready, results, text, specs, g, m, log, ran, waves);
      if crash.None? {
        ListsMore(order, had.Keys, ready);
      }
      order := order + IdSeq(ready);
      waves := waves + [Wave(g, |waves|)];
      ready := Ready(remaining, results.Keys);
    }
    end := if crash.Some? then Crash(crash.value) else LoopEnd(remaining, results, state.stopReason);
  }
}
