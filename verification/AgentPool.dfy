// The agents of one wave in the thread pool (plnt/executors/local.py,
// _turn_parent): any agent that is not finished may take its next step, and
// an operator may kill the run between any two steps.
module AgentPool {
  import opened Basics
  import opened Events
  import opened Console
  import opened TokenLaws
  import opened AgentLoop
  import opened AgentLaws
  import opened AgentCards
  import opened AgentRuns
  import opened RunState
  import Transcript

  type Upstream = seq<(string, string)>
  type Stops = seq<Option<string>>

  ghost predicate UniqueSpecs(specs: seq<Spec>) {
    forall i, j :: 0 <= i < j < |specs| ==> specs[i].id != specs[j].id
  }

  ghost function SpecIds(specs: seq<Spec>): set<string> {
    set s | s in specs :: s.id
  }

  ghost predicate AllToolFree(specs: seq<Spec>) {
    forall s :: s in specs ==> ToolFree(s.prior)
  }

  // An event as the executor's own emit() writes it.
  predicate Emitted(e: Event) {
    AgentKind(e.kind) && Filled(e.kind) && Sums(e.kind)
  }

  // What every agent logged is a run of its own machine.
  ghost predicate Pooled(ready: seq<Spec>, ups: seq<Upstream>, agents: seq<Agent>, stops: seq<Stops>, log: seq<Event>) {
    Played(ready, ups, agents, stops, log) && FromReady(SpecIds(ready), log)
  }

  ghost predicate Played(ready: seq<Spec>, ups: seq<Upstream>, agents: seq<Agent>, stops: seq<Stops>, log: seq<Event>) {
    && |ready| == |ups| == |agents| == |stops|
    && forall i :: 0 <= i < |ready| ==>
         Play(ready[i], Init(ready[i], ups[i]), stops[i]) == Run(agents[i], Own(log, ready[i].id))
  }

  ghost predicate FromReady(ids: set<string>, log: seq<Event>) {
    forall e :: e in log ==> Emitted(e) && e.agentId in ids
  }

  ghost predicate AllHeed(ready: seq<Spec>, ups: seq<Upstream>, stops: seq<Stops>, stop: Option<string>) {
    && |ready| == |ups| == |stops| && stop != Some("")
    && forall i :: 0 <= i < |ready| ==> Heeded(ready[i], Init(ready[i], ups[i]), stops[i], stop)
  }

  function Stamp(id: string, out: seq<Kind>): seq<Event> {
    if out == [] then [] else [Event(id, out[0])]
  }

  lemma OwnStamp(log: seq<Event>, id: string, out: seq<Kind>, x: string)
    requires |out| <= 1
    ensures Own(log + Stamp(id, out), x) == Own(log, x) + if x == id then out else []
  {
    if out == [] {
      assert log + [] == log;
    } else {
      OwnSnoc(log, Event(id, out[0]), x);
      assert out == [out[0]];
    }
  }

  lemma StepEmits(s: Spec, upstream: Upstream, stops: Stops, stop: Option<string>)
    requires ToolFree(s.prior)
    ensures var r := Play(s, Init(s, upstream), stops);
      var out := Next(s, r.a, stop).out;
      out == [] ||
      (|out| == 1 && Emitted(Event(s.id, out[0])) && (out[0].AgentFinished? ==> out[0].total == Some(Tokens(r.kinds))))
  {
    EveryRun(s, Transcript.NewCard(s.id), upstream, stops);
    EmittedStep(s, Play(s, Init(s, upstream), stops).a, stop);
  }

  lemma OwnOthers(ready: seq<Spec>, log: seq<Event>, i: nat, out: seq<Kind>)
    requires UniqueSpecs(ready) && i < |ready| && |out| <= 1
    ensures forall j :: 0 <= j < |ready| ==>
      Own(log + Stamp(ready[i].id, out), ready[j].id) == if j == i then Own(log, ready[j].id) + out else Own(log, ready[j].id)
  {
    forall j | 0 <= j < |ready|
      ensures Own(log + Stamp(ready[i].id, out), ready[j].id) == if j == i then Own(log, ready[j].id) + out else Own(log, ready[j].id)
    {
      OwnStamp(log, ready[i].id, out, ready[j].id);
      assert Own(log, ready[j].id) + [] == Own(log, ready[j].id);
    }
  }

  lemma PoolStep(ready: seq<Spec>, ups: seq<Upstream>, agents: seq<Agent>, stops: seq<Stops>, log: seq<Event>,
                 i: nat, longer: Stops, b: Agent, out: seq<Kind>)
    requires Played(ready, ups, agents, stops, log) && UniqueSpecs(ready) && i < |ready| && |out| <= 1
    requires Play(ready[i], Init(ready[i], ups[i]), longer) == Run(b, Own(log, ready[i].id) + out)
    ensures Played(ready, ups, agents[i := b], stops[i := longer], log + Stamp(ready[i].id, out))
  {
    OwnOthers(ready, log, i, out);
  }

  lemma FromReadyStep(ids: set<string>, log: seq<Event>, id: string, out: seq<Kind>)
    requires FromReady(ids, log) && id in ids && (out == [] || (|out| == 1 && Emitted(Event(id, out[0]))))
    ensures FromReady(ids, log + Stamp(id, out))
  {
  }

  lemma HeedStep(ready: seq<Spec>, ups: seq<Upstream>, agents: seq<Agent>, stops: seq<Stops>, log: seq<Event>,
                 i: nat, stop: Option<string>, later: Option<string>)
    requires Pooled(ready, ups, agents, stops, log) && AllHeed(ready, ups, stops, stop) && i < |ready|
    requires later == Next(ready[i], agents[i], stop).stop
    ensures AllHeed(ready, ups, stops[i := stops[i] + [stop]], later)
  {
    StopStays(ready[i], agents[i], stop);
    HeededSnoc(ready[i], Init(ready[i], ups[i]), stops[i], stop, later);
    forall j | 0 <= j < |ready| && j != i
      ensures Heeded(ready[j], Init(ready[j], ups[j]), stops[j], later)
    {
      HeededLater(ready[j], Init(ready[j], ups[j]), stops[j], stop, later);
    }
  }

  lemma HeedLater(ready: seq<Spec>, ups: seq<Upstream>, stops: seq<Stops>, stop: Option<string>, later: Option<string>)
    requires AllHeed(ready, ups, stops, stop) && later != Some("") && (Halted(stop) ==> Halted(later))
    ensures AllHeed(ready, ups, stops, later)
  {
    forall j | 0 <= j < |ready|
      ensures Heeded(ready[j], Init(ready[j], ups[j]), stops[j], later)
    {
      HeededLater(ready[j], Init(ready[j], ups[j]), stops[j], stop, later);
    }
  }

  // ------------------------------------------------------------ termination

  function RankSum(ready: seq<Spec>, agents: seq<Agent>): nat
    requires |ready| == |agents|
  {
    if ready == [] then 0
    else RankSum(ready[..|ready| - 1], agents[..|agents| - 1]) + Rank(ready[|ready| - 1], agents[|agents| - 1])
  }

  lemma {:induction false} RankSumUpdate(ready: seq<Spec>, agents: seq<Agent>, i: nat, b: Agent)
    requires |ready| == |agents| && i < |ready|
    ensures RankSum(ready, agents[i := b]) == RankSum(ready, agents) - Rank(ready[i], agents[i]) + Rank(ready[i], b)
  {
    var n := |ready| - 1;
    if i < n {
      RankSumUpdate(ready[..n], agents[..n], i, b);
      assert agents[i := b][..n] == agents[..n][i := b];
    } else {
      assert agents[i := b][..n] == agents[..n];
    }
  }

  // ------------------------------------------------------------ honest totals

  lemma {:induction false} TokensConcat(a: seq<Kind>, b: seq<Kind>)
    ensures Tokens(a + b) == Tokens(a) + Tokens(b)
  {
    if b == [] {
      assert a + b == a;
    } else {
      var front, last := b[..|b| - 1], b[|b| - 1];
      TokensConcat(a, front);
      assert a + b == (a + front) + [last];
      TokensSnoc(a + front, last);
    }
  }

  // Before its wave an agent has used nothing.
  ghost predicate Unspent(before: seq<Event>, ids: set<string>) {
    forall id :: id in ids && Filed(id) ==> Tokens(Own(before, id)) == 0
  }

  lemma HonestStep(before: seq<Event>, log: seq<Event>, ids: set<string>, id: string, out: seq<Kind>)
    requires Honest(before + log) && Unspent(before, ids) && id in ids
    requires out == [] || (|out| == 1 && (out[0].AgentFinished? ==> out[0].total == Some(Tokens(Own(log, id)))))
    ensures Honest(before + (log + Stamp(id, out)))
  {
    if out == [] {
      AddNothing(log);
    } else {
      OwnConcat(before, log, id);
      TokensConcat(Own(before, id), Own(log, id));
      HonestSnoc(before + log, Event(id, out[0]));
      Assoc(before, log, [Event(id, out[0])]);
    }
  }

  // ------------------------------------------------------------ the pool

  function UsageKey(s: Spec): string {
    if s.info.bundle.Some? && s.info.bundle.value != "" then s.info.bundle.value else "role:" + s.info.role
  }

  // A model's answer is booked once, to the agent's bundle, or to its role when
  // it has none; nothing else is booked.
  ghost predicate Booked(s: Spec, out: seq<Kind>, before: seq<Usage>, after: seq<Usage>) {
    if out != [] && out[0].ModelResult? then
      && |after| == |before| + 1 && before <= after
      && after[|before|].prompt == out[0].prompt && after[|before|].completion == out[0].completion
      && (s.info.bundle.Some? && s.info.bundle != Some("") ==> after[|before|].key == s.info.bundle.value)
      && (s.info.bundle.None? || s.info.bundle == Some("") ==> after[|before|].key == "role:" + s.info.role)
    else after == before
  }

  method EmitAll(db: Db, state: State, s: Spec, out: seq<Kind>, ghost m: Mark, ghost log: seq<Event>)
    requires Wrote(db, state, m, log) && (out == [] || (|out| == 1 && Sums(out[0])))
    modifies db, state`tokens
    ensures Wrote(db, state, m, log + Stamp(s.id, out)) && Booked(s, out, old(db.usage), db.usage)
  {
    if out == [] {
      assert log + [] == log;
    } else {
      ghost var longer := Write(db, state, s.id, UsageKey(s), out[0], m, log);
    }
  }

  function Started(ready: seq<Spec>, ups: seq<Upstream>): (agents: seq<Agent>)
    requires |ups| == |ready|
    ensures |agents| == |ready|
  {
    seq(|ready|, i requires 0 <= i < |ready| => Init(ready[i], ups[i]))
  }

  predicate AllFinished(agents: seq<Agent>) {
    forall i :: 0 <= i < |agents| ==> Finished(agents[i])
  }

  // The log, the books and the stop reason after the agents' steps so far.
  ghost predicate PoolInv(ready: seq<Spec>, ups: seq<Upstream>, agents: seq<Agent>, stops: seq<Stops>, log: seq<Event>,
                          before: seq<Event>, stop: Option<string>, polite: bool) {
    && Pooled(ready, ups, agents, stops, log)
    && (Honest(before) && Unspent(before, SpecIds(ready)) ==> Honest(before + log))
    && (polite ==> AllHeed(ready, ups, stops, stop))
  }

  lemma PoolStarts(ready: seq<Spec>, ups: seq<Upstream>, before: seq<Event>, stop: Option<string>, polite: bool)
    requires |ups| == |ready| && (polite ==> stop != Some(""))
    ensures PoolInv(ready, ups, Started(ready, ups), seq(|ready|, i => []), [], before, stop, polite)
  {
    assert before + [] == before;
  }

  lemma PoolMoves(ready: seq<Spec>, ups: seq<Upstream>, agents: seq<Agent>, stops: seq<Stops>, log: seq<Event>,
                  before: seq<Event>, stop: Option<string>, polite: bool, i: nat, t: Tick)
    requires PoolInv(ready, ups, agents, stops, log, before, stop, polite)
    requires UniqueSpecs(ready) && AllToolFree(ready) && i < |ready| && t == Next(ready[i], agents[i], stop)
    ensures t.out == [] || (|t.out| == 1 && Emitted(Event(ready[i].id, t.out[0])))
    ensures PoolInv(ready, ups, agents[i := t.a], stops[i := stops[i] + [stop]], log + Stamp(ready[i].id, t.out),
                    before, t.stop, polite)
  {
    var s := ready[i];
    assert s in ready;
    StepEmits(s, ups[i], stops[i], stop);
    PlaySnoc(s, Init(s, ups[i]), stops[i], stop);
    PoolStep(ready, ups, agents, stops, log, i, stops[i] + [stop], t.a, t.out);
    FromReadyStep(SpecIds(ready), log, s.id, t.out);
    if Honest(before) && Unspent(before, SpecIds(ready)) {
      HonestStep(before, log, SpecIds(ready), s.id, t.out);
    }
    if polite {
      HeedStep(ready, ups, agents, stops, log, i, stop, t.stop);
    }
  }

  // What an operator may do between two steps.
  method Interfere(state: State, ghost ready: seq<Spec>, ghost ups: seq<Upstream>, ghost agents: seq<Agent>,
                   ghost stops: seq<Stops>, ghost log: seq<Event>, ghost before: seq<Event>)
    requires PoolInv(ready, ups, agents, stops, log, before, state.stopReason, state.polite)
    modifies state`stopReason
    ensures PoolInv(ready, ups, agents, stops, log, before, state.stopReason, state.polite)
  {
    ghost var was := state.stopReason;
    state.OperatorMayKill();
    if state.polite {
      HeedLater(ready, ups, stops, was, state.stopReason);
    }
  }

  // One step of one agent.
  method StepAgent(db: Db, state: State, ready: seq<Spec>, ghost ups: seq<Upstream>, before: seq<Agent>, i: nat,
                   ghost stops0: seq<Stops>, ghost log0: seq<Event>, ghost earlier: seq<Event>, ghost m: Mark)
    returns (agents: seq<Agent>, ghost stops: seq<Stops>, ghost log: seq<Event>)
    requires UniqueSpecs(ready) && AllToolFree(ready) && |before| == |ready| && i < |ready| && !Finished(before[i])
    requires PoolInv(ready, ups, before, stops0, log0, earlier, state.stopReason, state.polite)
    requires Wrote(db, state, m, earlier + log0)
    modifies db, state`tokens, state`stopReason
    ensures PoolInv(ready, ups, agents, stops, log, earlier, state.stopReason, state.polite)
    ensures Wrote(db, state, m, earlier + log)
    ensures |agents| == |ready| && RankSum(ready, agents) < RankSum(ready, before)
    ensures Booked(ready[i], Next(ready[i], before[i], old(state.stopReason)).out, old(db.usage), db.usage)
  {
    var t := Next(ready[i], before[i], state.stopReason);
    PoolMoves(ready, ups, before, stops0, log0, earlier, state.stopReason, state.polite, i, t);
    RankDrops(ready[i], before[i], state.stopReason);
    RankSumUpdate(ready, before, i, t.a);
    EmitAll(db, state, ready[i], t.out, m, earlier + log0);
    Assoc(earlier, log0, Stamp(ready[i].id, t.out));
    agents := before[i := t.a];
    stops := stops0[i := stops0[i] + [state.stopReason]];
    log := log0 + Stamp(ready[i].id, t.out);
    state.stopReason := t.stop;
  }

  // Steps the agents of a wave, in any order, until all of them are finished.
  method RunPool(db: Db, state: State, ready: seq<Spec>, ups: seq<Upstream>, ghost before: seq<Event>, ghost m: Mark)
    returns (agents: seq<Agent>, ghost stops: seq<Stops>, ghost log: seq<Event>)
    requires Wrote(db, state, m, before)
    requires |ups| == |ready| && UniqueSpecs(ready) && AllToolFree(ready)
    requires state.polite ==> state.stopReason != Some("")
    modifies db, state
    ensures Wrote(db, state, m, before + log)
    ensures PoolInv(ready, ups, agents, stops, log, before, state.stopReason, state.polite)
    ensures AllFinished(agents)
  {
    agents, stops, log := Started(ready, ups), seq(|ready|, i => []), [];
    assert before + [] == before;
    PoolStarts(ready, ups, before, state.stopReason, state.polite);
    while !AllFinished(agents)
      invariant Wrote(db, state, m, before + log)
      invariant PoolInv(ready, ups, agents, stops, log, before, state.stopReason, state.polite)
      decreases RankSum(ready, agents)
    {
      Interfere(state, ready, ups, agents, stops, log, before);
      var i :| 0 <= i < |agents| && !Finished(agents[i]);
      agents, stops, log := StepAgent(db, state, ready, ups, agents, i, stops, log, before, m);
    }
    Interfere(state, ready, ups, agents, stops, log, before);
  }
}
