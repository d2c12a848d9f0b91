// How a turn ends (plnt/executors/local.py, the rest of _turn_parent): agents
// that were not run are reported as skipped, and the reply or the error closes
// whatever is still open on the transcript.
module TurnEnds {
  import opened Basics
  import opened Events
  import opened Graph
  import opened Transcript
  import opened TranscriptLaws
  import opened TokenLaws
  import opened AgentLoop
  import opened AgentLaws
  import opened AgentCards
  import opened AgentRuns
  import opened RunState
  import opened AgentPool
  import opened Plans
  import opened TurnCards
  import opened TurnWaves
  import opened ToolLaws

  // ------------------------------------------------------------ events of the turn itself

  // What the turn logs outside its agents' runs.
  predicate Quiet(e: Event) {
    match e.kind
    case RunStarted(bundle, _, _) => bundle.None? && !Filed(e.agentId)
    case ParentDecision(_, _, _, _) => !Filed(e.agentId)
    case ModelCalled(_) => !Filed(e.agentId)
    case ModelResult(_, _, _) => !Filed(e.agentId)
    case RunError(_, _, _) => !Filed(e.agentId)
    case RunFinished(_, _) => !Filed(e.agentId)
    case AssistantMessage(_, _) => true
    case _ => false
  }

  ghost predicate AllResolved(cards: seq<Card>) {
    forall c :: c in cards ==> Resolved(c.steps)
  }

  // The log of a turn under way, or over: well formed, with honest totals, and
  // no tool call left without its result.
  ghost predicate TurnOk(text: string, log: seq<Event>) {
    AllProper(log) && Honest(log) && AllResolved(PyTurn(NewTurn(text), log).agents)
  }

  lemma QuietCards(t: Turn, e: Event)
    requires Quiet(e)
    ensures PyCards(t, e).agents == t.agents || PyCards(t, e).agents == t.agents + [NewCard(e.agentId)]
    ensures !Filed(e.agentId) || Find(t.agents, e.agentId) < |t.agents| ==> PyCards(t, e).agents == t.agents
  {
  }

  lemma QuietResolved(t: Turn, e: Event)
    requires Quiet(e) && AllResolved(t.agents)
    ensures AllResolved(PyStep(t, e).agents)
  {
    QuietCards(t, e);
    EndingKeepsSteps(PyCards(t, e), e.kind);
  }

  lemma EndingKeepsSteps(t: Turn, k: Kind)
    requires AllResolved(t.agents)
    ensures AllResolved(PyEnding(t, k).agents)
  {
    forall c | c in PyEnding(t, k).agents
      ensures Resolved(c.steps)
    {
      var i :| 0 <= i < |t.agents| && PyEnding(t, k).agents[i] == c;
      assert t.agents[i] in t.agents;
    }
  }

  lemma TurnOkQuiet(text: string, log: seq<Event>, e: Event)
    requires TurnOk(text, log) && Quiet(e) && Proper(e)
    ensures TurnOk(text, log + [e])
  {
    PyTurnSnoc(NewTurn(text), log, e);
    QuietResolved(PyTurn(NewTurn(text), log), e);
    HonestSnoc(log, e);
  }

  // ------------------------------------------------------------ closing a turn

  predicate Closes(e: Event) {
    Quiet(e) && (e.kind.AssistantMessage? || e.kind.RunError?)
  }

  // A finished turn: it has an outcome, nobody is running any more, and every
  // tool call has its result.
  ghost predicate Settled(t: Turn) {
    t.outcome.Some? && forall c :: c in t.agents ==> c.status != Status.Running && Resolved(c.steps)
  }

  lemma ClosingStops(t: Turn, e: Event)
    requires Closes(e)
    ensures forall c :: c in PyStep(t, e).agents ==> c.status != Status.Running
  {
  }

  // The last entry of the log closes the turn.
  ghost predicate ClosedLog(log: seq<Event>) {
    log != [] && Closes(log[|log| - 1])
  }

  // Whatever came before, a reply or an error and then run_finished settle the turn.
  lemma CloseTurn(text: string, log: seq<Event>, outcome: string, tokens: int)
    requires TurnOk(text, log) && ClosedLog(log)
    ensures var all := log + [Event("", RunFinished(Some(outcome), tokens))];
      var turn := PyTurn(NewTurn(text), all);
      TurnOk(text, all) && Settled(turn) && turn.tokens == tokens && turn.outcome == Some(outcome)
  {
    var end := Event("", RunFinished(Some(outcome), tokens));
    TurnOkQuiet(text, log, end);
    PyTurnSnoc(NewTurn(text), log, end);
    ClosingStops(PyTurn(NewTurn(text), log[..|log| - 1]), log[|log| - 1]);
  }

  // ------------------------------------------------------------ agents that were not run

  // The cards after the last wave: those that ran show it, nothing else has
  // happened to the others.
  ghost predicate CardHeld(s: Spec, c: Card, ran: RanMap) {
    && Title(c) == Fresh(s)
    && if s.id in ran && Filed(s.id) then CardInv(ran[s.id].a, c) && ran[s.id].a.phase.Ended?
       else c.steps == [] && c.tokens == 0 && c.answer.None? && c.status != KilledStatus
  }

  ghost predicate CardsHeld(cards: seq<Card>, specs: seq<Spec>, ran: RanMap) {
    |cards| == |specs| && forall i :: 0 <= i < |specs| ==> CardHeld(specs[i], cards[i], ran)
  }

  lemma InStepIsHeld(cards: seq<Card>, specs: seq<Spec>, ran: RanMap)
    requires CardsInStep(cards, specs, ran) && forall s :: s in specs && s.id in ran ==> ran[s.id].a.phase.Ended?
    ensures CardsHeld(cards, specs, ran)
  {
    forall i | 0 <= i < |specs|
      ensures CardHeld(specs[i], cards[i], ran)
    {
      assert specs[i] in specs;
    }
  }

  lemma FailedIsHeld(s: Spec, c: Card, ran: RanMap, error: Option<string>)
    requires CardHeld(s, c, ran)
    ensures CardHeld(s, CloseFailed(c, error), ran)
  {
  }

  lemma StuckIsHeld(t: Turn, specs: seq<Spec>, ran: RanMap, k: Kind)
    requires CardsHeld(t.agents, specs, ran) && k.RunError?
    ensures CardsHeld(PyStep(t, Event("", k)).agents, specs, ran)
  {
    forall i | 0 <= i < |specs|
      ensures CardHeld(specs[i], CloseFailed(t.agents[i], k.error), ran)
    {
      FailedIsHeld(specs[i], t.agents[i], ran, k.error);
    }
  }

  function SkipOf(s: Spec, why: string): Event {
    Event(s.id, AgentFinished("skipped", None, Some(why), Some(0)))
  }

  function Skips(specs: seq<Spec>, why: string): seq<Event> {
    seq(|specs|, i requires 0 <= i < |specs| => SkipOf(specs[i], why))
  }

  lemma SkipsSnoc(front: seq<Spec>, s: Spec, why: string)
    ensures Skips(front + [s], why) == Skips(front, why) + [SkipOf(s, why)]
  {
  }

  lemma LastIsNew(front: seq<Spec>, s: Spec)
    requires UniqueSpecs(front + [s])
    ensures UniqueSpecs(front) && s.id !in SpecIds(front)
  {
    forall x | x in front
      ensures x.id != s.id
    {
      var i :| 0 <= i < |front| && front[i] == x;
      assert (front + [s])[i].id != (front + [s])[|front|].id;
    }
    forall i, j | 0 <= i < j < |front|
      ensures front[i].id != front[j].id
    {
      assert (front + [s])[i].id != (front + [s])[j].id;
    }
  }

  lemma SpecIdsSnoc(front: seq<Spec>, s: Spec)
    ensures SpecIds(front + [s]) == SpecIds(front) + {s.id}
  {
    forall id | id in SpecIds(front) + {s.id}
      ensures id in SpecIds(front + [s])
    {
      var x :| (x in front || x == s) && x.id == id;
      assert x in front + [s];
    }
  }

  lemma OneMoreSkip(log: seq<Event>, s: Spec, why: string, id: string)
    requires s.id == id ==> Own(log, id) == []
    ensures Own(log + [SkipOf(s, why)], id) == if s.id == id then [AgentFinished("skipped", None, Some(why), Some(0))] else Own(log, id)
  {
    OwnSnoc(log, SkipOf(s, why), id);
    AddNothing(Own(log, id));
  }

  lemma {:induction false} OwnSkips(specs: seq<Spec>, why: string, id: string)
    requires UniqueSpecs(specs)
    ensures Own(Skips(specs, why), id) == if id in SpecIds(specs) then [AgentFinished("skipped", None, Some(why), Some(0))] else []
  {
    if specs != [] {
      var front, s := specs[..|specs| - 1], specs[|specs| - 1];
      assert specs == front + [s];
      LastIsNew(front, s);
      OwnSkips(front, why, id);
      SkipsSnoc(front, s, why);
      SpecIdsSnoc(front, s);
      OneMoreSkip(Skips(front, why), s, why, id);
    }
  }

  // What a card shows of its agent once the plan is over: how its run ended,
  // or why there was none.
  ghost predicate CardEnd(s: Spec, c: Card, ran: RanMap, why: string) {
    && Title(c) == Fresh(s)
    && Resolved(c.steps)
    && (Filed(s.id) && s.id in ran ==> CardInv(ran[s.id].a, c) && ran[s.id].a.phase.Ended?)
    && (Filed(s.id) && s.id !in ran ==>
          c.status == Failed && c.error == Some(why) && c.answer.None? && c.steps == [] && c.tokens == 0)
  }

  ghost predicate CardsEnd(cards: seq<Card>, specs: seq<Spec>, ran: RanMap, why: string) {
    |cards| == |specs| && forall i :: 0 <= i < |specs| ==> CardEnd(specs[i], cards[i], ran, why)
  }

  lemma SkippedCard(s: Spec, c: Card, ran: RanMap, why: string, heard: seq<Kind>)
    requires CardHeld(s, c, ran) && why != ""
    requires Filed(s.id) && s.id !in ran ==> heard == [AgentFinished("skipped", None, Some(why), Some(0))]
    requires !Filed(s.id) || s.id in ran ==> heard == []
    ensures CardEnd(s, CardFold(c, heard), ran, why)
  {
    if heard != [] {
      assert CardFold(c, heard[..0]) == c;
    }
  }

  lemma SkipsEnd(t: Turn, specs: seq<Spec>, ran: RanMap, remaining: seq<Spec>, why: string)
    requires CardsHeld(t.agents, specs, ran) && UniqueSpecs(specs) && why != ""
    requires remaining == Rest(specs, ran.Keys)
    ensures CardsEnd(PyTurn(t, Skips(remaining, why)).agents, specs, ran, why)
  {
    var log := Skips(remaining, why);
    RestMembers(specs, ran.Keys);
    RestUnique(specs, ran.Keys);
    Distinct(t.agents, specs);
    SkipsAgentsOnly(t.agents, specs, remaining, why);
    AgentsFoldAlone(t, log);
    forall i | 0 <= i < |specs|
      ensures CardEnd(specs[i], EachAlone(t.agents, log)[i], ran, why)
    {
      assert specs[i] in specs;
      OwnSkips(remaining, why, specs[i].id);
      SkippedCard(specs[i], t.agents[i], ran, why, Heard(log, specs[i].id));
    }
  }

  lemma SkipsAgentsOnly(cards: seq<Card>, specs: seq<Spec>, remaining: seq<Spec>, why: string)
    requires |cards| == |specs| && forall i :: 0 <= i < |specs| ==> cards[i].id == specs[i].id
    requires forall s :: s in remaining ==> s in specs
    ensures AgentsOnly(cards, Skips(remaining, why))
  {
    forall e | e in Skips(remaining, why)
      ensures AgentKind(e.kind) && Known(cards, e.agentId)
    {
      var j :| 0 <= j < |remaining| && Skips(remaining, why)[j] == e;
      assert remaining[j] in specs;
      var i :| 0 <= i < |specs| && specs[i] == remaining[j];
      assert cards[i].id == e.agentId;
    }
  }

  // ------------------------------------------------------------ the reply keeps the cards

  lemma ClosedCard(s: Spec, c: Card, d: Card, ran: RanMap, why: string)
    requires CardEnd(s, c, ran, why) && Title(d) == Title(c) && d.steps == c.steps && (c.status != Status.Running ==> d == c)
    ensures CardEnd(s, d, ran, why)
  {
  }

  lemma QuietKeepsEnd(t: Turn, e: Event, specs: seq<Spec>, ran: RanMap, why: string)
    requires CardsEnd(t.agents, specs, ran, why) && Quiet(e)
    requires !Filed(e.agentId) || e.agentId in SpecIds(specs)
    ensures CardsEnd(PyStep(t, e).agents, specs, ran, why)
  {
    if Filed(e.agentId) {
      var s :| s in specs && s.id == e.agentId;
      var i :| 0 <= i < |specs| && specs[i] == s;
      assert t.agents[i].id == e.agentId;
    }
    QuietCards(t, e);
    var after := PyStep(t, e).agents;
    forall i | 0 <= i < |specs|
      ensures CardEnd(specs[i], after[i], ran, why)
    {
      ClosedCard(specs[i], t.agents[i], after[i], ran, why);
    }
  }

  // ------------------------------------------------------------ the whole plan

  // A plan and what came of it, when no agent's thread died.
  datatype PlanTrace = PlanTrace(
    specs: seq<Spec>, g: Graph, ran: RanMap, results: map<string, Res>, waves: seq<set<string>>,
    remaining: seq<Spec>, end: WaveEnd, why: string, polite: bool)

  // The plan ran as far as it should: the waves are the rounds of its graph,
  // and each agent was handed what its dependencies left.
  ghost predicate RanToPlan(p: PlanTrace) {
    && UniqueSpecs(p.specs) && Plans.Describes(p.specs, p.g) && AllToolFree(p.specs)
    && AllRanFine(p.specs, p.ran, p.results, p.polite)
    && InWaves(p.specs, p.g, p.waves, p.remaining, p.results)
    && p.why != ""
  }

  // Exactly the agents that no cycle and no missing agent holds up have run,
  // unless the run was stopped first.
  ghost predicate Scheduled(p: PlanTrace) {
    && (p.end.AllRan? ==> p.results.Keys == p.g.Keys && BlockedNodes(p.g) == {})
    && (p.end.Stuck? ==> p.results.Keys == p.g.Keys - BlockedNodes(p.g) && BlockedNodes(p.g) != {} && p.why == "not run")
    && (p.end.StoppedEarly? ==> p.results.Keys < p.g.Keys)
    && !p.end.Crash?
  }

  ghost predicate FinishedOnce(specs: seq<Spec>, log: seq<Event>) {
    forall s :: s in specs && Filed(s.id) ==> Finishes(Own(log, s.id)) == 1
  }

  // What an agent that ran has in the log: its announcement, then its run.
  ghost predicate ShownRuns(specs: seq<Spec>, log: seq<Event>, ran: RanMap) {
    forall s :: s in specs && Filed(s.id) && s.id in ran ==>
      [AgentSpawned(None, s.info)] + KindsOf(s, ran[s.id]) <= Own(log, s.id)
  }

  lemma ShownLater(specs: seq<Spec>, log: seq<Event>, more: seq<Event>, ran: RanMap)
    requires ShownRuns(specs, log, ran)
    ensures ShownRuns(specs, log + more, ran)
  {
    forall s | s in specs && Filed(s.id) && s.id in ran
      ensures [AgentSpawned(None, s.info)] + KindsOf(s, ran[s.id]) <= Own(log + more, s.id)
    {
      OwnConcat(log, more, s.id);
    }
  }

  lemma OwnRunsAreShown(specs: seq<Spec>, log: seq<Event>, ran: RanMap)
    requires OwnRuns(specs, log, ran)
    ensures ShownRuns(specs, log, ran)
  {
    forall s | s in specs && Filed(s.id) && s.id in ran
      ensures [AgentSpawned(None, s.info)] + KindsOf(s, ran[s.id]) <= Own(log, s.id)
    {
      assert OwnRun(s, log, ran);
    }
  }

  // What the log of the turn says about it.
  ghost predicate ToldAs(p: PlanTrace, text: string, log: seq<Event>) {
    && ShownRuns(p.specs, log, p.ran)
    && CardsEnd(PyTurn(NewTurn(text), log).agents, p.specs, p.ran, p.why)
    && DepsFirst(p.g, log)
    && FinishedOnce(p.specs, log)
  }

  // Every prompt an agent sends tells it what each agent it depends on came to:
  // "[id]: " and that agent's answer, or its error if it has none.
  ghost predicate ToldOf(p: PlanTrace, s: Spec, d: string, prompt: seq<Message>) {
    && |s.prior| < |prompt| && prompt[|s.prior|].User? && d in p.results
    && exists note :: Tells(note, p.results[d]) && Holds(prompt[|s.prior|].content, "[" + d + "]: " + note)
  }

  lemma DependentsAreTold(p: PlanTrace, s: Spec, d: string, prompt: seq<Message>)
    requires RanToPlan(p) && s in p.specs && s.id in p.ran && d in s.info.dependsOn
    requires prompt in Play(s, Init(s, p.ran[s.id].up), p.ran[s.id].stops).a.prompts
    ensures ToldOf(p, s, d, prompt)
  {
    var r := p.ran[s.id];
    assert RanFine(s, r, p.results, p.polite);
    HandedOnce(s.info.dependsOn, p.results);
    var i :| 0 <= i < |r.up| && r.up[i].0 == d;
    StartsFrom(s, r.up);
    EveryPromptRecalls(s, r.up, r.stops);
    assert prompt[|s.prior|] == Init(s, r.up).msgs[|s.prior|];
    assert Tells(r.up[i].1, p.results[d]);
  }

  lemma {:induction false} FinishesConcat(a: seq<Kind>, b: seq<Kind>)
    ensures Finishes(a + b) == Finishes(a) + Finishes(b)
  {
    if b == [] {
      assert a + b == a;
    } else {
      var front, k := b[..|b| - 1], b[|b| - 1];
      FinishesConcat(a, front);
      assert a + b == (a + front) + [k];
      FinishesSnoc(a + front, k);
    }
  }

  lemma FinishesSame(log: seq<Event>, e: Event, id: string)
    requires !e.kind.AgentFinished?
    ensures Finishes(Own(log + [e], id)) == Finishes(Own(log, id))
  {
    OwnSnoc(log, e, id);
    if e.agentId == id {
      FinishesSnoc(Own(log, id), e.kind);
    } else {
      assert Own(log, id) + [] == Own(log, id);
    }
  }

  // Replies and errors of the turn itself change nothing about its agents.
  lemma QuietTold(p: PlanTrace, text: string, log: seq<Event>, e: Event)
    requires ToldAs(p, text, log) && Quiet(e)
    requires !Filed(e.agentId) || e.agentId in SpecIds(p.specs)
    ensures ToldAs(p, text, log + [e])
  {
    ShownLater(p.specs, log, [e], p.ran);
    PyTurnSnoc(NewTurn(text), log, e);
    QuietKeepsEnd(PyTurn(NewTurn(text), log), e, p.specs, p.ran, p.why);
    DepsFirstSnoc(p.g, log, e);
    forall s | s in p.specs && Filed(s.id)
      ensures Finishes(Own(log + [e], s.id)) == 1
    {
      FinishesSame(log, e, s.id);
    }
  }

  // ------------------------------------------------------------ from the last wave to there

  lemma InStepResolved(cards: seq<Card>, specs: seq<Spec>, ran: RanMap)
    requires CardsInStep(cards, specs, ran)
    ensures AllResolved(cards)
  {
    forall c | c in cards
      ensures Resolved(c.steps)
    {
      var i :| 0 <= i < |cards| && cards[i] == c;
      assert CardInStep(specs[i], cards[i], ran);
    }
  }

  lemma LoggedIsOk(text: string, specs: seq<Spec>, log: seq<Event>, ran: RanMap)
    requires Logged(text, specs, log, ran)
    ensures TurnOk(text, log)
  {
    InStepResolved(PyTurn(NewTurn(text), log).agents, specs, ran);
  }

  // An entry that starts no agent keeps the order of dependencies.
  lemma {:induction false} DepsFirstMore(g: Graph, log: seq<Event>, more: seq<Event>)
    requires DepsFirst(g, log) && forall e :: e in more ==> !e.kind.ModelCalled?
    ensures DepsFirst(g, log + more)
  {
    if more == [] {
      assert log + more == log;
    } else {
      var front, e := more[..|more| - 1], more[|more| - 1];
      DepsFirstMore(g, log, front);
      assert e in more;
      assert log + more == (log + front) + [e];
      DepsFirstSnoc(g, log + front, e);
    }
  }

  lemma HonestSkip(log: seq<Event>, skips: seq<Event>, s: Spec, why: string)
    requires Honest(log + skips) && Own(skips, s.id) == [] && (Filed(s.id) ==> Tokens(Own(log, s.id)) == 0)
    ensures Honest(log + (skips + [SkipOf(s, why)]))
  {
    OwnConcat(log, skips, s.id);
    assert Own(log, s.id) + [] == Own(log, s.id);
    HonestSnoc(log + skips, SkipOf(s, why));
    Assoc(log, skips, [SkipOf(s, why)]);
  }

  lemma UnspentFront(log: seq<Event>, front: seq<Spec>, s: Spec)
    requires Unspent(log, SpecIds(front + [s]))
    ensures Unspent(log, SpecIds(front)) && (Filed(s.id) ==> Tokens(Own(log, s.id)) == 0)
  {
    assert s in front + [s];
    assert forall x :: x in front ==> x in front + [s];
    assert SpecIds(front) <= SpecIds(front + [s]);
  }

  lemma {:induction false} HonestSkips(log: seq<Event>, specs: seq<Spec>, why: string)
    requires Honest(log) && Unspent(log, SpecIds(specs)) && UniqueSpecs(specs)
    ensures Honest(log + Skips(specs, why))
  {
    if specs == [] {
      assert log + Skips(specs, why) == log;
    } else {
      var front, s := specs[..|specs| - 1], specs[|specs| - 1];
      assert specs == front + [s];
      UnspentFront(log, front, s);
      HonestSkips(log, front, why);
      LastIsNew(front, s);
      OwnSkips(front, why, s.id);
      HonestSkip(log, Skips(front, why), s, why);
      SkipsSnoc(front, s, why);
    }
  }

  ghost predicate StuckLog(stuck: seq<Event>) {
    stuck == [] || (|stuck| == 1 && stuck[0].agentId == "" && stuck[0].kind.RunError? && Proper(stuck[0]))
  }

  lemma StuckIsNobodys(stuck: seq<Event>)
    requires StuckLog(stuck)
    ensures forall e :: e in stuck ==> e.agentId == "" && !e.kind.ModelCalled?
  {
    if stuck != [] {
      assert stuck == [stuck[0]];
    }
  }

  lemma OwnOver(p: PlanTrace, log: seq<Event>, stuck: seq<Event>, all: seq<Event>, id: string)
    requires StuckLog(stuck) && Filed(id)
    requires all == log + stuck + Skips(p.remaining, p.why)
    ensures Own(all, id) == Own(log, id) + Own(Skips(p.remaining, p.why), id)
  {
    StuckIsNobodys(stuck);
    OwnConcat(log, stuck, id);
    OwnAbsent(stuck, id);
    AddNothing(Own(log, id));
    OwnConcat(log + stuck, Skips(p.remaining, p.why), id);
  }

  // After the waves, perhaps the "stuck" error, and the skipped agents, every
  // agent of the plan has finished exactly once.
  lemma FinishedOnceNow(p: PlanTrace, log: seq<Event>, stuck: seq<Event>, all: seq<Event>)
    requires RanToPlan(p) && OwnRuns(p.specs, log, p.ran) && StuckLog(stuck)
    requires all == log + stuck + Skips(p.remaining, p.why)
    ensures FinishedOnce(p.specs, all)
  {
    forall s | s in p.specs && Filed(s.id)
      ensures Finishes(Own(all, s.id)) == 1
    {
      OwnOver(p, log, stuck, all, s.id);
      FinishesOnce(p, s, log);
      FinishesConcat(Own(log, s.id), Own(Skips(p.remaining, p.why), s.id));
    }
  }

  lemma RunFinishes(s: Spec, r: Ran)
    requires ToolFree(s.prior) && Play(s, Init(s, r.up), r.stops).a == r.a && r.a.phase.Ended?
    ensures Finishes([AgentSpawned(None, s.info)] + KindsOf(s, r)) == 1
  {
    var own: seq<Kind> := [AgentSpawned(None, s.info)];
    assert own[..0] == [];
    EveryRun(s, NewCard(s.id), r.up, r.stops);
    FinishesConcat(own, KindsOf(s, r));
  }

  lemma SkipFinishes(k: Kind, skip: Kind)
    requires k.AgentSpawned? && skip.AgentFinished?
    ensures Finishes([k]) == 0 && Finishes([skip]) == 1 && Finishes([]) == 0
  {
    var a, b := [k], [skip];
    assert a[..0] == [] && b[..0] == [];
  }

  lemma RestIds(specs: seq<Spec>, gone: set<string>, s: Spec)
    requires UniqueSpecs(specs) && s in specs
    ensures s.id in SpecIds(Rest(specs, gone)) <==> s.id !in gone
  {
    RestMembers(specs, gone);
    if s.id !in gone {
      assert s in Rest(specs, gone);
    }
  }

  lemma FinishesOnce(p: PlanTrace, s: Spec, log: seq<Event>)
    requires RanToPlan(p) && OwnRuns(p.specs, log, p.ran) && s in p.specs && Filed(s.id)
    ensures Finishes(Own(log, s.id)) + Finishes(Own(Skips(p.remaining, p.why), s.id)) == 1
  {
    RestUnique(p.specs, p.results.Keys);
    RestIds(p.specs, p.results.Keys, s);
    OwnSkips(p.remaining, p.why, s.id);
    SkipFinishes(AgentSpawned(None, s.info), AgentFinished("skipped", None, Some(p.why), Some(0)));
    assert OwnRun(s, log, p.ran);
    if s.id in p.ran {
      RunFinishes(s, p.ran[s.id]);
    } else {
      var own: seq<Kind> := [AgentSpawned(None, s.info)];
      assert own + [] == own;
    }
  }

  lemma AllEnded(p: PlanTrace)
    requires RanToPlan(p)
    ensures forall s :: s in p.specs && s.id in p.ran ==> p.ran[s.id].a.phase.Ended?
  {
  }

  lemma StuckCards(p: PlanTrace, text: string, log: seq<Event>, stuck: seq<Event>)
    requires RanToPlan(p) && StuckLog(stuck)
    requires CardsInStep(PyTurn(NewTurn(text), log).agents, p.specs, p.ran)
    ensures CardsHeld(PyTurn(NewTurn(text), log + stuck).agents, p.specs, p.ran)
  {
    var t := PyTurn(NewTurn(text), log);
    AllEnded(p);
    InStepIsHeld(t.agents, p.specs, p.ran);
    if stuck == [] {
      AddNothing(log);
    } else {
      assert stuck == [Event("", stuck[0].kind)];
      PyTurnSnoc(NewTurn(text), log, stuck[0]);
      StuckIsHeld(t, p.specs, p.ran, stuck[0].kind);
    }
  }

  lemma CardsTold(p: PlanTrace, text: string, log: seq<Event>, stuck: seq<Event>, all: seq<Event>)
    requires RanToPlan(p) && StuckLog(stuck) && all == log + stuck + Skips(p.remaining, p.why)
    requires CardsInStep(PyTurn(NewTurn(text), log).agents, p.specs, p.ran)
    ensures CardsEnd(PyTurn(NewTurn(text), all).agents, p.specs, p.ran, p.why)
  {
    StuckCards(p, text, log, stuck);
    PyTurnConcat(NewTurn(text), log + stuck, Skips(p.remaining, p.why));
    SkipsEnd(PyTurn(NewTurn(text), log + stuck), p.specs, p.ran, p.remaining, p.why);
  }

  lemma ErrorUnspent(log: seq<Event>, e: Event, ids: set<string>)
    requires Unspent(log, ids) && e.agentId == ""
    ensures Unspent(log + [e], ids)
  {
    forall id | id in ids && Filed(id)
      ensures Tokens(Own(log + [e], id)) == 0
    {
      OwnSnoc(log, e, id);
      AddNothing(Own(log, id));
    }
  }

  lemma StuckHonest(log: seq<Event>, stuck: seq<Event>, ids: set<string>)
    requires Honest(log) && Unspent(log, ids) && StuckLog(stuck)
    ensures Honest(log + stuck) && Unspent(log + stuck, ids)
  {
    if stuck == [] {
      AddNothing(log);
    } else {
      assert stuck == [stuck[0]];
      HonestSnoc(log, stuck[0]);
      ErrorUnspent(log, stuck[0], ids);
    }
  }

  lemma RestWaits(p: PlanTrace)
    requires RanToPlan(p)
    ensures Waiting(p.specs, p.ran, p.remaining)
  {
    RestMembers(p.specs, p.results.Keys);
    RestUnique(p.specs, p.results.Keys);
  }

  lemma EndResolved(cards: seq<Card>, specs: seq<Spec>, ran: RanMap, why: string)
    requires CardsEnd(cards, specs, ran, why)
    ensures AllResolved(cards)
  {
    forall c | c in cards
      ensures Resolved(c.steps)
    {
      var i :| 0 <= i < |cards| && cards[i] == c;
      assert CardEnd(specs[i], cards[i], ran, why);
    }
  }

  lemma ProperOver(log: seq<Event>, stuck: seq<Event>, remaining: seq<Spec>, why: string)
    requires AllProper(log) && StuckLog(stuck)
    ensures AllProper(log + stuck + Skips(remaining, why))
  {
    assert AllProper(log + stuck);
    assert AllProper(Skips(remaining, why));
  }

  lemma HonestOver(p: PlanTrace, log: seq<Event>, stuck: seq<Event>)
    requires RanToPlan(p) && StuckLog(stuck) && Honest(log) && OwnRuns(p.specs, log, p.ran)
    ensures Honest(log + stuck + Skips(p.remaining, p.why))
  {
    RestWaits(p);
    WaitingIsUnspent(p.specs, log, p.ran, p.remaining);
    StuckHonest(log, stuck, SpecIds(p.remaining));
    HonestSkips(log + stuck, p.remaining, p.why);
  }

  lemma DepsFirstOver(g: Graph, log: seq<Event>, stuck: seq<Event>, remaining: seq<Spec>, why: string)
    requires DepsFirst(g, log) && StuckLog(stuck)
    ensures DepsFirst(g, log + stuck + Skips(remaining, why))
  {
    StuckIsNobodys(stuck);
    DepsFirstMore(g, log, stuck);
    DepsFirstMore(g, log + stuck, Skips(remaining, why));
  }

  lemma OkOver(p: PlanTrace, text: string, log: seq<Event>, stuck: seq<Event>, all: seq<Event>)
    requires RanToPlan(p) && StuckLog(stuck) && all == log + stuck + Skips(p.remaining, p.why)
    requires AllProper(log) && Honest(log) && OwnRuns(p.specs, log, p.ran)
    requires CardsEnd(PyTurn(NewTurn(text), all).agents, p.specs, p.ran, p.why)
    ensures TurnOk(text, all)
  {
    EndResolved(PyTurn(NewTurn(text), all).agents, p.specs, p.ran, p.why);
    ProperOver(log, stuck, p.remaining, p.why);
    HonestOver(p, log, stuck);
  }

  lemma ShownOver(p: PlanTrace, log: seq<Event>, stuck: seq<Event>, all: seq<Event>)
    requires OwnRuns(p.specs, log, p.ran) && all == log + stuck + Skips(p.remaining, p.why)
    ensures ShownRuns(p.specs, all, p.ran)
  {
    OwnRunsAreShown(p.specs, log, p.ran);
    ShownLater(p.specs, log, stuck, p.ran);
    ShownLater(p.specs, log + stuck, Skips(p.remaining, p.why), p.ran);
  }

  lemma ToldTogether(p: PlanTrace, text: string, all: seq<Event>)
    requires ShownRuns(p.specs, all, p.ran) && DepsFirst(p.g, all) && FinishedOnce(p.specs, all)
    requires CardsEnd(PyTurn(NewTurn(text), all).agents, p.specs, p.ran, p.why)
    ensures ToldAs(p, text, all)
  {
  }

  // What the agents' part of a turn has put in the log and on the transcript.
  lemma PlanOver(p: PlanTrace, text: string, log: seq<Event>, stuck: seq<Event>, all: seq<Event>)
    requires RanToPlan(p) && StuckLog(stuck) && all == log + stuck + Skips(p.remaining, p.why)
    requires BetweenWaves(text, p.specs, p.g, log, p.ran, p.results, p.polite)
    ensures TurnOk(text, all) && ToldAs(p, text, all)
  {
    CardsTold(p, text, log, stuck, all);
    OkOver(p, text, log, stuck, all);
    ShownOver(p, log, stuck, all);
    DepsFirstOver(p.g, log, stuck, p.remaining, p.why);
    FinishedOnceNow(p, log, stuck, all);
    ToldTogether(p, text, all);
  }

  // ------------------------------------------------------------ before the plan

  // All a turn has logged while the parent decides.
  ghost predicate HeadLog(log: seq<Event>) {
    forall e :: e in log ==> Quiet(e) && !Filed(e.agentId) && Proper(e)
  }

  lemma HeadSnoc(log: seq<Event>, e: Event)
    requires HeadLog(log) && Quiet(e) && !Filed(e.agentId) && Proper(e)
    ensures HeadLog(log + [e])
  {
  }

  lemma {:induction false} HeadIsOk(text: string, log: seq<Event>)
    requires HeadLog(log)
    ensures TurnOk(text, log) && PyTurn(NewTurn(text), log).agents == []
  {
    if log != [] {
      var front, e := log[..|log| - 1], log[|log| - 1];
      assert log == front + [e] && e in log;
      HeadIsOk(text, front);
      TurnOkQuiet(text, front, e);
      PyTurnSnoc(NewTurn(text), front, e);
      QuietCards(PyTurn(NewTurn(text), front), e);
    }
  }

  lemma {:induction false} HeadDepsFirst(g: Graph, log: seq<Event>)
    requires HeadLog(log)
    ensures DepsFirst(g, log)
  {
    if log != [] {
      var front, e := log[..|log| - 1], log[|log| - 1];
      assert log == front + [e] && e in log;
      HeadDepsFirst(g, front);
    }
  }

  lemma {:induction false} HonestSpawns(log: seq<Event>, specs: seq<Spec>)
    requires Honest(log)
    ensures Honest(log + Spawns(specs))
  {
    if specs == [] {
      AddNothing(log);
    } else {
      var front, s := specs[..|specs| - 1], specs[|specs| - 1];
      assert specs == front + [s];
      HonestSpawns(log, front);
      HonestSnoc(log + Spawns(front), Spawned(s));
      SpawnsSnoc(front, s);
      Assoc(log, Spawns(front), [Spawned(s)]);
    }
  }

  lemma SpawnedRuns(specs: seq<Spec>, head: seq<Event>)
    requires HeadLog(head) && UniqueSpecs(specs)
    ensures OwnRuns(specs, head + Spawns(specs), map[])
  {
    forall s | s in specs && Filed(s.id)
      ensures Own(head + Spawns(specs), s.id) == [AgentSpawned(None, s.info)] + []
    {
      OwnConcat(head, Spawns(specs), s.id);
      OwnAbsent(head, s.id);
      OwnSpawns(specs, s.id);
      assert [] + [AgentSpawned(None, s.info)] == [AgentSpawned(None, s.info)] + [];
    }
  }

  lemma AnnouncedIsLogged(text: string, specs: seq<Spec>, head: seq<Event>)
    requires HeadLog(head) && UniqueSpecs(specs)
    ensures Logged(text, specs, head + Spawns(specs), map[])
  {
    HeadIsOk(text, head);
    SpawningOpensCards(PyTurn(NewTurn(text), head), specs);
    PyTurnConcat(NewTurn(text), head, Spawns(specs));
    FreshInStep(specs);
    HonestSpawns(head, specs);
    assert AllProper(Spawns(specs));
  }

  // Once every agent is announced, the loop over waves can begin.
  lemma AnnouncedIsReady(text: string, specs: seq<Spec>, g: Graph, head: seq<Event>, results: map<string, Res>, ran: RanMap, polite: bool)
    requires HeadLog(head) && UniqueSpecs(specs) && results == map[] && ran == map[]
    ensures BetweenWaves(text, specs, g, head + Spawns(specs), ran, results, polite)
  {
    AnnouncedIsLogged(text, specs, head);
    HeadDepsFirst(g, head);
    DepsFirstMore(g, head, Spawns(specs));
    SpawnedRuns(specs, head);
  }
}
