// One turn of a session (plnt/executors/local.py, _turn, _turn_agent and
// _turn_parent), from the user's message to run_finished.
module Executor {
  import opened Basics
  import opened Events
  import opened Graph
  import opened Transcript
  import opened TokenLaws
  import opened AgentLoop
  import opened AgentLaws
  import opened RunState
  import opened AgentPool
  import opened Plans
  import opened TurnCards
  import opened TurnWaves
  import opened TurnEnds

  datatype Decision = Reply(chat: bool, text: string) | Agents(plans: seq<Plan>)

  // The parent's one call to decide, and what parse_decision makes of it.
  datatype DecideReply =
    | Decided(prompt: int, completion: int, decision: Decision)
    | Undecided(prompt: int, completion: int, exn: Exn)
    | NoReply(exn: Exn)

  // Its call to merge the agents' results.
  datatype SynthReply = Merged(prompt: int, completion: int, text: string) | Unmerged(exn: Exn)

  // What a parent turn depends on: whether it can be set up, the installed
  // specialists (each as the plan that would run it), and the parent's model.
  datatype ParentWorld = ParentWorld(setup: Option<Exn>, specialists: seq<Plan>, decide: DecideReply, synth: SynthReply)

  // What _turn_agent or _turn_parent returns, or the exception it raises.
  datatype Answer = Returns(outcome: string) | Throws(exn: Exn)

  // ------------------------------------------------------------ the parent decides

  // An entry of the head of the turn.
  method WriteHead(db: Db, state: State, agentId: string, kind: Kind, ghost m: Mark, ghost before: seq<Event>) returns (ghost log: seq<Event>)
    requires Wrote(db, state, m, before) && HeadLog(before)
    requires Quiet(Event(agentId, kind)) && !Filed(agentId) && Proper(Event(agentId, kind))
    modifies db, state`tokens
    ensures Wrote(db, state, m, log) && HeadLog(log) && log == before + [Event(agentId, kind)]
  {
    log := Write(db, state, agentId, PARENT, kind, m, before);
    HeadSnoc(before, Event(agentId, kind));
  }

  function DecisionKind(d: Decision): Kind {
    match d
    case Reply(chat, text) => ParentDecision(Some(if chat then "chat" else "clarify"), "", text, [])
    case Agents(plans) => ParentDecision(Some("agents"), "", "", Entries(plans))
  }

  function DecisionEvent(d: Decision): Event {
    Event(PARENT, DecisionKind(d))
  }

  // The parent answers by itself, or asks back.
  predicate Chats(w: ParentWorld) {
    w.decide.Decided? && w.decide.decision.Reply?
  }

  // No decision, and no single specialist to fall back to.
  predicate Indecisive(w: ParentWorld) {
    match w.decide
    case NoReply(exn) => !(exn.ParentExn? && |w.specialists| == 1)
    case Undecided(_, _, exn) => !(exn.ParentExn? && |w.specialists| == 1)
    case _ => false
  }

  // Some agent of the plan cannot be built, or may not survive.
  ghost predicate PlansMayFail(plans: seq<Plan>) {
    (exists q :: q in plans && q.refused.Some?) || SomeMayDie(SpecDict(plans))
  }

  // The only ways a parent turn ends in an exception.
  ghost predicate MayThrow(w: ParentWorld) {
    w.setup.Some? || Indecisive(w) || (!Chats(w) && (PlansMayFail(ChosenPlans(w)) || w.synth.Unmerged?))
  }

  function ChosenPlans(w: ParentWorld): seq<Plan> {
    if w.decide.Decided? && w.decide.decision.Agents? then w.decide.decision.plans else w.specialists
  }

  // What the parent's decision leaves in the log.
  function DecideLog(w: ParentWorld): seq<Event> {
    if Indecisive(w) then Said(w) else Said(w) + [DecisionEvent(ChosenDecision(w))]
  }

  function Said(w: ParentWorld): seq<Event> {
    if w.decide.NoReply? then [Asked(1)] else [Asked(1)] + [Answered(w.decide.prompt, w.decide.completion)]
  }

  function Asked(n: nat): Event {
    Event(PARENT, ModelCalled(n))
  }

  function Answered(prompt: int, completion: int): Event {
    Event(PARENT, ModelResult(prompt + completion, prompt, completion))
  }

  function ChosenDecision(w: ParentWorld): Decision {
    if w.decide.Decided? then w.decide.decision else Agents(w.specialists)
  }

  // parent_agent.decide, with the fallback to the only specialist.
  method Decide(db: Db, state: State, w: ParentWorld, ghost m: Mark, ghost before: seq<Event>)
    returns (choice: Option<Decision>, exn: Exn, ghost log: seq<Event>)
    requires Wrote(db, state, m, before) && HeadLog(before)
    modifies db, state`tokens
    ensures Wrote(db, state, m, log) && HeadLog(log)
    ensures choice == if Indecisive(w) then None else Some(ChosenDecision(w))
    ensures log == before + DecideLog(w)
  {
    choice, exn, log := AskParent(db, state, w, m, before);
    if choice.None? && exn.ParentExn? && |w.specialists| == 1 {
      choice := Some(Agents(w.specialists));
    }
    if choice.Some? {
      log := WriteDecision(db, state, choice.value, m, log);
      Assoc(before, Said(w), [DecisionEvent(choice.value)]);
    }
  }

  method WriteDecision(db: Db, state: State, d: Decision, ghost m: Mark, ghost before: seq<Event>) returns (ghost log: seq<Event>)
    requires Wrote(db, state, m, before) && HeadLog(before)
    modifies db, state`tokens
    ensures Wrote(db, state, m, log) && HeadLog(log) && log == before + [DecisionEvent(d)]
  {
    log := WriteHead(db, state, PARENT, DecisionKind(d), m, before);
  }

  // The call itself, and what parse_decision makes of the answer.
  method AskParent(db: Db, state: State, w: ParentWorld, ghost m: Mark, ghost before: seq<Event>)
    returns (choice: Option<Decision>, exn: Exn, ghost log: seq<Event>)
    requires Wrote(db, state, m, before) && HeadLog(before)
    modifies db, state`tokens
    ensures Wrote(db, state, m, log) && HeadLog(log)
    ensures log == before + Said(w)
    ensures choice == if w.decide.Decided? then Some(w.decide.decision) else None
    ensures w.decide.NoReply? || w.decide.Undecided? ==> exn == w.decide.exn
  {
    log := WriteHead(db, state, PARENT, ModelCalled(1), m, before);
    if !w.decide.NoReply? {
      var prompt, completion := w.decide.prompt, w.decide.completion;
      log := WriteHead(db, state, PARENT, ModelResult(prompt + completion, prompt, completion), m, log);
      Assoc(before, [Asked(1)], [Answered(prompt, completion)]);
    }
    choice, exn := None, OtherExn("");
    if w.decide.Decided? {
      choice := Some(w.decide.decision);
    } else {
      exn := w.decide.exn;
    }
  }

  // specs[plan.id] = ..., for each plan; one that cannot be built ends the turn.
  method BuildSpecs(plans: seq<Plan>) returns (refused: Option<string>, specs: seq<Spec>)
    ensures refused.None? <==> forall p :: p in plans ==> p.refused.None?
    ensures refused.None? ==> specs == SpecDict(plans)
  {
    refused, specs := None, [];
    for i := 0 to |plans|
      invariant specs == SpecDict(plans[..i])
      invariant forall j :: 0 <= j < i ==> plans[j].refused.None?
    {
      if plans[i].refused.Some? {
        assert plans[i] in plans;
        refused := plans[i].refused;
        return;
      }
      assert plans[..i + 1][..i] == plans[..i];
      specs := Put(specs, Build(plans[i]));
    }
    assert plans[..|plans|] == plans;
  }

  // ------------------------------------------------------------ announcing and reporting

  method Announce(db: Db, state: State, specs: seq<Spec>, ghost m: Mark, ghost head: seq<Event>) returns (ghost log: seq<Event>)
    requires Wrote(db, state, m, head)
    modifies db, state`tokens
    ensures Wrote(db, state, m, log) && log == head + Spawns(specs)
  {
    log := head;
    AddNothing(head);
    for i := 0 to |specs|
      invariant Wrote(db, state, m, log) && log == head + Spawns(specs[..i])
    {
      log := Write(db, state, specs[i].id, "", Spawned(specs[i]).kind, m, log);
      assert specs[..i + 1] == specs[..i] + [specs[i]];
      SpawnsSnoc(specs[..i], specs[i]);
      Assoc(head, Spawns(specs[..i]), [Spawned(specs[i])]);
    }
    assert specs[..|specs|] == specs;
  }

  method ReportSkipped(db: Db, state: State, specs: seq<Spec>, why: string, ghost m: Mark, ghost before: seq<Event>) returns (ghost log: seq<Event>)
    requires Wrote(db, state, m, before)
    modifies db, state`tokens
    ensures Wrote(db, state, m, log) && log == before + Skips(specs, why)
  {
    log := before;
    AddNothing(before);
    for i := 0 to |specs|
      invariant Wrote(db, state, m, log) && log == before + Skips(specs[..i], why)
    {
      log := Write(db, state, specs[i].id, "", SkipOf(specs[i], why).kind, m, log);
      assert specs[..i + 1] == specs[..i] + [specs[i]];
      SkipsSnoc(specs[..i], specs[i], why);
      Assoc(before, Skips(specs[..i], why), [SkipOf(specs[i], why)]);
    }
    assert specs[..|specs|] == specs;
  }

  // ------------------------------------------------------------ running the plan

  function WhyNotRun(stop: Option<string>): string {
    if Halted(stop) then stop.value else "not run"
  }

  function StuckError(end: WaveEnd): seq<Event> {
    if end.Stuck? then [Event("", RunError(Some("error"), Some("stuck"), ""))] else []
  }

  lemma StuckIsLogged(end: WaveEnd)
    ensures StuckLog(StuckError(end))
  {
    if end.Stuck? {
      assert StuckError(end)[0] == Event("", RunError(Some("error"), Some("stuck"), ""));
    }
  }

  method ReportStuck(db: Db, state: State, end: WaveEnd, ghost m: Mark, ghost before: seq<Event>) returns (ghost log: seq<Event>)
    requires Wrote(db, state, m, before)
    modifies db, state`tokens
    ensures Wrote(db, state, m, log) && log == before + StuckError(end)
  {
    log := before;
    if end.Stuck? {
      log := Write(db, state, "", "", RunError(Some("error"), Some("stuck"), ""), m, before);
    } else {
      assert before + [] == before;
    }
  }

  lemma SomeLeft(specs: seq<Spec>, g: Graph, waves: seq<set<string>>, remaining: seq<Spec>, results: map<string, Res>)
    requires Plans.Describes(specs, g) && InWaves(specs, g, waves, remaining, results) && remaining != []
    ensures results.Keys < g.Keys
  {
    WaveDeleted(specs, g, |waves|);
    DoneGrows(g, |waves|);
    assert remaining[0] in remaining && remaining[0].id in SpecIds(remaining);
  }

  lemma WavesGiveSchedule(text: string, p: PlanTrace, log: seq<Event>, stop: Option<string>)
    requires UniqueSpecs(p.specs) && Plans.Describes(p.specs, p.g)
    requires Waving(text, p.specs, p.g, log, p.ran, p.results, p.polite, p.waves, p.remaining)
    requires p.end == LoopEnd(p.remaining, p.results, stop) && p.why == WhyNotRun(stop)
    requires p.end.Stuck? ==> Ready(p.remaining, p.results.Keys) == []
    ensures Scheduled(p)
  {
    LoopOver(text, p.specs, p.g, log, p.ran, p.results, p.polite, p.waves, p.remaining, stop);
    if p.remaining != [] {
      SomeLeft(p.specs, p.g, p.waves, p.remaining, p.results);
    }
  }

  lemma WavesGiveTrace(text: string, p: PlanTrace, log: seq<Event>, stop: Option<string>)
    requires UniqueSpecs(p.specs) && AllToolFree(p.specs) && Plans.Describes(p.specs, p.g)
    requires Waving(text, p.specs, p.g, log, p.ran, p.results, p.polite, p.waves, p.remaining)
    requires p.why == WhyNotRun(stop)
    ensures RanToPlan(p)
  {
  }

  // Every agent is announced before any of them runs.
  method StartPlan(db: Db, state: State, specs: seq<Spec>, ghost text: string, ghost g: Graph, ghost m: Mark, ghost head: seq<Event>)
    returns (end: WaveEnd, results: map<string, Res>, order: seq<string>, remaining: seq<Spec>,
             ghost log: seq<Event>, ghost ran: RanMap, ghost waves: seq<set<string>>)
    requires UniqueSpecs(specs) && AllToolFree(specs) && Plans.Describes(specs, g)
    requires HeadLog(head) && Wrote(db, state, m, head) && (state.polite ==> state.stopReason != Some(""))
    modifies db, state
    ensures Wrote(db, state, m, log) && head + Spawns(specs) <= log && head <= log
    ensures end.Crash? ==> Logged(text, specs, log, ran) && SomeMayDie(specs)
    ensures !end.Crash? ==> Waving(text, specs, g, log, ran, results, state.polite, waves, remaining)
    ensures !end.Crash? ==> order == OrderOf(specs, waves) && Lists(order, results.Keys) && end == LoopEnd(remaining, results, state.stopReason)
    ensures end.Stuck? ==> Ready(remaining, results.Keys) == []
  {
    log := Announce(db, state, specs, m, head);
    AnnouncedIsReady(text, specs, g, head, map[], map[], state.polite);
    end, results, order, remaining, log, ran, waves := RunWaves(db, state, specs, text, g, m, log);
  }

  // Announce, run the waves, and report who was not run.
  method RunPlan(db: Db, state: State, specs: seq<Spec>, ghost text: string, ghost g: Graph, ghost m: Mark, ghost head: seq<Event>)
    returns (crash: Option<Exn>, results: map<string, Res>, order: seq<string>, ghost log: seq<Event>, ghost p: PlanTrace)
    requires UniqueSpecs(specs) && AllToolFree(specs) && Plans.Describes(specs, g)
    requires HeadLog(head) && Wrote(db, state, m, head) && (state.polite ==> state.stopReason != Some(""))
    modifies db, state
    ensures Wrote(db, state, m, log) && TurnOk(text, log)
    ensures p.specs == specs && p.g == g && p.polite == state.polite && p.results == results
    ensures crash.Some? ==> SomeMayDie(specs)
    ensures crash.None? ==> ToldAs(p, text, log) && RanToPlan(p) && Scheduled(p) && Lists(order, results.Keys)
    ensures crash.None? ==> order == OrderOf(specs, p.waves)
    ensures p.why == if state.stopReason.Some? && state.stopReason.value != "" then state.stopReason.value else "not run"
    ensures head <= log
  {
    var end, remaining;
    ghost var ran, waves;
    end, results, order, remaining, log, ran, waves := StartPlan(db, state, specs, text, g, m, head);
    var why := WhyNotRun(state.stopReason);
    p := PlanTrace(specs, g, ran, results, waves, remaining, end, why, state.polite);
    if end.Crash? {
      LoggedIsOk(text, specs, log, ran);
      crash := Some(end.exn);
      return;
    }
    crash := None;
    ghost var ranLog := log;
    log := WrapUp(db, state, end, remaining, why, text, p, m, log);
    Longer(head, ranLog, StuckError(end) + Skips(remaining, why));
  }

  // The loop over waves is over without a thread having died.
  method WrapUp(db: Db, state: State, end: WaveEnd, remaining: seq<Spec>, why: string, ghost text: string, ghost p: PlanTrace,
                ghost m: Mark, ghost ranLog: seq<Event>) returns (ghost log: seq<Event>)
    requires UniqueSpecs(p.specs) && AllToolFree(p.specs) && Plans.Describes(p.specs, p.g) && Wrote(db, state, m, ranLog)
    requires Waving(text, p.specs, p.g, ranLog, p.ran, p.results, p.polite, p.waves, p.remaining)
    requires p.remaining == remaining && p.end == end && p.why == why == WhyNotRun(state.stopReason)
    requires end == LoopEnd(remaining, p.results, state.stopReason) && (end.Stuck? ==> Ready(remaining, p.results.Keys) == [])
    modifies db, state`tokens
    ensures Wrote(db, state, m, log) && TurnOk(text, log)
    ensures ToldAs(p, text, log) && RanToPlan(p) && Scheduled(p)
    ensures log == ranLog + (StuckError(end) + Skips(remaining, why))
  {
    WavesGiveTrace(text, p, ranLog, state.stopReason);
    WavesGiveSchedule(text, p, ranLog, state.stopReason);
    log := Report(db, state, end, remaining, why, text, p, m, ranLog);
    Assoc(ranLog, StuckError(end), Skips(remaining, why));
  }

  // Who was not run, and why.
  method Report(db: Db, state: State, end: WaveEnd, remaining: seq<Spec>, why: string, ghost text: string, ghost p: PlanTrace,
                ghost m: Mark, ghost ranLog: seq<Event>) returns (ghost log: seq<Event>)
    requires Wrote(db, state, m, ranLog) && RanToPlan(p) && p.remaining == remaining && p.why == why
    requires BetweenWaves(text, p.specs, p.g, ranLog, p.ran, p.results, p.polite)
    modifies db, state`tokens
    ensures Wrote(db, state, m, log) && TurnOk(text, log) && ToldAs(p, text, log)
    ensures log == ranLog + StuckError(end) + Skips(remaining, why)
  {
    ghost var mid := ReportStuck(db, state, end, m, ranLog);
    log := ReportSkipped(db, state, remaining, why, m, mid);
    StuckIsLogged(end);
    PlanOver(p, text, ranLog, StuckError(end), log);
  }

  // ------------------------------------------------------------ the reply

  // What is known of the turn when a plan was run, and when there was none.
  ghost predicate Telling(p: Option<PlanTrace>, text: string, log: seq<Event>) {
    TurnOk(text, log) && (p.Some? ==> ToldAs(p.value, text, log))
  }

  ghost predicate AgentOf(p: Option<PlanTrace>, id: string) {
    Filed(id) ==> p.Some? && id in SpecIds(p.value.specs)
  }

  method WriteTail(db: Db, state: State, agentId: string, kind: Kind, ghost p: Option<PlanTrace>, ghost text: string,
                   ghost m: Mark, ghost before: seq<Event>) returns (ghost log: seq<Event>)
    requires Wrote(db, state, m, before) && Telling(p, text, before)
    requires Quiet(Event(agentId, kind)) && Proper(Event(agentId, kind)) && AgentOf(p, agentId)
    modifies db, state`tokens
    ensures Wrote(db, state, m, log) && Telling(p, text, log) && log == before + [Event(agentId, kind)]
  {
    var e := Event(agentId, kind);
    log := Write(db, state, agentId, PARENT, kind, m, before);
    TurnOkQuiet(text, before, e);
    if p.Some? {
      QuietTold(p.value, text, before, e);
    }
  }

  predicate AnyFinal(order: seq<string>, results: map<string, Res>)
    requires forall id :: id in order ==> id in results
  {
    exists i :: 0 <= i < |order| && results[order[i]].stopped == Final
  }

  function Joined(order: seq<string>, results: map<string, Res>): string
    requires forall id :: id in order ==> id in results
  {
    if order == [] then ""
    else Joined(order[..|order| - 1], results) + Note(results[order[|order| - 1]])
  }

  // What stands in for an empty merge holds every agent's answer or error, in order.
  lemma {:induction false} JoinedHolds(order: seq<string>, results: map<string, Res>, i: nat) returns (rest: string)
    requires (forall id :: id in order ==> id in results) && i < |order|
    ensures Joined(order, results) == Joined(order[..i], results) + Note(results[order[i]]) + rest
  {
    var n := |order| - 1;
    if i == n {
      rest := "";
      AddNothing(Joined(order, results));
    } else {
      var more := JoinedHolds(order[..n], results, i);
      assert order[..n][..i] == order[..i];
      rest := more + Note(results[order[n]]);
      Assoc(Joined(order[..i], results) + Note(results[order[i]]), more, Note(results[order[n]]));
    }
  }

  // The turn's last word: an error if no agent came to an answer, the one
  // agent's answer, or what the parent makes of several.
  function Tail(w: ParentWorld, order: seq<string>, results: map<string, Res>): seq<Event>
    requires forall id :: id in order ==> id in results
  {
    if order == [] then [Event("", RunError(Some("error"), Some("no agent ran"), ""))]
    else if !AnyFinal(order, results) then
      var first := results[order[0]];
      [Event("", RunError(Some(StoppedName(first.stopped)), first.error, first.hint))]
    else if |order| == 1 then [Event(order[0], AssistantMessage(results[order[0]].answer, "agent"))]
    else MergeLog(w, Joined(order, results))
  }

  // The parent's merging call, and its answer or what stands in for an empty one.
  function MergeLog(w: ParentWorld, fallback: string): seq<Event> {
    match w.synth
    case Unmerged(_) => [Asked(2)]
    case Merged(prompt, completion, reply) =>
      [Asked(2)] + [Answered(prompt, completion), Merger(if reply != "" then reply else fallback)]
  }

  function Merger(text: string): Event {
    Event(PARENT, AssistantMessage(text, "synth"))
  }

  function OutcomeOf(order: seq<string>, results: map<string, Res>): string
    requires forall id :: id in order ==> id in results
  {
    if order == [] then "error" else if AnyFinal(order, results) then "ok" else StoppedName(results[order[0]].stopped)
  }

  // Some agent came to an answer.
  ghost predicate SomeAnswered(order: seq<string>, results: map<string, Res>)
    requires forall id :: id in order ==> id in results
  {
    exists id :: id in order && results[id].stopped == Final
  }

  // The last entry when some agent came to an answer: the answer of the only
  // agent, or what the parent made of the results of several.
  ghost predicate LastAnswer(w: ParentWorld, order: seq<string>, results: map<string, Res>, last: Event)
    requires forall id :: id in order ==> id in results
  {
    && last.kind.AssistantMessage?
    && (|order| == 1 ==>
          last.agentId == order[0] && last.kind.text == results[order[0]].answer && last.kind.source == "agent")
    && (|order| > 1 ==>
          && last.agentId == PARENT && last.kind.source == "synth" && w.synth.Merged?
          && (w.synth.text != "" ==> last.kind.text == w.synth.text))
  }

  // The last entry when none did: the error of the first agent, if any ran.
  ghost predicate LastError(order: seq<string>, results: map<string, Res>, last: Event, outcome: string)
    requires forall id :: id in order ==> id in results
  {
    && last.agentId == "" && last.kind.RunError? && last.kind.stopped == Some(outcome)
    && if order == [] then outcome == "error" && last.kind.error == Some("no agent ran")
       else outcome == StoppedName(results[order[0]].stopped)
            && last.kind.error == results[order[0]].error && last.kind.hint == results[order[0]].hint
  }

  // What the user is told in the end: "ok" iff some agent came to an answer.
  ghost predicate ToldLast(w: ParentWorld, order: seq<string>, results: map<string, Res>, log: seq<Event>, answer: Answer)
    requires forall id :: id in order ==> id in results
  {
    answer.Returns? ==>
      && log != []
      && (answer.outcome == "ok" <==> SomeAnswered(order, results))
      && (if SomeAnswered(order, results) then LastAnswer(w, order, results, log[|log| - 1])
          else LastError(order, results, log[|log| - 1], answer.outcome))
  }

  lemma AnyFinalIff(order: seq<string>, results: map<string, Res>)
    requires forall id :: id in order ==> id in results
    ensures AnyFinal(order, results) <==> SomeAnswered(order, results)
  {
    if SomeAnswered(order, results) {
      var id :| id in order && results[id].stopped == Final;
      var i :| 0 <= i < |order| && order[i] == id;
    }
  }

  // Every way a run can stop has its own name, and none of them is "ok".
  lemma StoppedNames(a: Stopped, b: Stopped)
    ensures StoppedName(a) == StoppedName(b) ==> a == b
    ensures StoppedName(a) != "ok" && (StoppedName(a) == "final" <==> a == Final)
  {
  }

  lemma LastOfTail(w: ParentWorld, order: seq<string>, results: map<string, Res>, before: seq<Event>, answer: Answer)
    requires forall id :: id in order ==> id in results
    requires answer.Returns? ==> answer.outcome == OutcomeOf(order, results)
    requires answer.Throws? <==> |order| > 1 && SomeAnswered(order, results) && w.synth.Unmerged?
    ensures ToldLast(w, order, results, before + Tail(w, order, results), answer)
  {
    AnyFinalIff(order, results);
    if order != [] {
      StoppedNames(results[order[0]].stopped, Final);
    }
    var tail := Tail(w, order, results);
    assert tail != [] && (before + tail)[|before + tail| - 1] == tail[|tail| - 1];
  }

  // The parent merges the results; an empty merge falls back to joining them.
  method Synthesize(db: Db, state: State, w: ParentWorld, fallback: string,
                    ghost p: Option<PlanTrace>, ghost text: string, ghost m: Mark, ghost before: seq<Event>)
    returns (answer: Answer, ghost log: seq<Event>)
    requires Wrote(db, state, m, before) && Telling(p, text, before)
    modifies db, state`tokens
    ensures log == before + MergeLog(w, fallback) && (answer.Returns? ==> answer.outcome == "ok")
    ensures Wrote(db, state, m, log) && Telling(p, text, log) && (answer.Returns? ==> ClosedLog(log))
    ensures answer.Throws? <==> w.synth.Unmerged?
  {
    log := WriteTail(db, state, PARENT, ModelCalled(2), p, text, m, before);
    match w.synth
    case Unmerged(exn) =>
      answer := Throws(exn);
    case Merged(prompt, completion, reply) =>
      log := WriteMerger(db, state, prompt, completion, if reply != "" then reply else fallback, p, text, m, log);
      Assoc(before, [Asked(2)], [Answered(prompt, completion), Merger(if reply != "" then reply else fallback)]);
      answer := Returns("ok");
  }

  method WriteMerger(db: Db, state: State, prompt: int, completion: int, merged: string,
                     ghost p: Option<PlanTrace>, ghost text: string, ghost m: Mark, ghost before: seq<Event>)
    returns (ghost log: seq<Event>)
    requires Wrote(db, state, m, before) && Telling(p, text, before)
    modifies db, state`tokens
    ensures Wrote(db, state, m, log) && Telling(p, text, log) && ClosedLog(log)
    ensures log == before + [Answered(prompt, completion), Merger(merged)]
  {
    log := WriteTail(db, state, PARENT, ModelResult(prompt + completion, prompt, completion), p, text, m, before);
    log := WriteTail(db, state, PARENT, AssistantMessage(merged, "synth"), p, text, m, log);
    Assoc(before, [Answered(prompt, completion)], [Merger(merged)]);
    assert [Answered(prompt, completion)] + [Merger(merged)] == [Answered(prompt, completion), Merger(merged)];
  }

  // From the agents' results to the turn's last word.
  method Merge(db: Db, state: State, w: ParentWorld, order: seq<string>, results: map<string, Res>,
               ghost p: Option<PlanTrace>, ghost text: string, ghost m: Mark, ghost before: seq<Event>)
    returns (answer: Answer, ghost log: seq<Event>)
    requires Wrote(db, state, m, before) && Telling(p, text, before)
    requires forall id :: id in order ==> id in results && Explains(results[id]) && AgentOf(p, id)
    modifies db, state`tokens
    ensures Wrote(db, state, m, log) && Telling(p, text, log) && (answer.Returns? ==> ClosedLog(log))
    ensures answer.Throws? <==> |order| > 1 && SomeAnswered(order, results) && w.synth.Unmerged?
    ensures log == before + Tail(w, order, results) && (answer.Returns? ==> answer.outcome == OutcomeOf(order, results))
    ensures ToldLast(w, order, results, log, answer)
  {
    AnyFinalIff(order, results);
    if !AnyFinal(order, results) {
      var stopped, error, hint := "error", Some("no agent ran"), "";
      if order != [] {
        var first := results[order[0]];
        stopped, error, hint := StoppedName(first.stopped), first.error, first.hint;
      }
      log := WriteTail(db, state, "", RunError(Some(stopped), error, hint), p, text, m, before);
      answer := Returns(stopped);
    } else if |order| == 1 {
      log := WriteTail(db, state, order[0], AssistantMessage(results[order[0]].answer, "agent"), p, text, m, before);
      answer := Returns("ok");
    } else {
      answer, log := Synthesize(db, state, w, Joined(order, results), p, text, m, before);
    }
    LastOfTail(w, order, results, before, answer);
  }

  // ------------------------------------------------------------ a parent turn

  // What a parent turn has logged when _turn_parent returns or raises.
  ghost predicate TurnTold(p: Option<PlanTrace>, text: string, log: seq<Event>, polite: bool) {
    Telling(p, text, log) && (p.Some? ==> RanToPlan(p.value) && Scheduled(p.value) && p.value.polite == polite)
  }

  // The plan's results in the order they came, wave after wave.
  ghost predicate Ordered(p: PlanTrace) {
    forall id :: id in OrderOf(p.specs, p.waves) ==> id in p.results
  }

  ghost predicate EndsWith(log: seq<Event>, tail: seq<Event>) {
    |tail| <= |log| && log[|log| - |tail|..] == tail
  }

  // How a turn that ran plan `p` ends, and what it returns.
  ghost predicate LastWord(w: ParentWorld, p: PlanTrace, log: seq<Event>, answer: Answer) {
    && Ordered(p)
    && EndsWith(log, Tail(w, OrderOf(p.specs, p.waves), p.results))
    && (answer.Returns? ==> answer.outcome == OutcomeOf(OrderOf(p.specs, p.waves), p.results))
    && ToldLast(w, OrderOf(p.specs, p.waves), p.results, log, answer)
  }

  method RunAgents(db: Db, state: State, w: ParentWorld, plans: seq<Plan>, ghost text: string, ghost m: Mark, ghost head: seq<Event>)
    returns (answer: Answer, ghost log: seq<Event>, ghost p: Option<PlanTrace>)
    requires HeadLog(head) && Wrote(db, state, m, head) && (state.polite ==> state.stopReason != Some(""))
    requires forall q :: q in plans ==> ToolFree(q.spec.prior)
    modifies db, state
    ensures Wrote(db, state, m, log) && TurnTold(p, text, log, state.polite) && (answer.Returns? ==> ClosedLog(log))
    ensures p.Some? ==> p.value.g == PlanGraph(plans) && LastWord(w, p.value, log, answer)
    ensures head <= log
    ensures if answer.Returns? then p.Some? else PlansMayFail(plans) || w.synth.Unmerged?
  {
    p := None;
    var refused, specs := BuildSpecs(plans);
    if refused.Some? {
      HeadIsOk(text, head);
      return Throws(SetupExn(refused.value)), head, None;
    }
    SpecDictIsPlan(plans);
    SpecDictToolFree(plans);
    var crash, results, order;
    ghost var trace;
    crash, results, order, log, trace := RunPlan(db, state, specs, text, PlanGraph(plans), m, head);
    if crash.Some? {
      return Throws(crash.value), log, None;
    }
    p := Some(trace);
    ResultsExplain(trace, order);
    ghost var ran := log;
    answer, log := Merge(db, state, w, order, results, p, text, m, log);
    Longer(head, ran, Tail(w, order, results));
  }

  lemma {:induction false} SpecDictToolFree(plans: seq<Plan>)
    requires forall q :: q in plans ==> ToolFree(q.spec.prior)
    ensures AllToolFree(SpecDict(plans))
  {
    if plans != [] {
      var front, last := plans[..|plans| - 1], plans[|plans| - 1];
      SpecDictToolFree(front);
      assert last in plans;
      forall s | s in SpecDict(plans)
        ensures ToolFree(s.prior)
      {
        assert s == Build(last) || s in SpecDict(front);
      }
    }
  }

  lemma ResultsExplain(p: PlanTrace, order: seq<string>)
    requires RanToPlan(p) && Lists(order, p.results.Keys)
    ensures forall id :: id in order ==> id in p.results && Explains(p.results[id]) && AgentOf(Some(p), id)
  {
    forall id | id in order
      ensures Explains(p.results[id]) && id in SpecIds(p.specs)
    {
      DoneGrows(p.g, |p.waves|);
      assert id in SpecIds(p.specs);
      var s :| s in p.specs && s.id == id;
      assert RanFine(s, p.ran[s.id], p.results, p.polite);
    }
  }

  ghost predicate WorldOk(w: ParentWorld) {
    && (forall q :: q in w.specialists ==> ToolFree(q.spec.prior))
    && (w.decide.Decided? && w.decide.decision.Agents? ==> forall q :: q in w.decide.decision.plans ==> ToolFree(q.spec.prior))
  }

  // A turn the parent answers by itself.
  ghost predicate ChatTold(w: ParentWorld, log: seq<Event>, answer: Answer) {
    && answer == Returns("ok")
    && Chats(w)
    && log == HeadOf(w) + [Event(PARENT, AssistantMessage(w.decide.decision.text, if w.decide.decision.chat then "parent" else "clarify"))]
  }

  function ChatMessage(d: Decision): Kind
    requires d.Reply?
  {
    AssistantMessage(d.text, if d.chat then "parent" else "clarify")
  }

  function HeadOf(w: ParentWorld): seq<Event> {
    [Event("", RunStarted(None, None, []))] + DecideLog(w)
  }

  // A plan in the log is the plan that is run, entry for entry.
  predicate ShowsPlan(k: Kind, plans: seq<Plan>) {
    && k.ParentDecision? && k.decision == Some("agents") && |k.plan| == |plans|
    && forall i :: 0 <= i < |plans| ==> k.plan[i] == plans[i].entry
  }

  // How a parent turn begins: it is opened, the model is asked and, if it
  // answered, billed; then comes the decision that is acted on.
  lemma HeadSays(w: ParentWorld)
    ensures var head := HeadOf(w); var n := if w.decide.NoReply? then 2 else 3;
      && |head| == n + (if Indecisive(w) then 0 else 1)
      && head[0] == Event("", RunStarted(None, None, [])) && head[1] == Event(PARENT, ModelCalled(1))
      && (!w.decide.NoReply? ==>
            && head[2].agentId == PARENT && head[2].kind.ModelResult?
            && head[2].kind.tokens == w.decide.prompt + w.decide.completion)
      && (!Indecisive(w) ==>
            && head[n].agentId == PARENT
            && if Chats(w)
               then head[n].kind == ParentDecision(Some(if w.decide.decision.chat then "chat" else "clarify"), "", w.decide.decision.text, [])
               else ShowsPlan(head[n].kind, ChosenPlans(w)))
  {
  }

  // A parent that gives no usable plan is overruled only when there is exactly
  // one specialist, which is then run by itself.
  lemma FallsBack(w: ParentWorld)
    ensures !w.decide.Decided? && !Indecisive(w) <==>
      !w.decide.Decided? && w.decide.exn.ParentExn? && |w.specialists| == 1
    ensures !w.decide.Decided? ==> ChosenPlans(w) == w.specialists
  {
  }

  // run_started and the parent's decision.
  method OpenTurn(db: Db, state: State, w: ParentWorld, ghost m: Mark)
    returns (choice: Option<Decision>, exn: Exn, ghost log: seq<Event>)
    requires Wrote(db, state, m, []) && state.stopReason == None
    modifies db, state
    ensures Wrote(db, state, m, log) && HeadLog(log) && log == HeadOf(w)
    ensures choice == if Indecisive(w) then None else Some(ChosenDecision(w))
    ensures state.polite ==> state.stopReason != Some("")
  {
    log := WriteStart(db, state, m);
    state.OperatorMayKill();
    choice, exn, log := Decide(db, state, w, m, log);
  }

  method WriteStart(db: Db, state: State, ghost m: Mark) returns (ghost log: seq<Event>)
    requires Wrote(db, state, m, [])
    modifies db, state`tokens
    ensures Wrote(db, state, m, log) && HeadLog(log) && log == [Event("", RunStarted(None, None, []))]
  {
    log := WriteHead(db, state, "", RunStarted(None, None, []), m, []);
  }

  method TurnParent(db: Db, state: State, w: ParentWorld, ghost text: string, ghost m: Mark)
    returns (answer: Answer, ghost log: seq<Event>, ghost p: Option<PlanTrace>)
    requires WorldOk(w) && Wrote(db, state, m, []) && state.stopReason == None
    modifies db, state
    ensures Wrote(db, state, m, log) && TurnTold(p, text, log, state.polite) && (answer.Returns? ==> ClosedLog(log))
    ensures p.Some? ==> p.value.g == PlanGraph(ChosenPlans(w)) && LastWord(w, p.value, log, answer)
    ensures w.setup.None? ==> HeadOf(w) <= log
    ensures if answer.Throws? then MayThrow(w) else if Chats(w) then p.None? && ChatTold(w, log, answer) else p.Some?
  {
    p := None;
    HeadIsOk(text, []);
    if w.setup.Some? {
      return Throws(w.setup.value), [], None;
    }
    var choice, exn;
    choice, exn, log := OpenTurn(db, state, w, m);
    HeadIsOk(text, log);
    if choice.None? {
      return Throws(exn), log, None;
    }
    if choice.value.Reply? {
      log := ChatReply(db, state, choice.value, text, m, log);
      answer := Returns("ok");
    } else {
      answer, log, p := RunAgents(db, state, w, choice.value.plans, text, m, log);
    }
  }

  method ChatReply(db: Db, state: State, d: Decision, ghost text: string, ghost m: Mark, ghost head: seq<Event>) returns (ghost log: seq<Event>)
    requires d.Reply? && Wrote(db, state, m, head) && TurnOk(text, head)
    modifies db, state`tokens
    ensures Wrote(db, state, m, log) && TurnOk(text, log) && ClosedLog(log) && log == head + [Event(PARENT, ChatMessage(d))]
  {
    log := WriteTail(db, state, PARENT, ChatMessage(d), None, text, m, head);
  }
}
