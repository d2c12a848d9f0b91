// A session bound to one agent (plnt/executors/local.py, _turn_agent): the
// agent answers by itself, and its card is opened by run_started.
module SoloTurn {
  import opened Basics
  import opened Events
  import opened Console
  import opened Transcript
  import opened TranscriptLaws
  import opened TokenLaws
  import opened AgentLoop
  import opened AgentLaws
  import opened AgentCards
  import opened AgentRuns
  import opened RunState
  import opened RunAgent
  import opened AgentPool
  import opened TurnCards
  import opened TurnWaves
  import opened TurnEnds

  function SoloStart(s: Spec): Event {
    Event("", RunStarted(Some(s.id), s.info.version, s.info.tools))
  }

  function SoloCard(s: Spec): Card {
    NewCard(s.id).(bundle := Some(s.id), version := s.info.version, tools := s.info.tools)
  }

  lemma {:induction false} StampOwn(id: string, kinds: seq<Kind>)
    ensures Own(StampAll(id, kinds), id) == kinds
  {
    if kinds != [] {
      var front, k := kinds[..|kinds| - 1], kinds[|kinds| - 1];
      StampOwn(id, front);
      StampSnoc(id, front, k);
      OwnSnoc(StampAll(id, front), Event(id, k), id);
      assert kinds == front + [k];
    }
  }

  lemma {:induction false} NoFinish(kinds: seq<Kind>)
    requires Finishes(kinds) == 0
    ensures forall k :: k in kinds ==> !k.AgentFinished?
  {
    if kinds != [] {
      NoFinish(kinds[..|kinds| - 1]);
      assert kinds == kinds[..|kinds| - 1] + [kinds[|kinds| - 1]];
    }
  }

  lemma {:induction false} HonestWithout(log: seq<Event>)
    requires forall e :: e in log ==> !e.kind.AgentFinished?
    ensures Honest(log)
  {
    if log != [] {
      HonestWithout(log[..|log| - 1]);
      assert log[|log| - 1] in log;
    }
  }

  // The one card shows the run.
  lemma SoloCards(t: Turn, s: Spec, stops: Stops, run: Run)
    requires t.agents == [SoloCard(s)] && ToolFree(s.prior) && run == Play(s, Init(s, []), stops)
    ensures var cards := PyTurn(t, StampAll(s.id, run.kinds)).agents;
      && |cards| == 1 && cards[0].id == s.id && Title(cards[0]) == Title(SoloCard(s))
      && (Filed(s.id) ==> CardInv(run.a, cards[0])) && (!Filed(s.id) ==> cards[0] == SoloCard(s))
  {
    var log := StampAll(s.id, run.kinds);
    EveryRunEmits(s, [], stops);
    assert Known(t.agents, s.id) by {
      assert t.agents[0].id == s.id;
    }
    AgentsFoldAlone(t, log);
    StampOwn(s.id, run.kinds);
    EveryRun(s, SoloCard(s), [], stops);
    CardFoldKeepsId(SoloCard(s), Heard(log, s.id));
    CardFoldKeepsTitle(SoloCard(s), Heard(log, s.id));
  }

  lemma SoloLogs(s: Spec, kinds: seq<Kind>)
    requires forall k :: k in kinds ==> AgentKind(k) && Filled(k) && Sums(k) && !k.AgentFinished?
    ensures forall e :: e in [SoloStart(s)] + StampAll(s.id, kinds) ==> Proper(e) && !e.kind.AgentFinished?
  {
    forall e | e in StampAll(s.id, kinds)
      ensures Proper(e) && !e.kind.AgentFinished?
    {
      var i :| 0 <= i < |kinds| && StampAll(s.id, kinds)[i] == e;
      assert kinds[i] in kinds && e.kind == kinds[i];
    }
  }

  lemma SoloUnfinished(s: Spec, stops: Stops, run: Run)
    requires ToolFree(s.prior) && run == Play(s, Init(s, []), stops) && !run.a.phase.Ended?
    ensures Finishes(run.kinds) == 0
  {
    EveryRun(s, SoloCard(s), [], stops);
  }

  lemma SoloHonest(s: Spec, stops: Stops, run: Run)
    requires ToolFree(s.prior) && run == Play(s, Init(s, []), stops) && !run.a.phase.Ended?
    ensures Honest([SoloStart(s)] + StampAll(s.id, run.kinds))
    ensures AllProper([SoloStart(s)] + StampAll(s.id, run.kinds))
  {
    SoloUnfinished(s, stops, run);
    EveryRunEmits(s, [], stops);
    NoFinish(run.kinds);
    SoloLogs(s, run.kinds);
    HonestWithout([SoloStart(s)] + StampAll(s.id, run.kinds));
  }

  lemma SoloOpens(text: string, s: Spec)
    requires s.id != ""
    ensures PyTurn(NewTurn(text), [SoloStart(s)]).agents == [SoloCard(s)]
  {
    PyTurnSnoc(NewTurn(text), [], SoloStart(s));
    assert [] + [SoloStart(s)] == [SoloStart(s)];
    assert PyTurn(NewTurn(text), []) == NewTurn(text);
  }

  lemma SoloResolved(s: Spec, run: Run, cards: seq<Card>)
    requires run.a.phase.Returned? || run.a.phase.Dead?
    requires |cards| == 1 && (Filed(s.id) ==> CardInv(run.a, cards[0])) && (!Filed(s.id) ==> cards[0] == SoloCard(s))
    ensures AllResolved(cards)
  {
  }

  lemma SoloOk(text: string, s: Spec, stops: Stops, run: Run, log: seq<Event>)
    requires s.id != "" && ToolFree(s.prior) && run == Play(s, Init(s, []), stops)
    requires run.a.phase.Returned? || run.a.phase.Dead?
    requires log == [SoloStart(s)] + StampAll(s.id, run.kinds)
    ensures TurnOk(text, log)
  {
    var t := NewTurn(text);
    var u := PyTurn(t, [SoloStart(s)]);
    SoloOpens(text, s);
    PyTurnConcat(t, [SoloStart(s)], StampAll(s.id, run.kinds));
    SoloCards(u, s, stops, run);
    SoloResolved(s, run, PyTurn(u, StampAll(s.id, run.kinds)).agents);
    SoloHonest(s, stops, run);
  }

  // How the turn ends when the agent's run came to `res`.
  function ClosingOf(s: Spec, res: Res): Event {
    if res.stopped == Final then Event(s.id, AssistantMessage(res.answer, "agent"))
    else Event("", RunError(Some(StoppedName(res.stopped)), res.error, res.hint))
  }

  // The log is the start, a run of the agent, and what that run came to.
  ghost predicate SoloTold(s: Spec, log: seq<Event>, run: Run, exn: Option<Exn>, outcome: string, polite: bool) {
    && (polite ==> Contained(s, run.kinds))
    && match run.a.phase
       case Returned(res) =>
         && exn.None? && log == [SoloStart(s)] + StampAll(s.id, run.kinds) + [ClosingOf(s, res)]
         && outcome == if res.stopped == Final then "ok" else StoppedName(res.stopped)
       case Dead(e) => exn == Some(e) && log == [SoloStart(s)] + StampAll(s.id, run.kinds)
       case _ => false
  }

  // One agent's turn, up to its reply or its error.
  method TurnAgent(db: Db, state: State, s: Spec, refused: Option<Exn>, ghost text: string, ghost m: Mark)
    returns (exn: Option<Exn>, outcome: string, ghost log: seq<Event>, ghost stops: Stops)
    requires s.id != "" && ToolFree(s.prior) && Wrote(db, state, m, []) && state.stopReason == None
    modifies db, state
    ensures Wrote(db, state, m, log) && TurnOk(text, log)
    ensures exn.None? ==> ClosedLog(log)
    ensures if refused.Some? then exn == refused && log == []
      else SoloTold(s, log, Play(s, Init(s, []), stops), exn, outcome, state.polite)
  {
    exn, outcome, stops := None, "ok", [];
    log := [];
    if refused.Some? {
      HeadIsOk(text, []);
      exn := refused;
      return;
    }
    log := Write(db, state, "", "", SoloStart(s).kind, m, log);
    assert [] + [SoloStart(s)] == [SoloStart(s)];
    var r;
    r, log, stops := RunSolo(db, state, s, text, m, log);
    match r
    case Crashed(e) =>
      exn := Some(e);
    case Came(res) =>
      var closing := ClosingOf(s, res);
      TurnOkQuiet(text, log, closing);
      log := Write(db, state, closing.agentId, "", closing.kind, m, log);
      outcome := if res.stopped == Final then "ok" else StoppedName(res.stopped);
  }

  method RunSolo(db: Db, state: State, s: Spec, ghost text: string, ghost m: Mark, ghost start: seq<Event>)
    returns (r: RunAgent.Outcome, ghost log: seq<Event>, ghost stops: Stops)
    requires s.id != "" && ToolFree(s.prior) && start == [SoloStart(s)]
    requires Wrote(db, state, m, start) && (state.polite ==> state.stopReason != Some(""))
    modifies db, state
    ensures Wrote(db, state, m, log) && TurnOk(text, log)
    ensures r.Came? ==> Explains(r.res)
    ensures var run := Play(s, Init(s, []), stops);
      Says(run.a.phase, r) && log == start + StampAll(s.id, run.kinds) && (state.polite ==> Contained(s, run.kinds))
  {
    ghost var more;
    r, stops, more := RunMicro(db, state, s, UsageKey(s), [], false, true, m, start);
    ghost var run := Play(s, Init(s, []), stops);
    EveryRun(s, SoloCard(s), [], stops);
    if state.polite {
      HeedingRunIsContained(s, [], stops, state.stopReason);
    }
    log := start + StampAll(s.id, run.kinds);
    SoloOk(text, s, stops, run, log);
  }

  // ------------------------------------------------------------ what the user sees of it

  // The card of a run that came to `res`, before the turn's last word and after.
  ghost predicate SoloCardEnds(s: Spec, a: Agent, res: Res, c: Card) {
    && c.id == s.id && c.role == s.id && c.bundle == Some(s.id) && c.version == s.info.version && c.tools == s.info.tools
    && c.tokens == a.spent && StepSigs(c.steps) == a.sigs && Resolved(c.steps)
    && match res.stopped
       case Final => c.status == Done && c.answer == Some(res.answer)
       case KilledStop => c.status == KilledStatus && c.answer.None?
       case _ => c.status == Failed && c.answer.None? && c.error == res.error
  }

  lemma SoloCloses(s: Spec, t: Turn, a: Agent, res: Res)
    requires Filed(s.id) && |t.agents| == 1 && Title(t.agents[0]) == Title(SoloCard(s))
    requires CardInv(a, t.agents[0]) && a.phase == Returned(res)
    ensures var u := PyStep(t, ClosingOf(s, res));
      && |u.agents| == 1 && SoloCardEnds(s, a, res, u.agents[0])
      && (if res.stopped == Final then u.reply == Some(ReplyView(res.answer, "agent")) && u.error == t.error
          else u.error == Some(ErrorView(res.error, res.hint, Some(StoppedName(res.stopped)))) && u.reply == t.reply)
  {
    var last := ClosingOf(s, res);
    assert PyCards(t, last).agents == t.agents by {
      assert Find(t.agents, s.id) == 0;
    }
    if res.stopped == Final {
      ReplyCloses(PyCards(t, last), res.answer, "agent");
    } else {
      ErrorCloses(PyCards(t, last), Some(StoppedName(res.stopped)), res.error, res.hint);
    }
  }

  // A turn of one agent shows how its run ended: its answer as the reply, on a
  // card that is done; or its error, on a card that failed or was killed.
  lemma SoloEnds(text: string, s: Spec, stops: Stops, log: seq<Event>, outcome: string, polite: bool, tokens: int)
    requires Filed(s.id) && ToolFree(s.prior) && SoloTold(s, log, Play(s, Init(s, []), stops), None, outcome, polite)
    ensures var turn := PyTurn(NewTurn(text), log + [Event("", RunFinished(Some(outcome), tokens))]);
      var a := Play(s, Init(s, []), stops).a;
      var res := a.phase.res;
      && |turn.agents| == 1 && SoloCardEnds(s, a, res, turn.agents[0])
      && (outcome == "ok" <==> res.stopped == Final)
      && (if res.stopped == Final then turn.reply == Some(ReplyView(res.answer, "agent")) && turn.error.None?
          else turn.error == Some(ErrorView(res.error, res.hint, Some(outcome))) && turn.reply.None?)
  {
    var run, end := Play(s, Init(s, []), stops), Event("", RunFinished(Some(outcome), tokens));
    var start, res := [SoloStart(s)] + StampAll(s.id, run.kinds), run.a.phase.res;
    SoloRan(text, s, stops, run);
    PyTurnSnoc(NewTurn(text), start, ClosingOf(s, res));
    PyTurnSnoc(NewTurn(text), log, end);
    SoloCloses(s, PyTurn(NewTurn(text), start), run.a, res);
    FinishKeeps(PyTurn(NewTurn(text), log), end);
  }

  lemma FinishKeeps(t: Turn, e: Event)
    requires e.agentId == "" && e.kind.RunFinished?
    ensures PyStep(t, e).agents == t.agents && PyStep(t, e).reply == t.reply && PyStep(t, e).error == t.error
  {
  }

  // The turn when the agent has run and nothing has been said of it yet.
  lemma SoloRan(text: string, s: Spec, stops: Stops, run: Run)
    requires Filed(s.id) && ToolFree(s.prior) && run == Play(s, Init(s, []), stops)
    ensures var t := PyTurn(NewTurn(text), [SoloStart(s)] + StampAll(s.id, run.kinds));
      && |t.agents| == 1 && Title(t.agents[0]) == Title(SoloCard(s)) && CardInv(run.a, t.agents[0])
      && t.reply.None? && t.error.None?
  {
    var t := PyTurn(NewTurn(text), [SoloStart(s)]);
    SoloOpens(text, s);
    PyTurnConcat(NewTurn(text), [SoloStart(s)], StampAll(s.id, run.kinds));
    SoloCards(t, s, stops, run);
    SoloSilent(t, s, stops, run);
    StartIsQuiet(text, s);
  }

  lemma StartIsQuiet(text: string, s: Spec)
    ensures PyTurn(NewTurn(text), [SoloStart(s)]).reply.None? && PyTurn(NewTurn(text), [SoloStart(s)]).error.None?
  {
    assert [SoloStart(s)][..0] == [];
  }

  // The agent's own entries are no reply and no error of the turn.
  lemma SoloSilent(t: Turn, s: Spec, stops: Stops, run: Run)
    requires t.agents == [SoloCard(s)] && ToolFree(s.prior) && run == Play(s, Init(s, []), stops)
    ensures var u := PyTurn(t, StampAll(s.id, run.kinds)); u.reply == t.reply && u.error == t.error
  {
    EveryRunEmits(s, [], stops);
    assert Known(t.agents, s.id) by {
      assert t.agents[0].id == s.id;
    }
    AgentsFoldAlone(t, StampAll(s.id, run.kinds));
  }
}
