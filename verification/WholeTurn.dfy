// A whole turn of a session (plnt/executors/local.py, _turn): the user's
// message, the turn itself, an error if it raised one, and run_finished; and
// what everybody who reads the log afterwards can rely on.
module WholeTurn {
  import opened Basics
  import opened Events
  import opened Graph
  import opened Console
  import opened Transcript
  import opened TranscriptLaws
  import opened TokenLaws
  import opened AgentLoop
  import opened AgentLaws
  import opened AgentRuns
  import opened RunState
  import opened AgentPool
  import opened Plans
  import opened PlanParser
  import opened TurnCards
  import opened TurnWaves
  import opened TurnEnds
  import Executor
  import SoloTurn

  // A session is bound to one agent, or the parent decides.
  datatype Mode = Single(s: Spec, refused: Option<Exn>) | Parent(w: Executor.ParentWorld)

  ghost predicate ModeOk(mode: Mode) {
    match mode
    case Single(s, _) => s.id != "" && ToolFree(s.prior)
    case Parent(w) => Executor.WorldOk(w)
  }

  function ErrorOf(exn: Exn): Kind {
    match exn
    case ModelExn(error, hint) => RunError(Some("error"), Some(error), hint)
    case ParentExn(error, hint) => RunError(Some("error"), Some(error), hint)
    case SetupExn(error) => RunError(Some("error"), Some(error), "")
    case OtherExn(error) => RunError(Some("crash"), Some(error), "")
  }

  // What a reader of the log is told about a plan that was run to its end.
  ghost predicate PlanTold(p: Option<PlanTrace>, text: string, log: seq<Event>) {
    p.Some? ==> RanToPlan(p.value) && Scheduled(p.value) && ToldAs(p.value, text, log)
  }

  // How the body of the turn went, in the terms of the two kinds of turn.
  datatype Course =
    | Solo(stops: Stops, exn: Option<Exn>, outcome: string)
    | Led(p: Option<PlanTrace>, answer: Executor.Answer)

  // What the body logs, and what that makes of the turn.
  ghost predicate Went(mode: Mode, c: Course, body: seq<Event>, polite: bool) {
    match mode
    case Single(s, refused) =>
      c.Solo? &&
      (if refused.Some? then c.exn == refused && body == []
       else SoloTurn.SoloTold(s, body, Play(s, Init(s, []), c.stops), c.exn, c.outcome, polite))
    case Parent(w) =>
      && c.Led?
      && (w.setup.None? ==> Executor.HeadOf(w) <= body)
      && (c.p.Some? ==>
            && c.p.value.g == PlanGraph(Executor.ChosenPlans(w)) && c.p.value.polite == polite
            && Executor.LastWord(w, c.p.value, body, c.answer))
      && (if c.answer.Throws? then Executor.MayThrow(w)
          else if Executor.Chats(w) then c.p.None? && Executor.ChatTold(w, body, c.answer)
          else c.p.Some?)
  }

  function PlanRun(c: Course): Option<PlanTrace> {
    if c.Led? then c.p else None
  }

  function RaisedBy(c: Course): Option<Exn> {
    match c
    case Solo(_, exn, _) => exn
    case Led(_, answer) => if answer.Throws? then Some(answer.exn) else None
  }

  function OutcomeOf(c: Course): string {
    match c
    case Solo(_, exn, outcome) => if exn.Some? then "error" else outcome
    case Led(_, answer) => if answer.Throws? then "error" else answer.outcome
  }

  // The entries a turn ends with: the error, if one was raised, and run_finished.
  function Closing(c: Course, tokens: int): seq<Event> {
    (if RaisedBy(c).Some? then [Event("", ErrorOf(RaisedBy(c).value))] else [])
    + [Event("", RunFinished(Some(OutcomeOf(c)), tokens))]
  }

  // The turn's body: a single agent, or the parent and its agents.
  method Body(db: Db, state: State, mode: Mode, ghost text: string, ghost m: Mark)
    returns (exn: Option<Exn>, outcome: string, ghost log: seq<Event>, ghost c: Course)
    requires ModeOk(mode) && Wrote(db, state, m, []) && state.stopReason == None
    modifies db, state
    ensures Wrote(db, state, m, log) && TurnOk(text, log) && PlanTold(PlanRun(c), text, log)
    ensures exn.None? ==> ClosedLog(log)
    ensures Went(mode, c, log, state.polite)
    ensures exn == RaisedBy(c) && (exn.None? ==> outcome == OutcomeOf(c))
  {
    match mode
    case Single(s, refused) =>
      ghost var stops;
      exn, outcome, log, stops := SoloTurn.TurnAgent(db, state, s, refused, text, m);
      c := Solo(stops, exn, outcome);
    case Parent(w) =>
      var answer;
      ghost var p;
      answer, log, p := Executor.TurnParent(db, state, w, text, m);
      c := Led(p, answer);
      exn := if answer.Throws? then Some(answer.exn) else None;
      outcome := if answer.Returns? then answer.outcome else "error";
  }

  lemma ErrorTold(p: Option<PlanTrace>, text: string, log: seq<Event>, exn: Exn)
    requires TurnOk(text, log) && PlanTold(p, text, log)
    ensures var all := log + [Event("", ErrorOf(exn))];
      TurnOk(text, all) && PlanTold(p, text, all) && ClosedLog(all)
  {
    TurnOkQuiet(text, log, Event("", ErrorOf(exn)));
    if p.Some? {
      QuietTold(p.value, text, log, Event("", ErrorOf(exn)));
    }
  }

  // ... except ... as e: log("run_error", ...)
  method Guarded(db: Db, state: State, mode: Mode, ghost text: string, ghost m: Mark)
    returns (outcome: string, ghost log: seq<Event>, ghost c: Course, ghost body: seq<Event>)
    requires ModeOk(mode) && Wrote(db, state, m, []) && state.stopReason == None
    modifies db, state
    ensures Wrote(db, state, m, log) && TurnOk(text, log) && PlanTold(PlanRun(c), text, log) && ClosedLog(log)
    ensures Went(mode, c, body, state.polite) && outcome == OutcomeOf(c)
    ensures log == body + if RaisedBy(c).Some? then [Event("", ErrorOf(RaisedBy(c).value))] else []
  {
    var exn;
    exn, outcome, body, c := Body(db, state, mode, text, m);
    log := body;
    if exn.Some? {
      outcome := "error";
      ErrorTold(PlanRun(c), text, log, exn.value);
      log := Write(db, state, "", "", ErrorOf(exn.value), m, log);
    } else {
      AddNothing(body);
    }
  }

  ghost predicate Accounted(text: string, log: seq<Event>, tokens: int) {
    var turn := PyTurn(NewTurn(text), log);
    && turn.tokens == tokens
    && tokens == LogTokens(log)
    && CardSum(turn.agents) + Tokens(Own(log, PARENT)) + Tokens(Own(log, "")) == tokens
  }

  ghost predicate ConsoleAgrees(text: string, log: seq<Event>) {
    PlainLog(log) ==> TsTurn(NewTurn(text), log) == PyTurn(NewTurn(text), log)
  }

  predicate PlainLog(log: seq<Event>) {
    forall e :: e in log ==> Plain(e.kind)
  }

  // The console shows the session as the server does, if it did so far.
  ghost predicate ViewsAgree(before: seq<Event>, after: seq<Event>, log: seq<Event>) {
    PlainLog(log) && TsTurns(before) == Turns(before) ==> TsTurns(after) == Turns(after)
  }

  lemma TurnInBothViews(before: seq<Event>, text: string, log: seq<Event>, after: seq<Event>)
    requires forall e :: e in log ==> !e.kind.UserMessage?
    requires ConsoleAgrees(text, log) && after == before + [Event("", UserMessage(text))] + log
    ensures Turns(after) == Turns(before) + [PyTurn(NewTurn(text), log)]
    ensures ViewsAgree(before, after, log)
  {
    TurnsAppendTurn(before, text, log);
    TsTurnsAppendTurn(before, text, log);
  }

  lemma Conclude(p: Option<PlanTrace>, text: string, log: seq<Event>, outcome: string, tokens: int, all: seq<Event>)
    requires TurnOk(text, log) && PlanTold(p, text, log) && ClosedLog(log) && tokens == LogTokens(log)
    requires all == log + [Event("", RunFinished(Some(outcome), tokens))]
    ensures Settled(PyTurn(NewTurn(text), all)) && Accounted(text, all, tokens) && ConsoleAgrees(text, all)
    ensures PlanTold(p, text, all)
  {
    var end := Event("", RunFinished(Some(outcome), tokens));
    CloseTurn(text, log, outcome, tokens);
    LogTokensSnoc(log, end);
    CardsHoldAllTokens(text, all);
    if PlainLog(all) {
      FoldsAgree(text, all);
    }
    if p.Some? {
      QuietTold(p.value, text, log, end);
    }
  }

  // ------------------------------------------------------------ what the user sees in the end

  // The last word of the log is what the turn shows: the reply, or the error.
  lemma LastWordIsShown(text: string, log: seq<Event>, end: Event)
    requires ClosedLog(log) && end.kind.RunFinished?
    ensures var last, turn := log[|log| - 1].kind, PyTurn(NewTurn(text), log + [end]);
      && turn.user == text && turn.outcome == end.kind.outcome
      && (last.AssistantMessage? ==> turn.reply == Some(ReplyView(last.text, last.source)))
      && (last.RunError? ==> turn.error == Some(ErrorView(last.error, last.hint, last.stopped)))
  {
    UserIsKept(text, log + [end]);
    PyTurnSnoc(NewTurn(text), log, end);
    var before, last := PyTurn(NewTurn(text), log[..|log| - 1]), log[|log| - 1];
    if last.kind.AssistantMessage? {
      ReplyCloses(PyCards(before, last), last.kind.text, last.kind.source);
    } else {
      ErrorCloses(PyCards(before, last), last.kind.stopped, last.kind.error, last.kind.hint);
    }
  }

  // An exception ends the turn as an error that says what was raised, with its
  // hint; anything that is not an error of the executor's own is a crash.
  lemma RaisedIsShown(text: string, body: seq<Event>, c: Course, tokens: int)
    requires RaisedBy(c).Some?
    ensures var exn, turn := RaisedBy(c).value, PyTurn(NewTurn(text), body + Closing(c, tokens));
      && turn.outcome == Some("error") && turn.error.Some?
      && turn.error.value.error == Some(exn.error)
      && turn.error.value.stopped == Some(if exn.OtherExn? then "crash" else "error")
      && turn.error.value.hint == (if exn.ModelExn? || exn.ParentExn? then exn.hint else "")
  {
    var e, end := Event("", ErrorOf(RaisedBy(c).value)), Event("", RunFinished(Some(OutcomeOf(c)), tokens));
    Assoc(body, [e], [end]);
    LastWordIsShown(text, body + [e], end);
  }

  // A turn, whatever its agents, its models, its tools and its operator do:
  // it adds one turn to the transcript, settled and accounted for, which the
  // console shows as the server does; a plan that was run to its end ran
  // exactly the agents it should, in order, each reported once.
  method TakeTurn(db: Db, mode: Mode, text: string, polite: bool)
    returns (outcome: string, tokens: int, ghost log: seq<Event>, ghost c: Course, ghost body: seq<Event>)
    requires ModeOk(mode)
    modifies db
    ensures db.events == old(db.events) + [Event("", UserMessage(text))] + log
    ensures Turns(db.events) == Turns(old(db.events)) + [PyTurn(NewTurn(text), log)]
    ensures Settled(PyTurn(NewTurn(text), log))
    ensures PyTurn(NewTurn(text), log).outcome == Some(outcome)
    ensures Accounted(text, log, tokens)
    ensures Billed(db.usage) == old(Billed(db.usage)) + tokens
    ensures ConsoleAgrees(text, log) && ViewsAgree(old(db.events), db.events, log)
    ensures PlanTold(PlanRun(c), text, log)
    ensures Went(mode, c, body, polite) && outcome == OutcomeOf(c) && log == body + Closing(c, tokens)
  {
    var state := new State(polite);
    db.Append("", UserMessage(text));
    ghost var m := MarkOf(db, state);
    AddNothing(m.events);
    outcome, log, c, body := Guarded(db, state, mode, text, m);
    tokens := state.tokens;
    ghost var closed := log;
    log := Write(db, state, "", "", RunFinished(Some(outcome), tokens), m, log);
    Conclude(PlanRun(c), text, closed, outcome, tokens, log);
    CloseTurn(text, closed, outcome, tokens);
    assert LogTokens(log) == tokens;
    TurnInBothViews(old(db.events), text, log, db.events);
    Assoc(body, if RaisedBy(c).Some? then [Event("", ErrorOf(RaisedBy(c).value))] else [],
          [Event("", RunFinished(Some(outcome), tokens))]);
  }

  // On a plan as parse_decision leaves it, "the plan's dependencies cannot be
  // resolved" is reported exactly when some agents wait for each other in a
  // cycle, unless the run was stopped first.
  lemma StuckOnlyOnCycles(p: PlanTrace, plans: seq<Plan>)
    requires Scheduled(p) && p.g == PlanGraph(plans) && WellFormed(Entries(plans))
    ensures p.end.StoppedEarly? || (p.end.Stuck? <==> HasCycle(p.g))
    ensures p.end.AllRan? ==> !HasCycle(p.g)
  {
    StuckIffCyclic(Entries(plans));
  }

  // A session: one settled turn after the other, and the same in both views.
  ghost predicate SessionTold(events: seq<Event>, texts: seq<string>, logs: seq<seq<Event>>) {
    && |logs| == |texts| == |Turns(events)|
    && (forall i :: 0 <= i < |texts| ==> Turns(events)[i] == PyTurn(NewTurn(texts[i]), logs[i]) && Settled(Turns(events)[i]))
    && ((forall i :: 0 <= i < |logs| ==> PlainLog(logs[i])) ==> TsTurns(events) == Turns(events))
  }

  lemma SessionSnoc(before: seq<Event>, texts: seq<string>, logs: seq<seq<Event>>, text: string, log: seq<Event>, after: seq<Event>)
    requires SessionTold(before, texts, logs)
    requires Turns(after) == Turns(before) + [PyTurn(NewTurn(text), log)] && Settled(PyTurn(NewTurn(text), log))
    requires ViewsAgree(before, after, log)
    ensures SessionTold(after, texts + [text], logs + [log])
  {
    var all := logs + [log];
    if forall i :: 0 <= i < |all| ==> PlainLog(all[i]) {
      assert forall i :: 0 <= i < |logs| ==> logs[i] == all[i];
      assert PlainLog(all[|logs|]);
    }
  }

  lemma NothingTold(events: seq<Event>)
    requires events == []
    ensures SessionTold(events, [], [])
  {
  }

  function Texts(asked: seq<(Mode, string)>): seq<string> {
    if asked == [] then [] else Texts(asked[..|asked| - 1]) + [asked[|asked| - 1].1]
  }

  method NextTurn(db: Db, mode: Mode, text: string, polite: bool, ghost texts: seq<string>, ghost logs: seq<seq<Event>>)
    returns (ghost log: seq<Event>)
    requires ModeOk(mode) && SessionTold(db.events, texts, logs)
    modifies db
    ensures SessionTold(db.events, texts + [text], logs + [log])
  {
    var outcome, tokens;
    ghost var c, body;
    ghost var before := db.events;
    outcome, tokens, log, c, body := TakeTurn(db, mode, text, polite);
    SessionSnoc(before, texts, logs, text, log, db.events);
  }

  // Every session from its start, whatever is asked of it.
  method Session(db: Db, asked: seq<(Mode, string)>, polite: bool) returns (ghost logs: seq<seq<Event>>)
    requires db.events == [] && forall i :: 0 <= i < |asked| ==> ModeOk(asked[i].0)
    modifies db
    ensures SessionTold(db.events, Texts(asked), logs)
  {
    logs := [];
    NothingTold(db.events);
    for n := 0 to |asked|
      invariant SessionTold(db.events, Texts(asked[..n]), logs)
    {
      assert asked[..n + 1][..n] == asked[..n];
      ghost var log := NextTurn(db, asked[n].0, asked[n].1, polite, Texts(asked[..n]), logs);
      logs := logs + [log];
    }
    assert asked[..|asked|] == asked;
  }
}
