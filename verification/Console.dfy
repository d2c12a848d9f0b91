// The console's own fold (console/src/lib/transcript.ts, foldTurns), and when
// it agrees with the server's.
module Console {
  import opened Basics
  import opened Events
  import opened Transcript

  // `x ?? ""` on an optional string.
  function OrEmpty(a: Option<string>): Option<string> {
    Some(if a.Some? then a.value else "")
  }

  function TsText(a: Arg): Rendering {
    match a
    case Null => Rendering("null", false)
    case Str(s) => Rendering(s, s != "")
    case List(_, _, js) => js
    case Other(_, js) => js
  }

  function TsTextOr(args: Args, key: string, default: string): string {
    if key in args && TsText(args[key]).truthy then TsText(args[key]).text else default
  }

  function TsCommand(args: Args): string {
    if "argv" !in args || args["argv"].Null? then ""
    else match args["argv"]
      case List(items, _, _) => Join(seq(|items|, i requires 0 <= i < |items| => TsText(items[i]).text))
      case other => TsText(other).text
  }

  function TsFileOf(tool: string, args: Args): Option<FileTouch> {
    if tool == "read_file" || tool == "write_file" || tool == "list_files" then
      var op := if tool == "read_file" then "read" else if tool == "write_file" then "write" else "list";
      Some(FileTouch(TsTextOr(args, "path", "."), op, None))
    else if tool == "search" then
      Some(FileTouch(TsTextOr(args, "root", "."), "search", Some(TsTextOr(args, "pattern", ""))))
    else if tool == "execute" then Some(FileTouch(Clip(TsCommand(args)), "run", None))
    else None
  }

  // Stored tool names are strings, so a result without a name matches no step.
  function TsResolve(steps: seq<Step>, tool: Option<string>, ok: bool): seq<Step> {
    if steps == [] then []
    else
      var front, last := steps[..|steps| - 1], steps[|steps| - 1];
      if last.ToolStep? && tool.Some? && last.tool == tool && last.ok.None? then front + [last.(ok := Some(ok))]
      else TsResolve(front, tool, ok) + [last]
  }

  function TsCard(c: Card, k: Kind): Card {
    match k
    case ToolCalled(step, tool, args) =>
      c.(steps := c.steps + [ToolStep(step, OrEmpty(tool), args, None)],
         files := AddFile(c.files, TsFileOf(OrEmpty(tool).value, args)))
    case ToolReturned(tool, ok) => c.(steps := TsResolve(c.steps, tool, ok))
    case ModelResult(tokens, _, _) => c.(tokens := c.tokens + tokens)
    case Guardrail(tool, action) => c.(steps := c.steps + [GuardStep(OrEmpty(tool), OrEmpty(action))])
    case Killed(why) => c.(status := KilledStatus, error := why)
    case AgentFinished(result, answer, error, total) =>
      c.(status := if result == "ok" then Done else if c.status != KilledStatus then Failed else c.status,
         answer := answer,
         error := Or(error, c.error),
         tokens := if total.Some? then total.value else c.tokens)
    case _ => c
  }

  function TsSpawnId(e: Event): string
    requires e.kind.AgentSpawned?
  {
    if e.kind.payloadId.Some? then e.kind.payloadId.value else e.agentId
  }

  function TsTouch(cards: seq<Card>, id: string, k: Kind): seq<Card> {
    var known := Ensure(cards, id);
    var i := Find(cards, id);
    known[i := TsCard(known[i], k)]
  }

  function TsCards(t: Turn, e: Event): Turn {
    if e.kind.ParentDecision? then
      t.(parent := Some(ParentView(OrEmpty(e.kind.decision), e.kind.reason, e.kind.reply, e.kind.plan)))
    else if e.kind.AgentSpawned? then
      t.(agents := SpawnIn(t.agents, TsSpawnId(e), e.kind.spec))
    else if OpensSingle(t, e.kind) then
      var c := NewCard(e.kind.bundle.value);
      t.(agents := [c.(bundle := e.kind.bundle, version := e.kind.version, tools := e.kind.tools)])
    else if e.agentId != "" && e.agentId != PARENT then
      t.(agents := TsTouch(t.agents, e.agentId, e.kind))
    else t
  }

  function TsEnding(t: Turn, k: Kind): Turn {
    match k
    case AssistantMessage(text, source) =>
      t.(reply := Some(ReplyView(text, source)),
         agents := seq(|t.agents|, i requires 0 <= i < |t.agents| => CloseDone(t.agents[i], text)))
    case RunError(stopped, error, hint) =>
      t.(error := Some(ErrorView(OrEmpty(error), hint, OrEmpty(stopped))),
         agents := seq(|t.agents|, i requires 0 <= i < |t.agents| => CloseFailed(t.agents[i], OrEmpty(error))))
    case RunFinished(outcome, tokens) => t.(outcome := OrEmpty(outcome), tokens := tokens)
    case _ => t
  }

  function TsStep(t: Turn, e: Event): Turn {
    TsEnding(TsCards(t, e), e.kind)
  }

  function TsTurn(t: Turn, log: seq<Event>): Turn {
    if log == [] then t else TsStep(TsTurn(t, log[..|log| - 1]), log[|log| - 1])
  }

  function TsTurns(log: seq<Event>): seq<Turn> {
    if log == [] then []
    else
      var before, e := TsTurns(log[..|log| - 1]), log[|log| - 1];
      if e.kind.UserMessage? then before + [NewTurn(e.kind.text)]
      else if before == [] then []
      else before[|before| - 1 := TsStep(before[|before| - 1], e)]
  }

  lemma TsTurnsSnoc(log: seq<Event>, e: Event)
    ensures TsTurns(log + [e]) ==
      if e.kind.UserMessage? then TsTurns(log) + [NewTurn(e.kind.text)]
      else if TsTurns(log) == [] then []
      else TsTurns(log)[|TsTurns(log)| - 1 := TsStep(TsTurns(log)[|TsTurns(log)| - 1], e)]
  {
    assert (log + [e])[..|log|] == log;
  }

  // A turn appended to a log adds one turn to the view and leaves the earlier
  // ones alone.
  lemma {:induction false} TsTurnsAppendTurn(before: seq<Event>, text: string, log: seq<Event>)
    requires forall e :: e in log ==> !e.kind.UserMessage?
    ensures TsTurns(before + [Event("", UserMessage(text))] + log) == TsTurns(before) + [TsTurn(NewTurn(text), log)]
  {
    var opened' := before + [Event("", UserMessage(text))];
    if log == [] {
      assert opened' + log == opened';
      TsTurnsSnoc(before, Event("", UserMessage(text)));
    } else {
      var front, last := log[..|log| - 1], log[|log| - 1];
      TsTurnsAppendTurn(before, text, front);
      assert last in log;
      assert opened' + log == (opened' + front) + [last];
      TsTurnsSnoc(opened' + front, last);
    }
  }

  // ------------------------------------------------------------ the loop itself

  lemma {:induction false} ResolvesLike(steps: seq<Step>, tool: Option<string>, ok: bool)
    ensures TsResolve(steps, tool, ok) == if tool.Some? then Resolve(steps, tool, ok) else steps
  {
    if steps != [] {
      ResolvesLike(steps[..|steps| - 1], tool, ok);
    }
  }

  method UpdateTsCard(c: Card, k: Kind) returns (r: Card)
    ensures r == TsCard(c, k)
  {
    r := TsCard(c, k);
    if k.ToolReturned? {
      ResolvesLike(c.steps, k.tool, k.ok);
      var steps := c.steps;
      if k.tool.Some? {
        steps := ResolveStep(c.steps, k.tool, k.ok);
      }
      r := c.(steps := steps);
    }
  }

  // agent(aid): the card in the dict, pushed when there is none yet.
  method TouchTsCard(index: map<string, nat>, before: seq<Card>, id: string, k: Kind)
    returns (agents: map<string, nat>, cards: seq<Card>)
    requires Indexed(index, before)
    ensures cards == TsTouch(before, id, k) && Indexed(agents, cards)
  {
    var known;
    agents, known := Lookup(index, before, id);
    var card := UpdateTsCard(known[agents[id]], k);
    TsCardKeepsId(known[agents[id]], k);
    cards := known[agents[id] := card];
    KeepsIndex(agents, known, cards);
  }

  lemma TsCardKeepsId(c: Card, k: Kind)
    ensures TsCard(c, k).id == c.id
  {
  }

  method FoldTsCards(cur: Turn, index: map<string, nat>, e: Event) returns (t: Turn, agents: map<string, nat>)
    requires Indexed(index, cur.agents)
    ensures t == TsCards(cur, e) && Indexed(agents, t.agents)
  {
    t, agents := cur, index;
    var k := e.kind;
    if k.ParentDecision? {
      t := t.(parent := Some(ParentView(OrEmpty(k.decision), k.reason, k.reply, k.plan)));
    } else if k.AgentSpawned? {
      var cards;
      agents, cards := SpawnCard(agents, t.agents, TsSpawnId(e), k.spec);
      t := t.(agents := cards);
    } else if OpensSingle(t, k) {
      var cards;
      agents, cards := Lookup(agents, t.agents, k.bundle.value);
      t := t.(agents := [cards[0].(bundle := k.bundle, version := k.version, tools := k.tools)]);
      KeepsIndex(agents, cards, t.agents);
    } else if e.agentId != "" && e.agentId != PARENT {
      var cards;
      agents, cards := TouchTsCard(agents, t.agents, e.agentId, k);
      t := t.(agents := cards);
    }
  }

  method FoldTsEvent(cur: Turn, index: map<string, nat>, e: Event) returns (t: Turn, agents: map<string, nat>)
    requires Indexed(index, cur.agents)
    ensures t == TsStep(cur, e) && Indexed(agents, t.agents)
  {
    t, agents := FoldTsCards(cur, index, e);
    var k := e.kind;
    if k.AssistantMessage? {
      var cards := CloseCards(t.agents, k);
      KeepsIndex(agents, t.agents, cards);
      t := t.(reply := Some(ReplyView(k.text, k.source)), agents := cards);
    } else if k.RunError? {
      var cards := CloseCards(t.agents, RunError(k.stopped, OrEmpty(k.error), k.hint));
      KeepsIndex(agents, t.agents, cards);
      t := t.(error := Some(ErrorView(OrEmpty(k.error), k.hint, OrEmpty(k.stopped))), agents := cards);
    } else if k.RunFinished? {
      t := t.(outcome := OrEmpty(k.outcome), tokens := k.tokens);
    }
  }

  // foldTurns: the current turn is the last one, and is updated in place.
  method FoldTurns(log: seq<Event>) returns (turns: seq<Turn>)
    ensures turns == TsTurns(log)
  {
    turns := [];
    var agents: map<string, nat> := map[];
    for i := 0 to |log|
      invariant turns == TsTurns(log[..i])
      invariant turns != [] ==> Indexed(agents, turns[|turns| - 1].agents)
    {
      var e := log[i];
      assert log[..i + 1][..i] == log[..i];
      if e.kind.UserMessage? {
        turns := turns + [NewTurn(e.kind.text)];
        agents := map[];
      } else if turns != [] {
        var cur;
        cur, agents := FoldTsEvent(turns[|turns| - 1], agents, e);
        turns := turns[|turns| - 1 := cur];
      }
    }
    assert log[..|log|] == log;
  }

  // ------------------------------------------------------------ agreement

  predicate PlainArgs(args: Args) {
    forall key :: key in args ==>
      || args[key].Null? || args[key].Str?
      || (key == "argv" && args[key].List? && forall i :: 0 <= i < |args[key].items| ==> args[key].items[i].Str?)
  }

  // Every field the folds read is there.
  predicate Filled(k: Kind) {
    match k
    case ParentDecision(decision, _, _, _) => decision.Some?
    case AgentSpawned(payloadId, _) => payloadId != Some("")
    case ToolCalled(_, tool, _) => tool.Some?
    case ToolReturned(tool, _) => tool.Some?
    case Guardrail(tool, action) => tool.Some? && action.Some?
    case RunError(stopped, error, _) => stopped.Some? && error.Some?
    case RunFinished(outcome, _) => outcome.Some?
    case _ => true
  }

  predicate Plain(k: Kind) {
    k.ToolCalled? ==> PlainArgs(k.args)
  }

  predicate Complete(k: Kind) {
    Filled(k) && Plain(k)
  }

  lemma SameText(args: Args, key: string, default: string)
    requires PlainArgs(args) && key != "argv"
    ensures TsTextOr(args, key, default) == TextOr(args, key, default)
  {
  }

  lemma SameCommand(args: Args)
    requires PlainArgs(args)
    ensures TsCommand(args) == PyCommand(args)
  {
    if "argv" in args && args["argv"].List? {
      var items := args["argv"].items;
      assert seq(|items|, i requires 0 <= i < |items| => TsText(items[i]).text)
          == seq(|items|, i requires 0 <= i < |items| => PyText(items[i]).text);
    }
  }

  lemma SameFile(tool: string, args: Args)
    requires PlainArgs(args)
    ensures TsFileOf(tool, args) == FileOf(tool, args)
  {
    SameText(args, "path", ".");
    SameText(args, "root", ".");
    SameText(args, "pattern", "");
    SameCommand(args);
  }

  // A reported total of zero is the one thing a card reads differently.
  predicate ZeroesTotal(c: Card, k: Kind) {
    k.AgentFinished? && k.total == Some(0) && c.tokens != 0
  }

  // A field the log lacks is shown as empty by the console and as missing by
  // the server; nothing else tells the two endings of a turn apart.
  lemma MissingIsEmpty(t: Turn, stopped: Option<string>, error: Option<string>, hint: string)
    ensures var py, ts := PyEnding(t, RunError(stopped, error, hint)), TsEnding(t, RunError(stopped, error, hint));
      && py.error == Some(ErrorView(error, hint, stopped))
      && ts.error.Some? && ts.error.value.hint == hint
      && ts.error.value.error == (if error.Some? then error else Some(""))
      && ts.error.value.stopped == (if stopped.Some? then stopped else Some(""))
      && (error.Some? && stopped.Some? ==> ts == py)
  {
    if error.Some? && stopped.Some? {
      assert TsEnding(t, RunError(stopped, error, hint)).agents == PyEnding(t, RunError(stopped, error, hint)).agents;
    }
  }

  lemma SameCard(c: Card, k: Kind)
    requires Complete(k)
    ensures TsCard(c, k) == PyCard(c, k) <==> !ZeroesTotal(c, k)
  {
    match k
    case ToolCalled(_, tool, args) => SameFile(tool.value, args);
    case ToolReturned(tool, ok) => ResolvesLike(c.steps, tool, ok);
    case _ =>
  }

  // The card an agent's own event lands on.
  function CardOf(t: Turn, id: string): Card {
    Ensure(t.agents, id)[Find(t.agents, id)]
  }

  lemma SameEnding(t: Turn, k: Kind)
    requires Complete(k)
    ensures TsEnding(t, k) == PyEnding(t, k)
  {
    if k.RunError? {
      assert OrEmpty(k.error) == k.error;
      assert seq(|t.agents|, i requires 0 <= i < |t.agents| => CloseFailed(t.agents[i], OrEmpty(k.error)))
          == seq(|t.agents|, i requires 0 <= i < |t.agents| => CloseFailed(t.agents[i], k.error));
    } else if k.AssistantMessage? {
      assert TsEnding(t, k).agents == PyEnding(t, k).agents;
    }
  }

  // On a complete event the two folds take the same step, except exactly when
  // an agent that used tokens reports a total of zero.
  lemma StepsAgreeIff(t: Turn, e: Event)
    requires Complete(e.kind)
    ensures TsStep(t, e) == PyStep(t, e) <==>
      !(e.agentId != "" && e.agentId != PARENT && ZeroesTotal(CardOf(t, e.agentId), e.kind))
  {
    SameEnding(TsCards(t, e), e.kind);
    if e.agentId != "" && e.agentId != PARENT {
      var known := Ensure(t.agents, e.agentId);
      var i := Find(t.agents, e.agentId);
      SameCard(known[i], e.kind);
      assert PyTouch(t.agents, e.agentId, e.kind)[i] == PyCard(known[i], e.kind);
      assert TsTouch(t.agents, e.agentId, e.kind)[i] == TsCard(known[i], e.kind);
    }
  }
}
