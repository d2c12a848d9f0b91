// Events folded into turns (plnt/tenancy/transcript.py).
module Transcript {
  import opened Basics
  import opened Events

  datatype Status = Running | Done | Failed | KilledStatus

  datatype Step =
    | ToolStep(step: nat, tool: Option<string>, args: Args, ok: Option<bool>)
    | GuardStep(tool: Option<string>, action: Option<string>)

  datatype FileTouch = FileTouch(path: string, op: string, detail: Option<string>)

  datatype Card = Card(
    id: string, role: string, bundle: Option<string>, version: Option<string>, intent: string,
    dependsOn: seq<string>, tools: seq<string>, status: Status, steps: seq<Step>,
    files: seq<FileTouch>, tokens: int, answer: Option<string>, error: Option<string>)

  datatype ParentView = ParentView(kind: Option<string>, reason: string, reply: string, plan: seq<PlanEntry>)
  datatype ReplyView = ReplyView(text: string, source: string)
  datatype ErrorView = ErrorView(error: Option<string>, hint: string, stopped: Option<string>)

  datatype Turn = Turn(
    user: string, parent: Option<ParentView>, agents: seq<Card>, reply: Option<ReplyView>,
    outcome: Option<string>, tokens: int, error: Option<ErrorView>)

  // ------------------------------------------------------------ small pieces

  // Python's `a or b` on an optional string: an empty string counts as missing.
  function Or(a: Option<string>, b: Option<string>): Option<string> {
    if a.Some? && a.value != "" then a else b
  }

  function PyText(a: Arg): Rendering {
    match a
    case Null => Rendering("None", false)
    case Str(s) => Rendering(s, s != "")
    case List(_, py, _) => py
    case Other(py, _) => py
  }

  function TextOr(args: Args, key: string, default: string): string {
    if key in args && PyText(args[key]).truthy then PyText(args[key]).text else default
  }

  function Join(items: seq<string>): string {
    if items == [] then ""
    else if |items| == 1 then items[0]
    else Join(items[..|items| - 1]) + " " + items[|items| - 1]
  }

  function Clip(s: string): string {
    if |s| <= 120 then s else s[..120]
  }

  function PyCommand(args: Args): string {
    if "argv" !in args then ""
    else match args["argv"]
      case List(items, _, _) => Join(seq(|items|, i requires 0 <= i < |items| => PyText(items[i]).text))
      case other => if PyText(other).truthy then PyText(other).text else ""
  }

  function FileOf(tool: string, args: Args): Option<FileTouch> {
    if tool == "read_file" then Some(FileTouch(TextOr(args, "path", "."), "read", None))
    else if tool == "write_file" then Some(FileTouch(TextOr(args, "path", "."), "write", None))
    else if tool == "list_files" then Some(FileTouch(TextOr(args, "path", "."), "list", None))
    else if tool == "search" then
      Some(FileTouch(TextOr(args, "root", "."), "search", Some(TextOr(args, "pattern", ""))))
    else if tool == "execute" then Some(FileTouch(Clip(PyCommand(args)), "run", None))
    else None
  }

  function AddFile(files: seq<FileTouch>, f: Option<FileTouch>): seq<FileTouch> {
    if f.Some? && f.value !in files then files + [f.value] else files
  }

  // The last call of `tool` still waiting for its result gets it.
  function Resolve(steps: seq<Step>, tool: Option<string>, ok: bool): seq<Step> {
    if steps == [] then []
    else
      var front, last := steps[..|steps| - 1], steps[|steps| - 1];
      if last.ToolStep? && last.tool == tool && last.ok.None? then front + [last.(ok := Some(ok))]
      else Resolve(front, tool, ok) + [last]
  }

  // ------------------------------------------------------------ cards

  function NewCard(id: string): Card {
    Card(id, id, None, None, "", [], [], Running, [], [], 0, None, None)
  }

  function Find(cards: seq<Card>, id: string): (i: nat)
    ensures i <= |cards|
    ensures i < |cards| ==> cards[i].id == id
    ensures forall j :: 0 <= j < i ==> cards[j].id != id
  {
    if cards == [] then 0
    else if cards[0].id == id then 0
    else 1 + Find(cards[1..], id)
  }

  // The card for `id`, added at the end when there is none yet.
  function Ensure(cards: seq<Card>, id: string): (r: seq<Card>)
    ensures Find(cards, id) < |r|
  {
    if Find(cards, id) < |cards| then cards else cards + [NewCard(id)]
  }

  function Spawn(c: Card, s: SpecInfo): Card {
    c.(role := s.role, bundle := s.bundle, version := s.version, intent := s.intent,
       dependsOn := s.dependsOn, tools := s.tools, status := Running)
  }

  // What one of its own events does to a card.
  function PyCard(c: Card, k: Kind): Card {
    match k
    case ToolCalled(step, tool, args) =>
      c.(steps := c.steps + [ToolStep(step, tool, args, None)],
         files := AddFile(c.files, FileOf(if tool.Some? then tool.value else "", args)))
    case ToolReturned(tool, ok) => c.(steps := Resolve(c.steps, tool, ok))
    case ModelResult(tokens, _, _) => c.(tokens := c.tokens + tokens)
    case Guardrail(tool, action) => c.(steps := c.steps + [GuardStep(tool, action)])
    case Killed(why) => c.(status := KilledStatus, error := why)
    case AgentFinished(result, answer, error, total) =>
      c.(status := if result == "ok" then Done else if c.status != KilledStatus then Failed else c.status,
         answer := answer,
         error := Or(error, c.error),
         tokens := if total.Some? && total.value != 0 then total.value else c.tokens)
    case _ => c
  }

  // The reply closes agents that logged no agent_finished.
  function CloseDone(c: Card, text: string): Card {
    if c.status == Running then c.(status := Done, answer := Or(c.answer, Some(text))) else c
  }

  function CloseFailed(c: Card, error: Option<string>): Card {
    if c.status == Running then c.(status := Failed, error := Or(c.error, error)) else c
  }

  // ------------------------------------------------------------ one event

  function SpawnId(e: Event): string
    requires e.kind.AgentSpawned?
  {
    if e.kind.payloadId.Some? && e.kind.payloadId.value != "" then e.kind.payloadId.value else e.agentId
  }

  function OpensSingle(t: Turn, k: Kind): bool {
    k.RunStarted? && t.agents == [] && k.bundle.Some? && k.bundle.value != ""
  }

  function SpawnIn(cards: seq<Card>, id: string, spec: SpecInfo): seq<Card> {
    var known := Ensure(cards, id);
    var i := Find(cards, id);
    known[i := Spawn(known[i], spec)]
  }

  function PyTouch(cards: seq<Card>, id: string, k: Kind): seq<Card> {
    var known := Ensure(cards, id);
    var i := Find(cards, id);
    known[i := PyCard(known[i], k)]
  }

  // The first if-chain: the cards and the parent's decision.
  function PyCards(t: Turn, e: Event): Turn {
    if e.kind.ParentDecision? then
      t.(parent := Some(ParentView(e.kind.decision, e.kind.reason, e.kind.reply, e.kind.plan)))
    else if e.kind.AgentSpawned? then
      t.(agents := SpawnIn(t.agents, SpawnId(e), e.kind.spec))
    else if OpensSingle(t, e.kind) then
      var c := NewCard(e.kind.bundle.value);
      t.(agents := [c.(bundle := e.kind.bundle, version := e.kind.version, tools := e.kind.tools)])
    else if e.agentId != "" && e.agentId != PARENT then
      t.(agents := PyTouch(t.agents, e.agentId, e.kind))
    else t
  }

  // The second if-chain: what ends a turn.
  function PyEnding(t: Turn, k: Kind): Turn {
    match k
    case AssistantMessage(text, source) =>
      t.(reply := Some(ReplyView(text, source)),
         agents := seq(|t.agents|, i requires 0 <= i < |t.agents| => CloseDone(t.agents[i], text)))
    case RunError(stopped, error, hint) =>
      t.(error := Some(ErrorView(error, hint, stopped)),
         agents := seq(|t.agents|, i requires 0 <= i < |t.agents| => CloseFailed(t.agents[i], error)))
    case RunFinished(outcome, tokens) => t.(outcome := outcome, tokens := tokens)
    case _ => t
  }

  function PyStep(t: Turn, e: Event): Turn {
    PyEnding(PyCards(t, e), e.kind)
  }

  function NewTurn(text: string): Turn {
    Turn(text, None, [], None, None, 0, None)
  }

  // The events of one turn, after its user_message.
  function PyTurn(t: Turn, log: seq<Event>): Turn {
    if log == [] then t else PyStep(PyTurn(t, log[..|log| - 1]), log[|log| - 1])
  }

  // ------------------------------------------------------------ the whole log

  function Turns(log: seq<Event>): seq<Turn> {
    if log == [] then []
    else
      var before, e := Turns(log[..|log| - 1]), log[|log| - 1];
      if e.kind.UserMessage? then before + [NewTurn(e.kind.text)]
      else if before == [] then []
      else before[|before| - 1 := PyStep(before[|before| - 1], e)]
  }

  // ------------------------------------------------------------ the loop itself

  lemma ResolveSnoc(front: seq<Step>, last: Step, tool: Option<string>, ok: bool)
    ensures Resolve(front + [last], tool, ok) ==
      if last.ToolStep? && last.tool == tool && last.ok.None? then front + [last.(ok := Some(ok))]
      else Resolve(front, tool, ok) + [last]
  {
    assert (front + [last])[..|front|] == front;
  }

  predicate Awaits(s: Step, tool: Option<string>) {
    s.ToolStep? && s.tool == tool && s.ok.None?
  }

  lemma ResolveHere(steps: seq<Step>, i: nat, tool: Option<string>, ok: bool)
    requires i < |steps| && Resolve(steps, tool, ok) == Resolve(steps[..i + 1], tool, ok) + steps[i + 1..]
    requires Awaits(steps[i], tool)
    ensures Resolve(steps, tool, ok) == steps[i := steps[i].(ok := Some(ok))]
  {
    assert steps[..i + 1] == steps[..i] + [steps[i]];
    ResolveSnoc(steps[..i], steps[i], tool, ok);
  }

  lemma ResolveEarlier(steps: seq<Step>, i: nat, tool: Option<string>, ok: bool)
    requires i < |steps| && Resolve(steps, tool, ok) == Resolve(steps[..i + 1], tool, ok) + steps[i + 1..]
    requires !Awaits(steps[i], tool)
    ensures Resolve(steps, tool, ok) == Resolve(steps[..i], tool, ok) + steps[i..]
  {
    assert steps[..i + 1] == steps[..i] + [steps[i]];
    ResolveSnoc(steps[..i], steps[i], tool, ok);
    Assoc(Resolve(steps[..i], tool, ok), [steps[i]], steps[i + 1..]);
  }

  method ResolveStep(steps: seq<Step>, tool: Option<string>, ok: bool) returns (r: seq<Step>)
    ensures r == Resolve(steps, tool, ok)
  {
    assert steps[..|steps|] == steps;
    for i := |steps| downto 0
      invariant Resolve(steps, tool, ok) == Resolve(steps[..i], tool, ok) + steps[i..]
    {
      if Awaits(steps[i], tool) {
        ResolveHere(steps, i, tool, ok);
        return steps[i := steps[i].(ok := Some(ok))];
      }
      ResolveEarlier(steps, i, tool, ok);
    }
    return steps;
  }

  // `agents` is the dict of the source: from an id to its card's place.
  ghost predicate Indexed(agents: map<string, nat>, cards: seq<Card>) {
    && (forall id :: id in agents ==> agents[id] < |cards| && agents[id] == Find(cards, id))
    && (forall id :: Find(cards, id) < |cards| ==> id in agents)
  }

  lemma {:induction false} FindSnoc(cards: seq<Card>, c: Card, id: string)
    ensures Find(cards + [c], id) ==
      if Find(cards, id) < |cards| then Find(cards, id) else if c.id == id then |cards| else |cards| + 1
  {
    if cards != [] {
      assert (cards + [c])[1..] == cards[1..] + [c];
      FindSnoc(cards[1..], c, id);
    }
  }

  lemma {:induction false} FindSame(a: seq<Card>, b: seq<Card>, id: string)
    requires |a| == |b| && forall i :: 0 <= i < |a| ==> a[i].id == b[i].id
    ensures Find(a, id) == Find(b, id)
  {
    if a != [] {
      FindSame(a[1..], b[1..], id);
    }
  }

  method Lookup(agents: map<string, nat>, cards: seq<Card>, id: string)
    returns (agents': map<string, nat>, cards': seq<Card>)
    requires Indexed(agents, cards)
    ensures Indexed(agents', cards') && id in agents'
    ensures cards' == Ensure(cards, id) && agents'[id] == Find(cards, id)
  {
    agents', cards' := agents, cards;
    if id !in agents {
      forall x ensures Find(cards + [NewCard(id)], x) ==
        if Find(cards, x) < |cards| then Find(cards, x) else if id == x then |cards| else |cards| + 1
      {
        FindSnoc(cards, NewCard(id), x);
      }
      agents' := agents[id := |cards|];
      cards' := cards + [NewCard(id)];
    }
  }

  lemma KeepsIndex(agents: map<string, nat>, a: seq<Card>, b: seq<Card>)
    requires Indexed(agents, a)
    requires |a| == |b| && forall i :: 0 <= i < |a| ==> a[i].id == b[i].id
    ensures Indexed(agents, b)
  {
    forall id
      ensures Find(a, id) == Find(b, id)
    {
      FindSame(a, b, id);
    }
  }

  method UpdateCard(c: Card, k: Kind) returns (r: Card)
    ensures r == PyCard(c, k)
  {
    if k.ToolReturned? {
      var steps := ResolveStep(c.steps, k.tool, k.ok);
      r := c.(steps := steps);
    } else {
      r := PyCard(c, k);
    }
  }

  method CloseCards(cards: seq<Card>, k: Kind) returns (r: seq<Card>)
    requires k.AssistantMessage? || k.RunError?
    ensures |r| == |cards|
    ensures forall i :: 0 <= i < |r| ==>
      r[i] == if k.AssistantMessage? then CloseDone(cards[i], k.text) else CloseFailed(cards[i], k.error)
  {
    r := cards;
    for i := 0 to |cards|
      invariant |r| == |cards|
      invariant forall j :: i <= j < |r| ==> r[j] == cards[j]
      invariant forall j :: 0 <= j < i ==>
        r[j] == if k.AssistantMessage? then CloseDone(cards[j], k.text) else CloseFailed(cards[j], k.error)
    {
      if r[i].status == Running {
        r := r[i := if k.AssistantMessage? then CloseDone(r[i], k.text) else CloseFailed(r[i], k.error)];
      }
    }
  }

  method SpawnCard(index: map<string, nat>, before: seq<Card>, id: string, spec: SpecInfo)
    returns (agents: map<string, nat>, cards: seq<Card>)
    requires Indexed(index, before)
    ensures cards == SpawnIn(before, id, spec) && Indexed(agents, cards)
  {
    var known;
    agents, known := Lookup(index, before, id);
    cards := known[agents[id] := Spawn(known[agents[id]], spec)];
    KeepsIndex(agents, known, cards);
  }

  lemma PyCardKeepsId(c: Card, k: Kind)
    ensures PyCard(c, k).id == c.id
  {
  }

  method TouchCard(index: map<string, nat>, before: seq<Card>, id: string, k: Kind)
    returns (agents: map<string, nat>, cards: seq<Card>)
    requires Indexed(index, before)
    ensures cards == PyTouch(before, id, k) && Indexed(agents, cards)
  {
    var known;
    agents, known := Lookup(index, before, id);
    var card := UpdateCard(known[agents[id]], k);
    PyCardKeepsId(known[agents[id]], k);
    cards := known[agents[id] := card];
    KeepsIndex(agents, known, cards);
  }

  method FoldCards(cur: Turn, index: map<string, nat>, e: Event) returns (t: Turn, agents: map<string, nat>)
    requires Indexed(index, cur.agents)
    ensures t == PyCards(cur, e) && Indexed(agents, t.agents)
  {
    t, agents := cur, index;
    var k := e.kind;
    if k.ParentDecision? {
      t := t.(parent := Some(ParentView(k.decision, k.reason, k.reply, k.plan)));
    } else if k.AgentSpawned? {
      var cards;
      agents, cards := SpawnCard(agents, t.agents, SpawnId(e), k.spec);
      t := t.(agents := cards);
    } else if OpensSingle(t, k) {
      var cards;
      agents, cards := Lookup(agents, t.agents, k.bundle.value);
      t := t.(agents := [cards[0].(bundle := k.bundle, version := k.version, tools := k.tools)]);
      KeepsIndex(agents, cards, t.agents);
    } else if e.agentId != "" && e.agentId != PARENT {
      var cards;
      agents, cards := TouchCard(agents, t.agents, e.agentId, k);
      t := t.(agents := cards);
    }
  }

  method FoldEvent(cur: Turn, index: map<string, nat>, e: Event) returns (t: Turn, agents: map<string, nat>)
    requires Indexed(index, cur.agents)
    ensures t == PyStep(cur, e) && Indexed(agents, t.agents)
  {
    t, agents := FoldCards(cur, index, e);
    var k := e.kind;
    if k.AssistantMessage? {
      var cards := CloseCards(t.agents, k);
      KeepsIndex(agents, t.agents, cards);
      t := t.(reply := Some(ReplyView(k.text, k.source)), agents := cards);
    } else if k.RunError? {
      var cards := CloseCards(t.agents, k);
      KeepsIndex(agents, t.agents, cards);
      t := t.(error := Some(ErrorView(k.error, k.hint, k.stopped)), agents := cards);
    } else if k.RunFinished? {
      t := t.(outcome := k.outcome, tokens := k.tokens);
    }
  }

  method BuildTranscript(log: seq<Event>) returns (turns: seq<Turn>)
    ensures turns == Turns(log)
  {
    turns := [];
    var agents: map<string, nat> := map[];
    for i := 0 to |log|
      invariant turns == Turns(log[..i])
      invariant turns != [] ==> Indexed(agents, turns[|turns| - 1].agents)
    {
      var e := log[i];
      assert log[..i + 1][..i] == log[..i];
      if e.kind.UserMessage? {
        turns := turns + [NewTurn(e.kind.text)];
        agents := map[];
      } else if turns != [] {
        var cur;
        cur, agents := FoldEvent(turns[|turns| - 1], agents, e);
        turns := turns[|turns| - 1 := cur];
      }
    }
    assert log[..|log|] == log;
  }
}
