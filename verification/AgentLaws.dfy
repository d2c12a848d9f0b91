// What every step of the agent loop keeps, whatever the model, the tools and
// the other agents do: budget and loop containment, the tool-calling
// protocol, and the require_tool guardrail.
module AgentLaws {
  import opened Basics
  import opened Events
  import opened AgentLoop

  // ------------------------------------------------------------ containment

  function SigsOf(kinds: seq<Kind>): seq<Sig> {
    if kinds == [] then []
    else
      var k := kinds[|kinds| - 1];
      SigsOf(kinds[..|kinds| - 1]) +
      if k.ToolCalled? then [Sig(if k.tool.Some? then k.tool.value else "", k.args)] else []
  }

  // The tokens of all model calls but the last.
  function TokensBeforeLast(kinds: seq<Kind>): int {
    if kinds == [] then 0
    else if kinds[|kinds| - 1].ModelResult? then Tokens(kinds[..|kinds| - 1])
    else TokensBeforeLast(kinds[..|kinds| - 1])
  }

  // The run stayed within its budget up to the last call, and no identical
  // tool call was made more often than the loop detector allows.
  ghost predicate Contained(s: Spec, kinds: seq<Kind>) {
    && TokensBeforeLast(kinds) <= s.budget
    && forall x :: Count(SigsOf(kinds), x) <= 3
  }

  ghost predicate Governed(s: Spec, a: Agent, stop: Option<string>) {
    && (a.spent > s.budget ==> Halted(stop))
    && (a.phase.Calling? ==> a.spent <= s.budget)
    && forall x :: Count(a.sigs, x) >= LOOP_THRESHOLD ==> Halted(stop)
  }

  ghost predicate BudgetInv(s: Spec, a: Agent, kinds: seq<Kind>, stop: Option<string>) {
    a.spent == Tokens(kinds) && a.sigs == SigsOf(kinds) && Contained(s, kinds) && Governed(s, a, stop)
  }

  lemma CountSnoc(sigs: seq<Sig>, y: Sig)
    ensures forall x :: Count(sigs + [y], x) == Count(sigs, x) + if x == y then 1 else 0
  {
    assert (sigs + [y])[..|sigs|] == sigs;
  }

  lemma KindsSnoc(kinds: seq<Kind>, k: Kind)
    ensures Tokens(kinds + [k]) == Tokens(kinds) + TokensOf(k)
    ensures SigsOf(kinds + [k]) ==
      SigsOf(kinds) + if k.ToolCalled? then [Sig(if k.tool.Some? then k.tool.value else "", k.args)] else []
    ensures TokensBeforeLast(kinds + [k]) == if k.ModelResult? then Tokens(kinds) else TokensBeforeLast(kinds)
  {
    assert (kinds + [k])[..|kinds|] == kinds;
  }

  // A stop reason, once there, stays; only an empty kill reason could lift it.
  lemma StopStays(s: Spec, a: Agent, stop: Option<string>)
    requires stop != Some("")
    ensures Next(s, a, stop).stop != Some("")
    ensures Halted(stop) ==> Halted(Next(s, a, stop).stop)
  {
  }

  lemma GovernedLater(s: Spec, a: Agent, stop: Option<string>, later: Option<string>)
    requires Governed(s, a, stop) && (Halted(stop) ==> Halted(later))
    ensures Governed(s, a, later)
  {
  }

  lemma BudgetCalling(s: Spec, a: Agent, kinds: seq<Kind>, stop: Option<string>)
    requires BudgetInv(s, a, kinds, stop) && stop != Some("") && a.phase.Calling?
    ensures var t := NextCalling(s, a, stop); BudgetInv(s, t.a, kinds + t.out, t.stop)
  {
    var t := NextCalling(s, a, stop);
    if t.out != [] && t.out[0].ModelResult? {
      BudgetAnswer(s, a, t.a, kinds, t.out[0], stop, t.stop);
    } else {
      BudgetQuiet(s, a, t.a, kinds, t.out, stop);
    }
  }

  // An answer is paid for after the call was made within the budget.
  lemma BudgetAnswer(s: Spec, a: Agent, b: Agent, kinds: seq<Kind>, k: Kind, stop: Option<string>, later: Option<string>)
    requires BudgetInv(s, a, kinds, stop) && stop != Some("") && a.phase.Calling? && k.ModelResult?
    requires b.spent == a.spent + k.tokens && b.sigs == a.sigs && !b.phase.Calling? && later == AfterBudget(s, b.spent, stop)
    ensures BudgetInv(s, b, kinds + [k], later)
  {
    KindsSnoc(kinds, k);
    AddNothing(SigsOf(kinds));
  }

  // Before the stop reason was set no call had been made too often, and the
  // call that makes one too often sets it.
  lemma CountedCall(sigs: seq<Sig>, x: Sig, stop: Option<string>, later: Option<string>)
    requires (forall y :: Count(sigs, y) >= LOOP_THRESHOLD ==> Halted(stop)) && !Halted(stop) && stop != Some("")
    requires later == AfterLoopCheck(sigs + [x], x, stop)
    ensures forall y :: Count(sigs + [x], y) <= LOOP_THRESHOLD
    ensures forall y :: Count(sigs + [x], y) >= LOOP_THRESHOLD ==> Halted(later)
  {
    CountSnoc(sigs, x);
  }

  lemma BudgetToolCall(s: Spec, a: Agent, b: Agent, kinds: seq<Kind>, k: Kind, x: Sig, stop: Option<string>, later: Option<string>)
    requires BudgetInv(s, a, kinds, stop) && !Halted(stop) && stop != Some("")
    requires k.ToolCalled? && k.tool == Some(x.tool) && k.args == x.args
    requires b.spent == a.spent && b.sigs == a.sigs + [x] && b.phase.Running?
    requires later == AfterLoopCheck(b.sigs, x, stop)
    ensures BudgetInv(s, b, kinds + [k], later)
  {
    KindsSnoc(kinds, k);
    CountedCall(a.sigs, x, stop, later);
  }

  lemma BudgetTools(s: Spec, a: Agent, kinds: seq<Kind>, stop: Option<string>)
    requires BudgetInv(s, a, kinds, stop) && stop != Some("") && a.phase.Tools?
    ensures var t := NextTools(s, a, a.phase.queue, stop); BudgetInv(s, t.a, kinds + t.out, t.stop)
  {
    var t := NextTools(s, a, a.phase.queue, stop);
    if t.out != [] && t.out[0].ToolCalled? {
      var call := a.phase.queue[0];
      BudgetToolCall(s, a, t.a, kinds, t.out[0], Sig(call.name, call.args), stop, t.stop);
    } else {
      BudgetQuiet(s, a, t.a, kinds, t.out, stop);
    }
  }

  lemma BudgetQuiet(s: Spec, a: Agent, b: Agent, kinds: seq<Kind>, out: seq<Kind>, stop: Option<string>)
    requires BudgetInv(s, a, kinds, stop)
    requires b.spent == a.spent && b.sigs == a.sigs && (b.phase.Calling? ==> !Halted(stop))
    requires out == [] || (|out| == 1 && !out[0].ModelResult? && !out[0].ToolCalled?)
    ensures BudgetInv(s, b, kinds + out, stop)
  {
    if out == [] {
      assert kinds + out == kinds;
    } else {
      KindsSnoc(kinds, out[0]);
      assert kinds + out == kinds + [out[0]];
      assert SigsOf(kinds) + [] == SigsOf(kinds);
    }
  }

  // A step that neither uses tokens nor calls a tool.
  ghost predicate IdleStep(a: Agent, t: Tick, stop: Option<string>) {
    && t.a.spent == a.spent && t.a.sigs == a.sigs && t.stop == stop
    && (t.a.phase.Calling? ==> !Halted(stop))
    && (t.out == [] || (|t.out| == 1 && !t.out[0].ModelResult? && !t.out[0].ToolCalled?))
  }

  lemma QuietTop(s: Spec, a: Agent, stop: Option<string>)
    ensures IdleStep(a, NextTop(s, a, stop), stop)
  {
  }

  lemma QuietGot(s: Spec, a: Agent, out: ChatResult, stop: Option<string>)
    ensures IdleStep(a, NextGot(s, a, out, stop), stop)
  {
  }

  lemma QuietRunning(s: Spec, a: Agent, call: ToolCall, rest: seq<ToolCall>, stop: Option<string>)
    ensures IdleStep(a, NextRunning(s, a, call, rest, stop), stop)
  {
  }

  lemma QuietStep(s: Spec, a: Agent, stop: Option<string>)
    requires !a.phase.Calling? && !a.phase.Tools?
    ensures IdleStep(a, Next(s, a, stop), stop)
  {
    match a.phase {
      case Top => QuietTop(s, a, stop);
      case Got(out) => QuietGot(s, a, out, stop);
      case Running(call, rest) => QuietRunning(s, a, call, rest, stop);
      case _ =>
    }
  }

  lemma BudgetStep(s: Spec, a: Agent, kinds: seq<Kind>, stop: Option<string>)
    requires BudgetInv(s, a, kinds, stop) && stop != Some("")
    ensures var t := Next(s, a, stop); BudgetInv(s, t.a, kinds + t.out, t.stop)
  {
    if a.phase.Calling? {
      BudgetCalling(s, a, kinds, stop);
    } else if a.phase.Tools? {
      BudgetTools(s, a, kinds, stop);
    } else {
      QuietStep(s, a, stop);
      var t := Next(s, a, stop);
      BudgetQuiet(s, a, t.a, kinds, t.out, stop);
    }
  }

  lemma BudgetInit(s: Spec, upstream: seq<(string, string)>, stop: Option<string>)
    ensures BudgetInv(s, Init(s, upstream), [], stop)
  {
  }

  // ------------------------------------------------------------ the tool-calling protocol

  // Reads a message list left to right: the calls still owed a tool message,
  // or nothing at all once the protocol is broken.
  function Owed(msgs: seq<Message>): Option<seq<ToolCall>> {
    if msgs == [] then Some([])
    else
      var before, m := Owed(msgs[..|msgs| - 1]), msgs[|msgs| - 1];
      if before.None? then None
      else if before.value == [] then
        match m
        case ToolMessage(_, _, _) => None
        case Assistant(_, calls) => Some(calls)
        case _ => Some([])
      else if m.ToolMessage? && m.callId == before.value[0].id && m.name == before.value[0].name then
        Some(before.value[1..])
      else None
  }

  ghost predicate FollowsProtocol(msgs: seq<Message>) {
    Owed(msgs) == Some([])
  }

  // What a history of finished turns looks like.
  ghost predicate ToolFree(msgs: seq<Message>) {
    forall m :: m in msgs ==> !m.ToolMessage? && (m.Assistant? ==> m.calls == [])
  }

  lemma OwedSnoc(msgs: seq<Message>, m: Message)
    ensures Owed(msgs + [m]) == (
      if Owed(msgs).None? then None
      else if Owed(msgs).value == [] then
        (match m case ToolMessage(_, _, _) => None case Assistant(_, calls) => Some(calls) case _ => Some([]))
      else if m.ToolMessage? && m.callId == Owed(msgs).value[0].id && m.name == Owed(msgs).value[0].name then
        Some(Owed(msgs).value[1..])
      else None)
  {
    assert (msgs + [m])[..|msgs|] == msgs;
  }

  lemma {:induction false} ToolFreeFollows(msgs: seq<Message>)
    requires ToolFree(msgs)
    ensures FollowsProtocol(msgs)
  {
    if msgs != [] {
      ToolFreeFollows(msgs[..|msgs| - 1]);
    }
  }

  const HISTORY := 100_000

  // history(): what the user and the agents said, of the first events of the session.
  function History(log: seq<Event>): seq<Message> {
    Spoken(if |log| <= HISTORY then log else log[..HISTORY])
  }

  function Spoken(log: seq<Event>): seq<Message> {
    if log == [] then []
    else
      var said := Spoken(log[..|log| - 1]);
      match log[|log| - 1].kind
      case UserMessage(text) => said + [User(text)]
      case AssistantMessage(text, _) => said + [Assistant(text, [])]
      case _ => said
  }

  lemma {:induction false} SpokenIsToolFree(log: seq<Event>)
    ensures ToolFree(Spoken(log))
  {
    if log != [] {
      SpokenIsToolFree(log[..|log| - 1]);
    }
  }

  // The history is made of the user's messages and the replies, each once and
  // in their order.
  lemma {:induction false} SpokenConcat(a: seq<Event>, b: seq<Event>)
    ensures Spoken(a + b) == Spoken(a) + Spoken(b)
  {
    if b == [] {
      AddNothing(a);
      AddNothing(Spoken(a));
    } else {
      var n := |b| - 1;
      SpokenConcat(a, b[..n]);
      assert (a + b)[..|a| + n] == a + b[..n];
      assert Spoken(a + b) == Spoken(a) + Spoken(b[..n]) + Spoken([b[n]]) by {
        SpokenOne(b[n]);
        AddNothing(Spoken(a) + Spoken(b[..n]));
      }
      assert Spoken(b) == Spoken(b[..n]) + Spoken([b[n]]) by {
        SpokenOne(b[n]);
        AddNothing(Spoken(b[..n]));
      }
      Assoc(Spoken(a), Spoken(b[..n]), Spoken([b[n]]));
    }
  }

  lemma SpokenOne(e: Event)
    ensures e.kind.UserMessage? ==> Spoken([e]) == [User(e.kind.text)]
    ensures e.kind.AssistantMessage? ==> Spoken([e]) == [Assistant(e.kind.text, [])]
    ensures !e.kind.UserMessage? && !e.kind.AssistantMessage? ==> Spoken([e]) == []
  {
    assert [e][..0] == [];
  }

  // Only the first 100,000 events are read.
  lemma HistoryIsSpoken(log: seq<Event>)
    ensures |log| <= 100_000 ==> History(log) == Spoken(log)
    ensures |log| > 100_000 ==> History(log) == Spoken(log[..100_000])
  {
  }

  // So an agent always begins with a list that follows the protocol, whatever
  // was logged before.
  lemma HistoryFollows(prompt: string, log: seq<Event>, request: string)
    ensures ToolFree([System(prompt)] + History(log))
    ensures FollowsProtocol([System(prompt)] + History(log) + [User(request)])
  {
    SpokenIsToolFree(if |log| <= HISTORY then log else log[..HISTORY]);
    var msgs := [System(prompt)] + History(log);
    forall m | m in msgs
      ensures !m.ToolMessage? && (m.Assistant? ==> m.calls == [])
    {
      assert m == System(prompt) || m in History(log);
    }
    ToolFreeFollows(msgs + [User(request)]);
  }

  lemma {:induction false} OwedPrefix(msgs: seq<Message>, n: nat)
    requires Owed(msgs).Some? && n <= |msgs|
    ensures Owed(msgs[..n]).Some?
  {
    if n < |msgs| {
      OwedPrefix(msgs[..|msgs| - 1], n);
      assert msgs[..|msgs| - 1][..n] == msgs[..n];
    } else {
      assert msgs[..n] == msgs;
    }
  }

  // Within a list that follows the protocol, the calls of an assistant turn
  // are answered one by one, in order, right behind it.
  lemma {:induction false} AnswersInOrder(msgs: seq<Message>, i: nat, j: nat)
    requires FollowsProtocol(msgs) && i < |msgs| && msgs[i].Assistant? && j <= |msgs[i].calls|
    ensures i + j < |msgs|
    ensures Owed(msgs[..i + 1 + j]) == Some(msgs[i].calls[j..])
    ensures j > 0 ==>
      && msgs[i + j].ToolMessage?
      && msgs[i + j].callId == msgs[i].calls[j - 1].id
      && msgs[i + j].name == msgs[i].calls[j - 1].name
  {
    if j == 0 {
      OwedPrefix(msgs, i + 1);
      assert msgs[..i + 1] == msgs[..i] + [msgs[i]];
      OwedSnoc(msgs[..i], msgs[i]);
    } else {
      AnswersInOrder(msgs, i, j - 1);
      var n := i + j;
      assert msgs[..n] == msgs[..i + 1 + (j - 1)];
      assert msgs[..|msgs|] == msgs;
      OwedPrefix(msgs, n + 1);
      assert msgs[..n + 1] == msgs[..n] + [msgs[n]];
      OwedSnoc(msgs[..n], msgs[n]);
    }
  }

  // And a tool message stands nowhere else.
  lemma {:induction false} NoStrayToolMessage(msgs: seq<Message>, n: nat) returns (i: nat, j: nat)
    requires FollowsProtocol(msgs) && n < |msgs| && msgs[n].ToolMessage?
    ensures i < n && msgs[i].Assistant? && 0 < j <= |msgs[i].calls| && n == i + j
  {
    OwedPrefix(msgs, n + 1);
    OwedPrefix(msgs, n);
    assert msgs[..n + 1] == msgs[..n] + [msgs[n]];
    OwedSnoc(msgs[..n], msgs[n]);
    i, j := OwedSince(msgs, n);
  }

  lemma {:induction false} OwedSince(msgs: seq<Message>, n: nat) returns (i: nat, j: nat)
    requires n <= |msgs| && Owed(msgs[..n]).Some? && Owed(msgs[..n]).value != []
    ensures i < n && msgs[i].Assistant? && 0 < j <= |msgs[i].calls| && n == i + j
    ensures Owed(msgs[..n]) == Some(msgs[i].calls[j - 1..])
  {
    assert msgs[..n] == msgs[..n - 1] + [msgs[n - 1]];
    OwedSnoc(msgs[..n - 1], msgs[n - 1]);
    if Owed(msgs[..n - 1]).value == [] {
      i, j := n - 1, 1;
    } else {
      var j';
      i, j' := OwedSince(msgs, n - 1);
      j := j' + 1;
    }
  }

  // ------------------------------------------------------------ protocol invariant

  // What the message list still owes depends only on where the loop stands. A
  // run that is over may have been killed, or have died, in mid-turn.
  ghost predicate ProtocolInv(a: Agent) {
    match a.phase
    case Tools(queue) => Owed(a.msgs) == Some(queue)
    case Running(call, rest) => Owed(a.msgs) == Some([call] + rest)
    case Returned(_) => true
    case Ended(_) => true
    case Dead(_) => true
    case _ => FollowsProtocol(a.msgs)
  }

  ghost predicate PromptInv(s: Spec, a: Agent) {
    && (forall p :: p in a.prompts ==> FollowsProtocol(p))
    && |a.prompts| <= Limit(s)
    && match a.phase
       case Begin => |a.prompts| < a.step <= Limit(s) + 1
       case Top => |a.prompts| < a.step <= Limit(s) + 1
       case Returned(_) => true
       case Ended(_) => true
       case Dead(_) => true
       case _ => |a.prompts| <= a.step <= Limit(s)
  }

  lemma ProtocolGot(s: Spec, a: Agent, out: ChatResult, stop: Option<string>)
    requires FollowsProtocol(a.msgs)
    ensures ProtocolInv(NextGot(s, a, out, stop).a)
  {
    if out.calls == [] && !a.requiredDone && !a.reminded {
      OwedSnoc(a.msgs, Assistant(out.content, []));
      OwedSnoc(a.msgs + [Assistant(out.content, [])], Reprompt(s));
    } else {
      OwedSnoc(a.msgs, Assistant(out.content, out.calls));
    }
  }

  lemma ProtocolRunning(s: Spec, a: Agent, call: ToolCall, rest: seq<ToolCall>, stop: Option<string>)
    requires Owed(a.msgs) == Some([call] + rest)
    ensures ProtocolInv(NextRunning(s, a, call, rest, stop).a)
  {
    var r := ToolResult(s, call, a.toolRuns);
    if r.Outcome? {
      OwedSnoc(a.msgs, ToolMessage(call.id, call.name, r.content));
      assert ([call] + rest)[1..] == rest;
    }
  }

  lemma ProtocolTools(s: Spec, a: Agent, queue: seq<ToolCall>, stop: Option<string>)
    requires Owed(a.msgs) == Some(queue)
    ensures ProtocolInv(NextTools(s, a, queue, stop).a)
  {
    if queue != [] {
      assert [queue[0]] + queue[1..] == queue;
    }
  }

  lemma ProtocolTop(s: Spec, a: Agent, stop: Option<string>)
    requires FollowsProtocol(a.msgs)
    ensures ProtocolInv(NextTop(s, a, stop).a)
  {
  }

  lemma ProtocolCalling(s: Spec, a: Agent, stop: Option<string>)
    requires FollowsProtocol(a.msgs)
    ensures ProtocolInv(NextCalling(s, a, stop).a)
  {
  }

  lemma ProtocolStep(s: Spec, a: Agent, stop: Option<string>)
    requires ProtocolInv(a)
    ensures ProtocolInv(Next(s, a, stop).a)
  {
    match a.phase {
      case Top => ProtocolTop(s, a, stop);
      case Calling => ProtocolCalling(s, a, stop);
      case Got(out) => ProtocolGot(s, a, out, stop);
      case Tools(queue) => ProtocolTools(s, a, queue, stop);
      case Running(call, rest) => ProtocolRunning(s, a, call, rest, stop);
      case _ =>
    }
  }

  lemma PromptTop(s: Spec, a: Agent, stop: Option<string>)
    requires a.phase.Top? && FollowsProtocol(a.msgs) && PromptInv(s, a)
    ensures PromptInv(s, NextTop(s, a, stop).a)
  {
  }

  lemma PromptGot(s: Spec, a: Agent, out: ChatResult, stop: Option<string>)
    requires a.phase.Got? && PromptInv(s, a)
    ensures PromptInv(s, NextGot(s, a, out, stop).a)
  {
  }

  lemma PromptCalling(s: Spec, a: Agent, stop: Option<string>)
    requires a.phase.Calling? && PromptInv(s, a)
    ensures PromptInv(s, NextCalling(s, a, stop).a)
  {
  }

  lemma PromptTools(s: Spec, a: Agent, stop: Option<string>)
    requires PromptInv(s, a)
    ensures a.phase.Tools? ==> PromptInv(s, NextTools(s, a, a.phase.queue, stop).a)
    ensures a.phase.Running? ==> PromptInv(s, NextRunning(s, a, a.phase.call, a.phase.rest, stop).a)
  {
  }

  lemma PromptStep(s: Spec, a: Agent, stop: Option<string>)
    requires ProtocolInv(a) && PromptInv(s, a)
    ensures PromptInv(s, Next(s, a, stop).a)
  {
    match a.phase {
      case Top => PromptTop(s, a, stop);
      case Calling => PromptCalling(s, a, stop);
      case Got(out) => PromptGot(s, a, out, stop);
      case Tools(_) => PromptTools(s, a, stop);
      case Running(_, _) => PromptTools(s, a, stop);
      case _ =>
    }
  }

  // ------------------------------------------------------------ the guardrail

  ghost predicate Called(sigs: seq<Sig>, tool: string) {
    exists i :: 0 <= i < |sigs| && sigs[i].tool == tool
  }

  ghost predicate HasResultOf(msgs: seq<Message>, tool: string) {
    exists i :: 0 <= i < |msgs| && msgs[i].ToolMessage? && msgs[i].name == tool
  }

  function Guards(kinds: seq<Kind>, action: string): nat {
    if kinds == [] then 0
    else
      var k := kinds[|kinds| - 1];
      Guards(kinds[..|kinds| - 1], action) + if k.Guardrail? && k.action == Some(action) then 1 else 0
  }

  lemma GuardsSnoc(kinds: seq<Kind>, k: Kind, action: string)
    ensures Guards(kinds + [k], action) ==
      Guards(kinds, action) + if k.Guardrail? && k.action == Some(action) then 1 else 0
  {
    assert (kinds + [k])[..|kinds|] == kinds;
  }

  // The required tool has been called, and what it returned is in the messages.
  ghost predicate Satisfied(s: Spec, a: Agent) {
    s.requireTool.None? || (Called(a.sigs, s.requireTool.value) && HasResultOf(a.msgs, s.requireTool.value))
  }

  predicate AwaitsRequired(s: Spec, a: Agent) {
    a.phase.Running? && s.requireTool == Some(a.phase.call.name)
  }

  ghost predicate RequiredInv(s: Spec, a: Agent) {
    && (!a.requiredDone ==> s.requireTool.Some?)
    && (a.requiredDone && !a.phase.Dead? && !AwaitsRequired(s, a) ==> Satisfied(s, a))
    && (AwaitsRequired(s, a) ==> Called(a.sigs, a.phase.call.name))
    && (a.phase.Returned? && a.phase.res.stopped == Final ==> a.requiredDone)
    && (a.phase.Ended? && a.phase.res.stopped == Final ==> a.requiredDone)
  }

  ghost predicate RepromptInv(a: Agent, kinds: seq<Kind>) {
    && Guards(kinds, "reprompt") == (if a.reminded then 1 else 0)
    && (if Guards(kinds, "refused") == 0 then true else
          && Guards(kinds, "refused") == 1 && a.reminded
          && (a.phase.Returned? ==> a.phase.res.stopped == ErrorStop)
          && (a.phase.Ended? ==> a.phase.res.stopped == ErrorStop)
          && (a.phase.Returned? || a.phase.Ended?))
  }

  lemma SatisfiedLater(s: Spec, a: Agent, b: Agent)
    requires Satisfied(s, a) && a.sigs <= b.sigs && a.msgs <= b.msgs
    ensures Satisfied(s, b)
  {
    if s.requireTool.Some? {
      var i :| 0 <= i < |a.sigs| && a.sigs[i].tool == s.requireTool.value;
      assert b.sigs[i] == a.sigs[i];
      var j :| 0 <= j < |a.msgs| && a.msgs[j].ToolMessage? && a.msgs[j].name == s.requireTool.value;
      assert b.msgs[j] == a.msgs[j];
    }
  }

  lemma RequiredTools(s: Spec, a: Agent, queue: seq<ToolCall>, stop: Option<string>)
    requires a.phase.Tools? && RequiredInv(s, a)
    ensures RequiredInv(s, NextTools(s, a, queue, stop).a)
  {
    var b := NextTools(s, a, queue, stop).a;
    if b.phase.Running? && Some(queue[0].name) == s.requireTool {
      assert b.sigs[|a.sigs|].tool == queue[0].name;
    } else if a.requiredDone {
      SatisfiedLater(s, a, b);
    }
  }

  lemma RequiredRunning(s: Spec, a: Agent, call: ToolCall, rest: seq<ToolCall>, stop: Option<string>)
    requires a.phase == Running(call, rest) && RequiredInv(s, a)
    ensures RequiredInv(s, NextRunning(s, a, call, rest, stop).a)
  {
    var b := NextRunning(s, a, call, rest, stop).a;
    if b.phase.Tools? {
      assert b.msgs[|a.msgs|].ToolMessage? && b.msgs[|a.msgs|].name == call.name;
      if a.requiredDone && Satisfied(s, a) {
        SatisfiedLater(s, a, b);
      }
    }
  }

  lemma RequiredQuiet(s: Spec, a: Agent, b: Agent)
    requires RequiredInv(s, a) && !a.phase.Running? && !a.phase.Dead? && !b.phase.Running?
    requires b.requiredDone == a.requiredDone && a.sigs <= b.sigs && a.msgs <= b.msgs
    requires b.phase.Returned? && b.phase.res.stopped == Final ==> a.requiredDone
    requires b.phase.Ended? ==> a.phase == Returned(b.phase.res) || a.phase == b.phase
    ensures RequiredInv(s, b)
  {
    if a.requiredDone {
      SatisfiedLater(s, a, b);
    }
  }

  lemma RequiredTop(s: Spec, a: Agent, stop: Option<string>)
    requires a.phase.Top? && RequiredInv(s, a)
    ensures RequiredInv(s, NextTop(s, a, stop).a)
  {
    var b := NextTop(s, a, stop).a;
    TopSame(s, a, stop);
    RequiredQuiet(s, a, b);
  }

  lemma TopSame(s: Spec, a: Agent, stop: Option<string>)
    ensures var b := NextTop(s, a, stop).a;
      b.requiredDone == a.requiredDone && b.sigs == a.sigs && b.msgs == a.msgs
      && (b.phase.Calling? || (b.phase.Returned? && b.phase.res.stopped != Final))
  {
  }

  lemma RequiredCalling(s: Spec, a: Agent, stop: Option<string>)
    requires a.phase.Calling? && RequiredInv(s, a)
    ensures RequiredInv(s, NextCalling(s, a, stop).a)
  {
    RequiredQuiet(s, a, NextCalling(s, a, stop).a);
  }

  lemma RequiredGot(s: Spec, a: Agent, out: ChatResult, stop: Option<string>)
    requires a.phase.Got? && RequiredInv(s, a)
    ensures RequiredInv(s, NextGot(s, a, out, stop).a)
  {
    RequiredQuiet(s, a, NextGot(s, a, out, stop).a);
  }

  lemma RequiredStep(s: Spec, a: Agent, stop: Option<string>)
    requires RequiredInv(s, a)
    ensures RequiredInv(s, Next(s, a, stop).a)
  {
    match a.phase {
      case Top => RequiredTop(s, a, stop);
      case Calling => RequiredCalling(s, a, stop);
      case Got(out) => RequiredGot(s, a, out, stop);
      case Tools(queue) => RequiredTools(s, a, queue, stop);
      case Running(call, rest) => RequiredRunning(s, a, call, rest, stop);
      case Dead(_) =>
      case _ => RequiredQuiet(s, a, Next(s, a, stop).a);
    }
  }

  lemma RepromptGot(s: Spec, a: Agent, kinds: seq<Kind>, stop: Option<string>)
    requires a.phase.Got? && RepromptInv(a, kinds)
    ensures var t := NextGot(s, a, a.phase.out, stop); RepromptInv(t.a, kinds + t.out)
  {
    var t := NextGot(s, a, a.phase.out, stop);
    if t.out == [] {
      assert kinds + t.out == kinds;
    } else {
      assert kinds + t.out == kinds + [t.out[0]];
      GuardsSnoc(kinds, t.out[0], "reprompt");
      GuardsSnoc(kinds, t.out[0], "refused");
    }
  }

  lemma RepromptQuiet(a: Agent, b: Agent, kinds: seq<Kind>, out: seq<Kind>)
    requires RepromptInv(a, kinds) && b.reminded == a.reminded
    requires out == [] || (|out| == 1 && !out[0].Guardrail?)
    requires a.phase.Returned? ==> b.phase == Ended(a.phase.res)
    requires a.phase.Ended? ==> b.phase == a.phase
    ensures RepromptInv(b, kinds + out)
  {
    if out == [] {
      assert kinds + out == kinds;
    } else {
      assert kinds + out == kinds + [out[0]];
      GuardsSnoc(kinds, out[0], "reprompt");
      GuardsSnoc(kinds, out[0], "refused");
    }
  }

  lemma NoGuardElsewhere(s: Spec, a: Agent, stop: Option<string>)
    requires !a.phase.Got?
    ensures var t := Next(s, a, stop);
      t.a.reminded == a.reminded && (t.out == [] || (|t.out| == 1 && !t.out[0].Guardrail?))
  {
    match a.phase {
      case Top =>
      case Calling =>
      case Tools(_) =>
      case Running(_, _) =>
      case _ =>
    }
  }

  lemma RepromptStep(s: Spec, a: Agent, kinds: seq<Kind>, stop: Option<string>)
    requires RepromptInv(a, kinds)
    ensures var t := Next(s, a, stop); RepromptInv(t.a, kinds + t.out)
  {
    if a.phase.Got? {
      RepromptGot(s, a, kinds, stop);
    } else {
      NoGuardElsewhere(s, a, stop);
      RepromptQuiet(a, Next(s, a, stop).a, kinds, Next(s, a, stop).out);
    }
  }

  // ------------------------------------------------------------ results explain themselves

  predicate Explains(res: Res) {
    res.stopped != Final ==> res.error.Some?
  }

  // A run that ends otherwise than with an answer says why.
  predicate ExplainInv(a: Agent) {
    && (a.phase.Returned? ==> Explains(a.phase.res))
    && (a.phase.Ended? ==> Explains(a.phase.res))
  }

  lemma ExplainStep(s: Spec, a: Agent, stop: Option<string>)
    requires ExplainInv(a)
    ensures ExplainInv(Next(s, a, stop).a)
  {
  }
}
