// The events a turn appends to a session's log, with the payload fields the
// transcript reads. A field a payload may lack is an Option.
module Events {
  import opened Basics

  // One JSON argument of a tool call. A string reads the same in Python and in
  // JavaScript; any other value carries what str() and String() make of it and
  // whether each language takes it for true.
  datatype Rendering = Rendering(text: string, truthy: bool)
  datatype Arg =
    | Null
    | Str(s: string)
    | List(items: seq<Arg>, py: Rendering, js: Rendering)
    | Other(py: Rendering, js: Rendering)

  type Args = map<string, Arg>

  datatype SpecInfo = SpecInfo(
    role: string, bundle: Option<string>, version: Option<string>, intent: string,
    dependsOn: seq<string>, tools: seq<string>)

  datatype PlanEntry = PlanEntry(id: string, role: string, bundle: Option<string>, intent: string, dependsOn: seq<string>)

  datatype Kind =
    | UserMessage(text: string)
    | RunStarted(bundle: Option<string>, version: Option<string>, tools: seq<string>)
    | ParentDecision(decision: Option<string>, reason: string, reply: string, plan: seq<PlanEntry>)
    | AgentSpawned(payloadId: Option<string>, spec: SpecInfo)
    | ModelCalled(step: nat)
    | ModelResult(tokens: int, prompt: int, completion: int)
    | ModelFailed(step: nat)
    | ToolCalled(step: nat, tool: Option<string>, args: Args)
    | ToolReturned(tool: Option<string>, ok: bool)
    | Guardrail(tool: Option<string>, action: Option<string>)
    | Killed(why: Option<string>)
    | AgentFinished(result: string, answer: Option<string>, error: Option<string>, total: Option<int>)
    | AssistantMessage(text: string, source: string)
    | RunError(stopped: Option<string>, error: Option<string>, hint: string)
    | RunFinished(outcome: Option<string>, tokens: int)

  datatype Event = Event(agentId: string, kind: Kind)

  const PARENT := "parent"

  // What a model_result adds to every token count.
  function TokensOf(k: Kind): int {
    if k.ModelResult? then k.tokens else 0
  }

  // What one agent logs while it runs, as opposed to what the turn logs.
  predicate AgentKind(k: Kind) {
    || k.ModelCalled? || k.ModelResult? || k.ModelFailed? || k.ToolCalled? || k.ToolReturned?
    || k.Guardrail? || k.Killed? || k.AgentFinished?
  }

  // The part of a log one agent wrote, in order.
  function Own(log: seq<Event>, id: string): seq<Kind> {
    if log == [] then []
    else
      var last := log[|log| - 1];
      Own(log[..|log| - 1], id) + if last.agentId == id then [last.kind] else []
  }

  function Tokens(kinds: seq<Kind>): int {
    if kinds == [] then 0
    else Tokens(kinds[..|kinds| - 1]) + TokensOf(kinds[|kinds| - 1])
  }

  function LogTokens(log: seq<Event>): int {
    if log == [] then 0
    else LogTokens(log[..|log| - 1]) + TokensOf(log[|log| - 1].kind)
  }

  lemma OwnSnoc(log: seq<Event>, e: Event, id: string)
    ensures Own(log + [e], id) == Own(log, id) + if e.agentId == id then [e.kind] else []
  {
    assert (log + [e])[..|log|] == log;
  }

  lemma {:induction false} OwnConcat(a: seq<Event>, b: seq<Event>, id: string)
    ensures Own(a + b, id) == Own(a, id) + Own(b, id)
  {
    if b == [] {
      assert a + b == a;
    } else {
      var front, last := b[..|b| - 1], b[|b| - 1];
      OwnConcat(a, front, id);
      assert a + b == (a + front) + [last];
      OwnSnoc(a + front, last, id);
    }
  }

  lemma TokensSnoc(kinds: seq<Kind>, k: Kind)
    ensures Tokens(kinds + [k]) == Tokens(kinds) + TokensOf(k)
  {
    assert (kinds + [k])[..|kinds|] == kinds;
  }

  lemma LogTokensSnoc(log: seq<Event>, e: Event)
    ensures LogTokens(log + [e]) == LogTokens(log) + TokensOf(e.kind)
  {
    assert (log + [e])[..|log|] == log;
  }
}
