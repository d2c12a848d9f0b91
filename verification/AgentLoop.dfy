// One agent's model/tool loop (plnt/agent/loop.py, run_agent, driven by
// _run_micro of plnt/executors/local.py) as a machine whose every step logs at
// most one event. Other agents of the run take their own steps in between and
// share the stop reason with this one. Texts written for people are shortened:
// what counts is which of them are there, and which are empty.
module AgentLoop {
  import opened Basics
  import opened Events

  const LOOP_THRESHOLD := 3

  datatype ToolCall = ToolCall(id: string, name: string, args: Args, parseError: Option<string>)

  datatype Message =
    | System(content: string)
    | User(content: string)
    | Assistant(content: string, calls: seq<ToolCall>)
    | ToolMessage(callId: string, name: string, content: string)

  datatype ChatResult = ChatResult(content: string, calls: seq<ToolCall>, prompt: int, completion: int)

  datatype Exn =
    | ModelExn(error: string, hint: string)
    | ParentExn(error: string, hint: string)
    | SetupExn(error: string)
    | OtherExn(error: string)

  datatype ModelReply =
    | Answered(out: ChatResult)
    | ModelError(error: string, hint: string)
    | Raised(error: string)

  // What running a tool yields; the result may be one json.dumps refuses.
  datatype ToolOutcome = Outcome(content: string, ok: bool) | Unencodable(ok: bool)

  // Everything outside the loop's control, for one run of one agent: the
  // provider, the model's reply at each step, the outcome of each tool run,
  // the clock at each step, and whether an answer parses against the schema.
  datatype World = World(
    provider: Option<Exn>,
    reply: nat -> ModelReply,
    tool: nat -> ToolOutcome,
    expired: nat -> bool,
    unparsable: nat -> bool)

  datatype Spec = Spec(
    id: string, info: SpecInfo, tools: set<string>, maxSteps: int, budget: nat,
    requireTool: Option<string>, prior: seq<Message>, request: string, world: World)

  datatype Stopped = Final | MaxSteps | ErrorStop | WallBudget | KilledStop

  datatype Res = Res(stopped: Stopped, answer: string, error: Option<string>, hint: string)

  // Where run_agent stands.
  datatype Phase =
    | Begin                                      // entry checks
    | Top                                        // head of the step loop
    | Calling                                    // the model is being called
    | Got(out: ChatResult)                       // the model has answered
    | Tools(queue: seq<ToolCall>)                // head of the tool loop
    | Running(call: ToolCall, rest: seq<ToolCall>)
    | Returned(res: Res)                         // run_agent is back in _run_micro
    | Ended(res: Res)
    | Dead(exn: Exn)                             // an exception left the agent's thread

  datatype Sig = Sig(tool: string, args: Args)

  datatype Agent = Agent(
    phase: Phase, step: nat, msgs: seq<Message>, prompts: seq<seq<Message>>, spent: int,
    sigs: seq<Sig>, requiredDone: bool, reminded: bool, toolRuns: nat)

  datatype Tick = Tick(a: Agent, out: seq<Kind>, stop: Option<string>)

  function StoppedName(s: Stopped): string {
    match s
    case Final => "final"
    case MaxSteps => "max_steps"
    case ErrorStop => "error"
    case WallBudget => "wall_budget"
    case KilledStop => "killed"
  }

  function Limit(s: Spec): nat {
    if s.maxSteps < 1 then 1 else s.maxSteps
  }

  // What the agents it depends on answered, as its user message shows it.
  function Notes(upstream: seq<(string, string)>): string {
    if upstream == [] then ""
    else
      var last := upstream[|upstream| - 1];
      Notes(upstream[..|upstream| - 1]) + "\n\n[" + last.0 + "]: " + last.1
  }

  function Init(s: Spec, upstream: seq<(string, string)>): Agent {
    Agent(Begin, 1, s.prior + [User(s.request + Notes(upstream))], [], 0, [], s.requireTool.None?, false, 0)
  }

  predicate Finished(a: Agent) {
    a.phase.Ended? || a.phase.Dead?
  }

  // ------------------------------------------------------------ the stop reason

  // should_stop(): an empty reason does not stop anybody.
  predicate Halted(stop: Option<string>) {
    stop.Some? && stop.value != ""
  }

  // _stop(): the first reason is kept.
  function Stop(stop: Option<string>, reason: string): Option<string> {
    if stop.None? then Some(reason) else stop
  }

  function Count(sigs: seq<Sig>, x: Sig): nat {
    if sigs == [] then 0 else Count(sigs[..|sigs| - 1], x) + if sigs[|sigs| - 1] == x then 1 else 0
  }

  function AfterBudget(s: Spec, spent: int, stop: Option<string>): Option<string> {
    if spent > s.budget then Stop(stop, "tokens") else stop
  }

  function AfterLoopCheck(sigs: seq<Sig>, x: Sig, stop: Option<string>): Option<string> {
    if Count(sigs, x) >= LOOP_THRESHOLD then Stop(stop, "ACC:loop") else stop
  }

  // ------------------------------------------------------------ results

  function KilledRes(stop: Option<string>): Res
    requires stop.Some?
  {
    Res(KilledStop, "", Some("stopped: " + stop.value), "")
  }

  function ToolResult(s: Spec, call: ToolCall, run: nat): ToolOutcome {
    if call.parseError.Some? && call.parseError.value != "" then Outcome(call.parseError.value, false)
    else if call.name !in s.tools then Outcome("unknown " + call.name, false)
    else s.world.tool(run)
  }

  function FinishedEvent(a: Agent, res: Res): Kind {
    AgentFinished(
      if res.stopped == Final then "ok" else StoppedName(res.stopped),
      if res.stopped == Final then Some(res.answer) else None,
      res.error, Some(a.spent))
  }

  // ------------------------------------------------------------ one step

  function NextTop(s: Spec, a: Agent, stop: Option<string>): Tick {
    if a.step > Limit(s) then
      Tick(a.(phase := Returned(Res(MaxSteps, "", Some("max_steps"), "raise"))), [], stop)
    else if Halted(stop) then
      Tick(a.(phase := Returned(KilledRes(stop))), [Killed(stop)], stop)
    else if s.world.expired(a.step) then
      Tick(a.(phase := Returned(Res(WallBudget, "", Some("wall"), "raise"))), [], stop)
    else
      Tick(a.(phase := Calling, prompts := a.prompts + [a.msgs]), [ModelCalled(a.step)], stop)
  }

  function NextCalling(s: Spec, a: Agent, stop: Option<string>): Tick {
    match s.world.reply(a.step)
    case ModelError(error, hint) =>
      Tick(a.(phase := Returned(Res(ErrorStop, "", Some(error), hint))), [ModelFailed(a.step)], stop)
    case Raised(error) => Tick(a.(phase := Dead(OtherExn(error))), [], stop)
    case Answered(out) =>
      var total := out.prompt + out.completion;
      Tick(a.(phase := Got(out), spent := a.spent + total),
           [ModelResult(total, out.prompt, out.completion)],
           AfterBudget(s, a.spent + total, stop))
  }

  function Reprompt(s: Spec): Message {
    User("Call " + (if s.requireTool.Some? then s.requireTool.value else "") + " now.")
  }

  function NextGot(s: Spec, a: Agent, out: ChatResult, stop: Option<string>): Tick {
    if out.calls == [] && !a.requiredDone then
      if a.reminded then
        Tick(a.(phase := Returned(Res(ErrorStop, "", Some("refused"), "model"))),
             [Guardrail(s.requireTool, Some("refused"))], stop)
      else
        Tick(a.(phase := Top, step := a.step + 1, reminded := true,
                msgs := a.msgs + [Assistant(out.content, [])] + [Reprompt(s)]),
             [Guardrail(s.requireTool, Some("reprompt"))], stop)
    else if out.calls == [] then
      var error := if s.world.unparsable(a.step) then Some("not JSON") else None;
      Tick(a.(phase := Returned(Res(Final, out.content, error, "")), msgs := a.msgs + [Assistant(out.content, [])]), [], stop)
    else
      Tick(a.(phase := Tools(out.calls), msgs := a.msgs + [Assistant(out.content, out.calls)]), [], stop)
  }

  function NextTools(s: Spec, a: Agent, queue: seq<ToolCall>, stop: Option<string>): Tick {
    if queue == [] then Tick(a.(phase := Top, step := a.step + 1), [], stop)
    else if Halted(stop) then
      Tick(a.(phase := Returned(KilledRes(stop))), [Killed(stop)], stop)
    else
      var call := queue[0];
      var sigs := a.sigs + [Sig(call.name, call.args)];
      Tick(a.(phase := Running(call, queue[1..]), sigs := sigs,
              requiredDone := a.requiredDone || Some(call.name) == s.requireTool),
           [ToolCalled(a.step, Some(call.name), call.args)],
           AfterLoopCheck(sigs, Sig(call.name, call.args), stop))
  }

  function NextRunning(s: Spec, a: Agent, call: ToolCall, rest: seq<ToolCall>, stop: Option<string>): Tick {
    match ToolResult(s, call, a.toolRuns)
    case Outcome(content, ok) =>
      Tick(a.(phase := Tools(rest), toolRuns := a.toolRuns + 1,
              msgs := a.msgs + [ToolMessage(call.id, call.name, content)]),
           [ToolReturned(Some(call.name), ok)], stop)
    case Unencodable(ok) =>
      Tick(a.(phase := Dead(OtherExn("encode")), toolRuns := a.toolRuns + 1),
           [ToolReturned(Some(call.name), ok)], stop)
  }

  function Next(s: Spec, a: Agent, stop: Option<string>): Tick {
    match a.phase
    case Begin =>
      if s.world.provider.Some? then Tick(a.(phase := Dead(s.world.provider.value)), [], stop)
      else if s.requireTool.Some? && s.requireTool.value != "" && s.requireTool.value !in s.tools then
        Tick(a.(phase := Dead(OtherExn("tool"))), [], stop)
      else Tick(a.(phase := Top), [], stop)
    case Top => NextTop(s, a, stop)
    case Calling => NextCalling(s, a, stop)
    case Got(out) => NextGot(s, a, out, stop)
    case Tools(queue) => NextTools(s, a, queue, stop)
    case Running(call, rest) => NextRunning(s, a, call, rest, stop)
    case Returned(res) => Tick(a.(phase := Ended(res)), [FinishedEvent(a, res)], stop)
    case _ => Tick(a, [], stop)
  }

  lemma OneEventAStep(s: Spec, a: Agent, stop: Option<string>)
    ensures Next(s, a, stop).out == [] || (|Next(s, a, stop).out| == 1 && AgentKind(Next(s, a, stop).out[0]))
  {
    match a.phase
    case Top =>
    case Calling =>
    case Got(_) =>
    case Tools(_) =>
    case Running(_, _) =>
    case _ =>
  }

  // ------------------------------------------------------------ termination

  function IterFuel(s: Spec, step: nat): nat {
    5 + match s.world.reply(step) case Answered(out) => 2 * |out.calls| case _ => 0
  }

  function FuelFrom(s: Spec, step: nat): nat
    decreases Limit(s) + 1 - step
  {
    if step > Limit(s) then 0 else IterFuel(s, step) + FuelFrom(s, step + 1)
  }

  // How many steps an agent can still take.
  function Rank(s: Spec, a: Agent): nat {
    match a.phase
    case Begin => FuelFrom(s, a.step) + 3
    case Top => FuelFrom(s, a.step) + 2
    case Calling => FuelFrom(s, a.step + 1) + 1 + IterFuel(s, a.step)
    case Got(out) => FuelFrom(s, a.step + 1) + 4 + 2 * |out.calls|
    case Tools(queue) => FuelFrom(s, a.step + 1) + 3 + 2 * |queue|
    case Running(_, rest) => FuelFrom(s, a.step + 1) + 4 + 2 * |rest|
    case Returned(_) => 1
    case _ => 0
  }

  lemma RankTop(s: Spec, a: Agent, stop: Option<string>)
    requires a.phase.Top?
    ensures Rank(s, NextTop(s, a, stop).a) < Rank(s, a)
  {
    if a.step <= Limit(s) {
      assert FuelFrom(s, a.step) == IterFuel(s, a.step) + FuelFrom(s, a.step + 1);
    }
  }

  lemma RankGot(s: Spec, a: Agent, stop: Option<string>)
    requires a.phase.Got?
    ensures Rank(s, NextGot(s, a, a.phase.out, stop).a) < Rank(s, a)
  {
    var b := NextGot(s, a, a.phase.out, stop).a;
    match b.phase
    case Top => assert b.step == a.step + 1;
    case _ =>
  }

  lemma RankCalling(s: Spec, a: Agent, stop: Option<string>)
    requires a.phase.Calling?
    ensures Rank(s, NextCalling(s, a, stop).a) < Rank(s, a)
  {
  }

  // Where the tool loop goes from its head.
  predicate FromTools(a: Agent, b: Agent)
    requires a.phase.Tools?
  {
    || b.phase.Returned?
    || (b.phase.Top? && b.step == a.step + 1)
    || (b.phase.Running? && b.step == a.step && |b.phase.rest| < |a.phase.queue|)
  }

  lemma ToolsGoOn(s: Spec, a: Agent, stop: Option<string>)
    requires a.phase.Tools?
    ensures FromTools(a, NextTools(s, a, a.phase.queue, stop).a)
  {
  }

  lemma FromToolsDrops(s: Spec, a: Agent, b: Agent)
    requires a.phase.Tools? && FromTools(a, b)
    ensures Rank(s, b) < Rank(s, a)
  {
  }

  lemma RankTools(s: Spec, a: Agent, stop: Option<string>)
    requires a.phase.Tools?
    ensures Rank(s, NextTools(s, a, a.phase.queue, stop).a) < Rank(s, a)
  {
    ToolsGoOn(s, a, stop);
    FromToolsDrops(s, a, NextTools(s, a, a.phase.queue, stop).a);
  }

  lemma RankRunning(s: Spec, a: Agent, stop: Option<string>)
    requires a.phase.Running?
    ensures Rank(s, NextRunning(s, a, a.phase.call, a.phase.rest, stop).a) < Rank(s, a)
  {
  }

  lemma RankBegin(s: Spec, a: Agent, stop: Option<string>)
    requires a.phase.Begin? || a.phase.Returned?
    ensures Rank(s, Next(s, a, stop).a) < Rank(s, a)
  {
    assert Next(s, a, stop).a.step == a.step;
  }

  // Every agent of a wave finishes, whatever the others do in between.
  lemma RankDrops(s: Spec, a: Agent, stop: Option<string>)
    requires !Finished(a)
    ensures Rank(s, Next(s, a, stop).a) < Rank(s, a)
  {
    match a.phase {
      case Top => RankTop(s, a, stop);
      case Calling => RankCalling(s, a, stop);
      case Got(_) => RankGot(s, a, stop);
      case Tools(_) => RankTools(s, a, stop);
      case Running(_, _) => RankRunning(s, a, stop);
      case _ => RankBegin(s, a, stop);
    }
  }
}
