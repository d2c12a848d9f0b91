// The nested loops of run_agent (plnt/agent/loop.py) and of the _run_micro
// around it (plnt/executors/local.py), proved to do, step for step, what the
// machine of AgentLoop does.
module RunAgent {
  import opened Basics
  import opened Events
  import opened AgentLoop
  import opened AgentLaws
  import opened AgentRuns
  import opened RunState
  import opened ToolLaws

  datatype Outcome = Came(res: Res) | Crashed(exn: Exn)

  function StampAll(id: string, kinds: seq<Kind>): seq<Event> {
    seq(|kinds|, i requires 0 <= i < |kinds| => Event(id, kinds[i]))
  }

  lemma StampSnoc(id: string, kinds: seq<Kind>, k: Kind)
    ensures StampAll(id, kinds + [k]) == StampAll(id, kinds) + [Event(id, k)]
  {
  }

  lemma HeededEmit(s: Spec, a0: Agent, stops: seq<Option<string>>, stop: Option<string>, later: Option<string>, t: Tick)
    requires Heeded(s, a0, stops, stop)
    requires t == Next(s, Play(s, a0, stops).a, stop) && later == t.stop
    ensures Heeded(s, a0, stops + [stop], later)
  {
    StopStays(s, Play(s, a0, stops).a, stop);
    HeededSnoc(s, a0, stops, stop, later);
  }

  function SigOf(k: Kind): seq<Sig> {
    if k.ToolCalled? then [Sig(if k.tool.Some? then k.tool.value else "", k.args)] else []
  }

  // What logging `k` does to the shared stop reason.
  function AfterEmit(s: Spec, spent: int, sigs: seq<Sig>, k: Kind, stop: Option<string>): Option<string> {
    if k.ModelResult? then AfterBudget(s, spent + k.tokens, stop)
    else if k.ToolCalled? then AfterLoopCheck(sigs + SigOf(k), SigOf(k)[0], stop)
    else stop
  }

  // `run` is what the machine does when its steps see these stop reasons.
  ghost predicate Tracks(s: Spec, a0: Agent, stops: seq<Option<string>>, run: Run, stop: Option<string>, polite: bool) {
    Play(s, a0, stops) == run && (polite ==> Heeded(s, a0, stops, stop))
  }

  // One more step of a run that was heeding the stop reason.
  lemma RunGrows(s: Spec, a0: Agent, stops: seq<Option<string>>, run: Run, stop: Option<string>, later: Option<string>, b: Agent, out: seq<Kind>, polite: bool)
    requires Tracks(s, a0, stops, run, stop, polite) && Next(s, run.a, stop) == Tick(b, out, later)
    ensures Tracks(s, a0, stops + [stop], Run(b, run.kinds + out), later, polite)
  {
    PlaySnoc(s, a0, stops, stop);
    if polite {
      HeededEmit(s, a0, stops, stop, later, Tick(b, out, later));
    }
  }

  // emit() of _run_micro with the variables it captures. The ghost fields
  // follow the machine, with the stop reason each step saw, and the log since
  // the agent began: its own entries, and those of others in between unless
  // it is alone.
  class Emitter {
    const db: Db
    const state: State
    const acc: ACCMonitor
    const s: Spec
    const key: string
    const alone: bool
    var agentTokens: int
    ghost const a0: Agent
    ghost const m: Mark
    ghost const before: seq<Event>
    ghost var log: seq<Event>
    ghost var stops: seq<Option<string>>
    ghost var run: Run

    constructor (db: Db, state: State, s: Spec, key: string, alone: bool, ghost upstream: seq<(string, string)>, ghost m: Mark, ghost before: seq<Event>)
      requires Wrote(db, state, m, before) && (state.polite ==> state.stopReason != Some(""))
      ensures Valid() && fresh(acc)
      ensures this.db == db && this.state == state && this.s == s && this.key == key && this.alone == alone
      ensures a0 == Init(s, upstream) && run == Run(a0, []) && this.m == m && this.before == before
    {
      this.db, this.state, this.s, this.key, this.alone, agentTokens := db, state, s, key, alone, 0;
      a0, stops, log := Init(s, upstream), [], [];
      run := Run(Init(s, upstream), []);
      this.m, this.before := m, before;
      acc := new ACCMonitor();
      new;
      AddNothing(before);
    }

    ghost predicate Valid()
      reads this, db, state, acc
    {
      Tracks(s, a0, stops, run, state.stopReason, state.polite) && Books()
    }

    // What is counted and logged is what the run says.
    ghost predicate Books()
      reads this, db, state, acc
    {
      && acc.Valid()
      && agentTokens == run.a.spent && acc.history == run.a.sigs
      && Wrote(db, state, m, before + log)
      && Follows(s.id, log, run.kinds, alone)
    }

    // What emit() does: log, book, then let the budget and the loop detector
    // set the stop reason.
    method Log(k: Kind)
      requires acc.Valid() && Sums(k) && Wrote(db, state, m, before + log)
      modifies this`agentTokens, this`log, db, state`tokens, state`stopReason, acc
      ensures acc.Valid() && acc.history == old(acc.history) + SigOf(k)
      ensures agentTokens == old(agentTokens) + TokensOf(k)
      ensures log == old(log) + [Event(s.id, k)] && Wrote(db, state, m, before + log)
      ensures state.stopReason == AfterEmit(s, old(agentTokens), old(acc.history), k, old(state.stopReason))
    {
      WriteOne(s.id, key, k);
      if k.ModelResult? {
        agentTokens := agentTokens + k.tokens;
        if agentTokens > s.budget {
          state.Stop("tokens");
        }
      } else if k.ToolCalled? {
        var detected := acc.Observe(SigOf(k)[0]);
        if detected {
          state.Stop("ACC:loop");
        }
      }
    }

    method WriteOne(id: string, key: string, k: Kind)
      requires Sums(k) && Wrote(db, state, m, before + log)
      modifies this`log, db, state`tokens
      ensures log == old(log) + [Event(id, k)] && Wrote(db, state, m, before + log)
    {
      ghost var longer := Write(db, state, id, key, k, m, before + log);
      Assoc(before, log, [Event(id, k)]);
      log := log + [Event(id, k)];
    }

    // The log entry of a step that takes the machine to `b`.
    method LogStep(k: Kind, ghost b: Agent)
      requires Books() && Sums(k)
      requires b.spent == run.a.spent + TokensOf(k) && b.sigs == run.a.sigs + SigOf(k)
      modifies this`agentTokens, this`log, this`stops, this`run, db, state`tokens, state`stopReason, acc
      ensures Books() && run == Run(b, old(run.kinds) + [k]) && stops == old(stops) + [old(state.stopReason)]
      ensures state.stopReason == AfterEmit(s, old(run.a.spent), old(run.a.sigs), k, old(state.stopReason))
    {
      ghost var stop := state.stopReason;
      FollowsOwn(s.id, log, run.kinds, alone, k);
      Log(k);
      stops := stops + [stop];
      run := Run(b, run.kinds + [k]);
    }

    method Emit(k: Kind, ghost b: Agent)
      requires Valid() && Sums(k)
      requires Next(s, run.a, state.stopReason) ==
        Tick(b, [k], AfterEmit(s, run.a.spent, run.a.sigs, k, state.stopReason))
      requires b.spent == run.a.spent + TokensOf(k) && b.sigs == run.a.sigs + SigOf(k)
      modifies this`agentTokens, this`log, this`stops, this`run, db, state`tokens, state`stopReason, acc
      ensures Valid()
      ensures run == Run(b, old(run.kinds) + [k])
      ensures state.stopReason == AfterEmit(s, old(run.a.spent), old(run.a.sigs), k, old(state.stopReason))
    {
      ghost var stop, later := state.stopReason, AfterEmit(s, run.a.spent, run.a.sigs, k, state.stopReason);
      RunGrows(s, a0, stops, run, stop, later, b, [k], state.polite);
      LogStep(k, b);
    }

    // A step of the machine that logs nothing.
    ghost method Silently(b: Agent)
      requires Valid()
      requires Next(s, run.a, state.stopReason) == Tick(b, [], state.stopReason)
      requires b.spent == run.a.spent && b.sigs == run.a.sigs
      modifies this`stops, this`run
      ensures Valid() && run == Run(b, old(run.kinds))
    {
      RunGrows(s, a0, stops, run, state.stopReason, state.stopReason, b, [], state.polite);
      AddNothing(run.kinds);
      stops := stops + [state.stopReason];
      run := Run(b, run.kinds);
    }

    // Between two steps an operator may kill the run, and other agents may
    // log and set the stop reason.
    method Yield()
      requires Valid()
      modifies this`log, db, state`tokens, state`stopReason
      ensures Valid() && (alone ==> log == old(log))
    {
      var n: nat :| 0 <= n;
      for i := 0 to n
        invariant Valid() && (alone ==> log == old(log))
      {
        if * {
          KillOrStop();
        } else if !alone {
          OtherWrites();
        }
      }
    }

    method KillOrStop()
      requires Valid()
      modifies state`stopReason
      ensures Valid()
    {
      ghost var stop := state.stopReason;
      var reason: string := *;
      if alone || reason == "" {
        state.OperatorMayKill();
      } else {
        state.Stop(reason);
      }
      if state.polite {
        HeededLater(s, a0, stops, stop, state.stopReason);
      }
    }

    // An entry of another agent, of any kind.
    method OtherWrites()
      requires Valid() && !alone
      modifies this`log, db, state`tokens
      ensures Valid()
    {
      var id: string, key: string, k: Kind := *, *, *;
      if id != s.id && Sums(k) {
        FollowsOther(s.id, log, run.kinds, Event(id, k));
        WriteOne(id, key, k);
      }
    }
  }

  // What is logged while an agent runs: its own entries in order, and if it is
  // alone nothing else.
  ghost predicate Follows(id: string, log: seq<Event>, kinds: seq<Kind>, alone: bool) {
    Own(log, id) == kinds && (alone ==> log == StampAll(id, kinds))
  }

  lemma FollowsOwn(id: string, log: seq<Event>, kinds: seq<Kind>, alone: bool, k: Kind)
    requires Follows(id, log, kinds, alone)
    ensures Follows(id, log + [Event(id, k)], kinds + [k], alone)
  {
    OwnSnoc(log, Event(id, k), id);
    StampSnoc(id, kinds, k);
  }

  lemma FollowsOther(id: string, log: seq<Event>, kinds: seq<Kind>, e: Event)
    requires Follows(id, log, kinds, false) && e.agentId != id
    ensures Follows(id, log + [e], kinds, false)
  {
    OwnSnoc(log, e, id);
    AddNothing(kinds);
  }

  // _killed(): polled before every model call and every tool call.
  method CheckKilled(e: Emitter) returns (killed: bool, res: Res)
    requires e.Valid() && (e.run.a.phase.Top? ==> e.run.a.step <= Limit(e.s))
    requires e.run.a.phase.Top? || (e.run.a.phase.Tools? && e.run.a.phase.queue != [])
    modifies e, e.db, e.state, e.acc
    ensures e.Valid() && killed == Halted(e.state.stopReason)
    ensures if killed then e.run.a.phase == Returned(res) else e.run == old(e.run)
  {
    e.Yield();
    killed, res := false, Res(Final, "", None, "");
    if Halted(e.state.stopReason) {
      killed, res := true, KilledRes(e.state.stopReason);
      e.Emit(Killed(e.state.stopReason), e.run.a.(phase := Returned(res)));
    }
  }

  // How a piece of the loop left off: going on, or with run_agent's result.
  datatype Left = GoOn | Out(r: Outcome)

  // What the machine's phase says run_agent has returned or raised.
  ghost predicate Says(phase: Phase, r: Outcome) {
    match r
    case Came(res) => phase == Returned(res)
    case Crashed(exn) => phase == Dead(exn)
  }

  // The machine agrees with the loop's own variables.
  ghost predicate Stands(a: Agent, phase: Phase, step: nat, msgs: seq<Message>, requiredDone: bool, reminded: bool, runs: nat) {
    && a.phase == phase && a.step == step && a.msgs == msgs
    && a.requiredDone == requiredDone && a.reminded == reminded && a.toolRuns == runs
  }

  // Runs the tool; `reply` is the message that answers the call.
  method RunTool(e: Emitter, call: ToolCall, ghost rest: seq<ToolCall>, runs: nat) returns (left: Left, reply: seq<Message>)
    requires e.Valid() && e.run.a.phase == Running(call, rest) && e.run.a.toolRuns == runs
    modifies e, e.db, e.state, e.acc
    ensures e.Valid()
    ensures left.Out? ==> Says(e.run.a.phase, left.r)
    ensures left.GoOn? ==>
      e.run.a == old(e.run.a).(phase := Tools(rest), msgs := old(e.run.a).msgs + reply, toolRuns := runs + 1)
    ensures Answers(e.s, call, rest, old(e.run), e.run)
  {
    e.Yield();
    AnswerStep(e.s, e.run.a, e.state.stopReason, e.run.kinds);
    var result := ToolResult(e.s, call, runs);
    if result.Outcome? {
      left, reply := GoOn, [ToolMessage(call.id, call.name, result.content)];
      ToolReplied(e, call, rest, runs, reply[0]);
    } else {
      left, reply := Out(Crashed(OtherExn("encode"))), [];
      ToolBroke(e, call, rest, runs);
    }
  }

  method ToolReplied(e: Emitter, call: ToolCall, ghost rest: seq<ToolCall>, runs: nat, ghost reply: Message)
    requires e.Valid() && e.run.a.phase == Running(call, rest) && e.run.a.toolRuns == runs
    requires ToolResult(e.s, call, runs).Outcome? && reply == ToolMessage(call.id, call.name, ToolResult(e.s, call, runs).content)
    modifies e, e.db, e.state, e.acc
    ensures e.Valid() && e.run.a == old(e.run.a).(phase := Tools(rest), msgs := old(e.run.a).msgs + [reply], toolRuns := runs + 1)
    ensures e.run.kinds == old(e.run.kinds) + [ToolReturned(Some(call.name), ToolResult(e.s, call, runs).ok)]
  {
    ghost var a := e.run.a;
    e.Emit(ToolReturned(Some(call.name), ToolResult(e.s, call, runs).ok), a.(phase := Tools(rest), toolRuns := runs + 1, msgs := a.msgs + [reply]));
  }

  // The result cannot be written down, which kills the agent's thread.
  method ToolBroke(e: Emitter, call: ToolCall, ghost rest: seq<ToolCall>, runs: nat)
    requires e.Valid() && e.run.a.phase == Running(call, rest) && e.run.a.toolRuns == runs
    requires ToolResult(e.s, call, runs).Unencodable?
    modifies e, e.db, e.state, e.acc
    ensures e.Valid() && e.run.a == old(e.run.a).(phase := Dead(OtherExn("encode")), toolRuns := runs + 1)
    ensures e.run.kinds == old(e.run.kinds) + [ToolReturned(Some(call.name), ToolResult(e.s, call, runs).ok)]
  {
    e.Emit(ToolReturned(Some(call.name), ToolResult(e.s, call, runs).ok),
           e.run.a.(phase := Dead(OtherExn("encode")), toolRuns := runs + 1));
  }

  method CallTool(e: Emitter, call: ToolCall, ghost rest: seq<ToolCall>, step: nat, done: bool) returns (killed: bool, res: Res, requiredDone: bool)
    requires e.Valid() && e.run.a.phase == Tools([call] + rest) && e.run.a.step == step && e.run.a.requiredDone == done
    modifies e, e.db, e.state, e.acc
    ensures e.Valid()
    ensures killed ==> e.run.a.phase == Returned(res)
    ensures !killed ==>
      e.run.a == old(e.run.a).(phase := Running(call, rest), requiredDone := requiredDone, sigs := old(e.run.a).sigs + [Sig(call.name, call.args)])
  {
    requiredDone := done;
    killed, res := CheckKilled(e);
    if !killed {
      requiredDone := requiredDone || Some(call.name) == e.s.requireTool;
      ghost var a := e.run.a;
      assert ([call] + rest)[1..] == rest;
      e.Emit(ToolCalled(step, Some(call.name), call.args),
             a.(phase := Running(call, rest), requiredDone := requiredDone, sigs := a.sigs + [Sig(call.name, call.args)]));
    }
  }

  // for call in out.tool_calls: ...
  method CallTools(e: Emitter, calls: seq<ToolCall>, step: nat, msgs0: seq<Message>, done: bool, ghost reminded: bool, runs0: nat)
    returns (left: Left, msgs: seq<Message>, requiredDone: bool, runs: nat)
    requires e.Valid() && Stands(e.run.a, Tools(calls), step, msgs0, done, reminded, runs0)
    modifies e, e.db, e.state, e.acc
    ensures e.Valid()
    ensures left.Out? ==> Says(e.run.a.phase, left.r)
    ensures left.GoOn? ==> Stands(e.run.a, Tools([]), step, msgs, requiredDone, reminded, runs)
  {
    left, msgs, requiredDone, runs := GoOn, msgs0, done, runs0;
    for i := 0 to |calls|
      invariant e.Valid() && Stands(e.run.a, Tools(calls[i..]), step, msgs, requiredDone, reminded, runs)
    {
      ghost var rest := calls[i + 1..];
      assert calls[i..] == [calls[i]] + rest;
      var killed, res;
      killed, res, requiredDone := CallTool(e, calls[i], rest, step, requiredDone);
      if killed {
        left := Out(Came(res));
        return;
      }
      var reply;
      left, reply := RunTool(e, calls[i], rest, runs);
      if left.Out? {
        return;
      }
      msgs, runs := msgs + reply, runs + 1;
    }
    left := GoOn;
  }

  // From the head of the step loop to the model's answer.
  method CallModel(e: Emitter, step: nat, ghost msgs: seq<Message>, ghost requiredDone: bool, ghost reminded: bool, ghost runs: nat)
    returns (left: Left, out: ChatResult)
    requires e.Valid() && step <= Limit(e.s) && Stands(e.run.a, Top, step, msgs, requiredDone, reminded, runs)
    modifies e, e.db, e.state, e.acc
    ensures e.Valid()
    ensures left.Out? ==> Says(e.run.a.phase, left.r)
    ensures left.GoOn? ==> Stands(e.run.a, Got(out), step, msgs, requiredDone, reminded, runs)
  {
    out := ChatResult("", [], 0, 0);
    var killed, res := CheckKilled(e);
    if killed {
      return Out(Came(res)), out;
    }
    if e.s.world.expired(step) {
      res := Res(WallBudget, "", Some("wall"), "raise");
      e.Silently(e.run.a.(phase := Returned(res)));
      return Out(Came(res)), out;
    }
    e.Emit(ModelCalled(step), e.run.a.(phase := Calling, prompts := e.run.a.prompts + [e.run.a.msgs]));
    e.Yield();
    left, out := Chat(e, step);
  }

  method Chat(e: Emitter, step: nat) returns (left: Left, out: ChatResult)
    requires e.Valid() && e.run.a.phase.Calling? && e.run.a.step == step
    modifies e, e.db, e.state, e.acc
    ensures e.Valid()
    ensures left.Out? ==> Says(e.run.a.phase, left.r)
    ensures left.GoOn? ==> e.run.a == old(e.run.a).(phase := Got(out), spent := old(e.run.a).spent + out.prompt + out.completion)
  {
    out := ChatResult("", [], 0, 0);
    ghost var a := e.run.a;
    match e.s.world.reply(step)
    case ModelError(error, hint) =>
      var res := Res(ErrorStop, "", Some(error), hint);
      e.Emit(ModelFailed(step), a.(phase := Returned(res)));
      left := Out(Came(res));
    case Raised(error) =>
      e.Silently(a.(phase := Dead(OtherExn(error))));
      left := Out(Crashed(OtherExn(error)));
    case Answered(answer) =>
      var total := answer.prompt + answer.completion;
      e.Emit(ModelResult(total, answer.prompt, answer.completion), a.(phase := Got(answer), spent := a.spent + total));
      left, out := GoOn, answer;
  }

  // Before the first step: the provider, and a required tool that exists.
  method Prepare(e: Emitter) returns (left: Left)
    requires e.Valid() && e.run.a.phase.Begin?
    modifies e, e.db, e.state, e.acc
    ensures e.Valid()
    ensures left.Out? ==> Says(e.run.a.phase, left.r)
    ensures left.GoOn? ==> e.run.a == old(e.run.a).(phase := Top)
  {
    var s := e.s;
    if s.world.provider.Some? {
      left := Out(Crashed(s.world.provider.value));
      e.Silently(e.run.a.(phase := Dead(s.world.provider.value)));
    } else if s.requireTool.Some? && s.requireTool.value != "" && s.requireTool.value !in s.tools {
      left := Out(Crashed(OtherExn("tool")));
      e.Silently(e.run.a.(phase := Dead(left.r.exn)));
    } else {
      left := GoOn;
      e.Silently(e.run.a.(phase := Top));
    }
  }

  // The model answered before it called the required tool.
  method Guard(e: Emitter, out: ChatResult, step: nat, msgs0: seq<Message>, reminded: bool, ghost runs: nat) returns (left: Left, msgs: seq<Message>)
    requires e.Valid() && out.calls == [] && Stands(e.run.a, Got(out), step, msgs0, false, reminded, runs)
    modifies e, e.db, e.state, e.acc
    ensures e.Valid()
    ensures left.Out? ==> Says(e.run.a.phase, left.r)
    ensures left.GoOn? ==> Stands(e.run.a, Top, step + 1, msgs, false, true, runs)
  {
    ghost var a := e.run.a;
    if reminded {
      var res := Res(ErrorStop, "", Some("refused"), "model");
      left, msgs := Out(Came(res)), msgs0;
      e.Emit(Guardrail(e.s.requireTool, Some("refused")), a.(phase := Returned(res)));
    } else {
      left, msgs := GoOn, msgs0 + [Assistant(out.content, [])] + [Reprompt(e.s)];
      e.Emit(Guardrail(e.s.requireTool, Some("reprompt")), a.(phase := Top, step := step + 1, reminded := true, msgs := msgs));
    }
  }

  method Answer(e: Emitter, out: ChatResult, step: nat) returns (r: Outcome)
    requires e.Valid() && out.calls == [] && e.run.a.phase == Got(out) && e.run.a.requiredDone && e.run.a.step == step
    modifies e, e.db, e.state, e.acc
    ensures e.Valid() && Says(e.run.a.phase, r)
  {
    var error := if e.s.world.unparsable(step) then Some("not JSON") else None;
    var res := Res(Final, out.content, error, "");
    e.Silently(e.run.a.(phase := Returned(res), msgs := e.run.a.msgs + [Assistant(out.content, [])]));
    r := Came(res);
  }

  // The model asked for tools.
  method TakeTools(e: Emitter, out: ChatResult, step: nat, msgs0: seq<Message>, done: bool, ghost reminded: bool, runs0: nat)
    returns (left: Left, msgs: seq<Message>, requiredDone: bool, runs: nat)
    requires e.Valid() && out.calls != [] && Stands(e.run.a, Got(out), step, msgs0, done, reminded, runs0)
    modifies e, e.db, e.state, e.acc
    ensures e.Valid()
    ensures left.Out? ==> Says(e.run.a.phase, left.r)
    ensures left.GoOn? ==> Stands(e.run.a, Top, step + 1, msgs, requiredDone, reminded, runs)
  {
    msgs := msgs0 + [Assistant(out.content, out.calls)];
    e.Silently(e.run.a.(phase := Tools(out.calls), msgs := msgs));
    left, msgs, requiredDone, runs := CallTools(e, out.calls, step, msgs, done, reminded, runs0);
    if left.GoOn? {
      StepOver(e, step, msgs, requiredDone, reminded, runs);
    }
  }

  // All calls are answered: the machine is at the head of the next step.
  ghost method StepOver(e: Emitter, step: nat, msgs: seq<Message>, done: bool, reminded: bool, runs: nat)
    requires e.Valid() && Stands(e.run.a, Tools([]), step, msgs, done, reminded, runs)
    modifies e, e.db, e.state, e.acc
    ensures e.Valid() && Stands(e.run.a, Top, step + 1, msgs, done, reminded, runs)
  {
    e.Silently(e.run.a.(phase := Top, step := step + 1));
  }

  // One round of the step loop.
  method TakeStep(e: Emitter, step: nat, msgs0: seq<Message>, done: bool, reminded0: bool, runs0: nat)
    returns (left: Left, msgs: seq<Message>, requiredDone: bool, reminded: bool, runs: nat)
    requires e.Valid() && step <= Limit(e.s) && Stands(e.run.a, Top, step, msgs0, done, reminded0, runs0)
    modifies e, e.db, e.state, e.acc
    ensures e.Valid()
    ensures left.Out? ==> Says(e.run.a.phase, left.r)
    ensures left.GoOn? ==> Stands(e.run.a, Top, step + 1, msgs, requiredDone, reminded, runs)
  {
    msgs, requiredDone, reminded, runs := msgs0, done, reminded0, runs0;
    var out;
    left, out := CallModel(e, step, msgs, requiredDone, reminded, runs);
    if left.Out? {
      return;
    }
    if out.calls == [] && !requiredDone {
      left, msgs := Guard(e, out, step, msgs, reminded, runs);
      reminded := true;
    } else if out.calls == [] {
      var r := Answer(e, out, step);
      left := Out(r);
    } else {
      left, msgs, requiredDone, runs := TakeTools(e, out, step, msgs, requiredDone, reminded, runs);
    }
  }

  method RunLoop(e: Emitter, upstream: seq<(string, string)>) returns (r: Outcome)
    requires e.Valid() && e.run.a == Init(e.s, upstream)
    modifies e, e.db, e.state, e.acc
    ensures e.Valid() && Says(e.run.a.phase, r)
  {
    var left := Prepare(e);
    if left.Out? {
      return left.r;
    }
    var msgs := e.s.prior + [User(e.s.request + Notes(upstream))];
    var requiredDone := e.s.requireTool.None?;
    var reminded := false;
    var runs := 0;
    for step := 1 to Limit(e.s) + 1
      invariant e.Valid() && Stands(e.run.a, Top, step, msgs, requiredDone, reminded, runs)
    {
      left, msgs, requiredDone, reminded, runs := TakeStep(e, step, msgs, requiredDone, reminded, runs);
      if left.Out? {
        return left.r;
      }
    }
    var res := Res(MaxSteps, "", Some("max_steps"), "raise");
    e.Silently(e.run.a.(phase := Returned(res)));
    r := Came(res);
  }

  // _run_micro: the loop, then agent_finished if the caller wants it. Whatever
  // an operator and the other agents do meanwhile, what this agent logs and
  // what it returns are those of a run of the machine that heeds the shared
  // stop reason, and the books stay balanced.
  method RunMicro(db: Db, state: State, s: Spec, key: string, upstream: seq<(string, string)>, finishEvent: bool, alone: bool,
                  ghost m: Mark, ghost before: seq<Event>)
    returns (r: Outcome, ghost stops: seq<Option<string>>, ghost log: seq<Event>)
    requires Wrote(db, state, m, before) && (state.polite ==> state.stopReason != Some(""))
    modifies db, state
    ensures Wrote(db, state, m, before + log)
    ensures var run := Play(s, Init(s, upstream), stops);
      && Follows(s.id, log, run.kinds, alone)
      && (state.polite ==> Heeded(s, Init(s, upstream), stops, state.stopReason))
      && (if finishEvent && r.Came? then run.a.phase == Ended(r.res) else Says(run.a.phase, r))
  {
    var e := new Emitter(db, state, s, key, alone, upstream, m, before);
    r := RunLoop(e, upstream);
    if finishEvent && r.Came? {
      e.Emit(AgentFinished(if r.res.stopped == Final then "ok" else StoppedName(r.res.stopped),
                           if r.res.stopped == Final then Some(r.res.answer) else None,
                           r.res.error, Some(e.agentTokens)),
             e.run.a.(phase := Ended(r.res)));
    }
    stops, log := e.stops, e.log;
  }
}
