// What the transcript shows of one agent, step for step of its loop.
module AgentCards {
  import opened Basics
  import opened Events
  import opened AgentLoop
  import opened RunState
  import opened AgentLaws
  import opened Transcript
  import opened Console

  ghost predicate Resolved(steps: seq<Step>) {
    forall i :: 0 <= i < |steps| && steps[i].ToolStep? ==> steps[i].ok.Some?
  }

  // The tool calls a card lists, and the files they touched.
  function StepSigs(steps: seq<Step>): seq<Sig> {
    if steps == [] then []
    else
      var last := steps[|steps| - 1];
      StepSigs(steps[..|steps| - 1]) +
      if last.ToolStep? then [Sig(if last.tool.Some? then last.tool.value else "", last.args)] else []
  }

  function FilesOf(sigs: seq<Sig>): seq<FileTouch> {
    if sigs == [] then []
    else AddFile(FilesOf(sigs[..|sigs| - 1]), FileOf(sigs[|sigs| - 1].tool, sigs[|sigs| - 1].args))
  }

  function StatusFor(s: Stopped): Status {
    match s
    case Final => Done
    case KilledStop => KilledStatus
    case _ => Failed
  }

  ghost predicate StepsInv(a: Agent, c: Card) {
    && StepSigs(c.steps) == a.sigs
    && c.files == FilesOf(a.sigs)
    && if a.phase.Running? then
         && c.steps != []
         && Resolved(c.steps[..|c.steps| - 1])
         && c.steps[|c.steps| - 1] == ToolStep(a.step, Some(a.phase.call.name), a.phase.call.args, None)
       else Resolved(c.steps)
  }

  ghost predicate StatusInv(a: Agent, c: Card) {
    && c.tokens == a.spent
    && match a.phase
       case Returned(res) =>
         if res.stopped == KilledStop then
           c.status == KilledStatus && c.answer.None? && res.error.Some? && res.error.value != ""
         else c.status == Status.Running && c.answer.None? && c.error.None?
       case Ended(res) =>
         && c.status == StatusFor(res.stopped)
         && c.answer == (if res.stopped == Final then Some(res.answer) else None)
         && c.error == (if res.error.Some? && res.error.value != "" then res.error else None)
       case _ => c.status == Status.Running && c.answer.None? && c.error.None?
  }

  function Show(c: Card, out: seq<Kind>): Card {
    if out == [] then c else PyCard(c, out[0])
  }

  lemma StepSigsSnoc(steps: seq<Step>, x: Step)
    ensures StepSigs(steps + [x]) ==
      StepSigs(steps) + if x.ToolStep? then [Sig(if x.tool.Some? then x.tool.value else "", x.args)] else []
  {
    assert (steps + [x])[..|steps|] == steps;
  }

  ghost predicate CardInv(a: Agent, c: Card) {
    StepsInv(a, c) && StatusInv(a, c)
  }

  lemma ShowCall(a: Agent, c: Card, b: Agent, call: ToolCall)
    requires a.phase.Tools? && CardInv(a, c)
    requires b.phase.Running? && b.phase.call == call && b.step == a.step && b.spent == a.spent
    requires b.sigs == a.sigs + [Sig(call.name, call.args)]
    ensures CardInv(b, PyCard(c, ToolCalled(a.step, Some(call.name), call.args)))
  {
    var x := ToolStep(a.step, Some(call.name), call.args, None);
    StepSigsSnoc(c.steps, x);
    assert b.sigs[..|a.sigs|] == a.sigs;
    assert (c.steps + [x])[..|c.steps|] == c.steps;
  }

  lemma ShowIdle(a: Agent, c: Card, b: Agent)
    requires a.phase.Tools? && CardInv(a, c)
    requires b.phase.Top? && b.sigs == a.sigs && b.spent == a.spent
    ensures CardInv(b, c)
  {
  }

  lemma ShowTools(s: Spec, a: Agent, c: Card, stop: Option<string>, t: Tick)
    requires a.phase.Tools? && CardInv(a, c) && t == NextTools(s, a, a.phase.queue, stop)
    ensures CardInv(t.a, Show(c, t.out))
  {
    if a.phase.queue == [] {
      ShowIdle(a, c, t.a);
    } else if Halted(stop) {
      ShowKilled(a, c, t.a, stop);
    } else {
      ShowCall(a, c, t.a, a.phase.queue[0]);
    }
  }

  lemma ShowAnswer(a: Agent, c: Card, b: Agent, ok: bool)
    requires a.phase.Running? && CardInv(a, c)
    requires b.sigs == a.sigs && b.spent == a.spent && (b.phase.Tools? || b.phase.Dead?)
    ensures CardInv(b, PyCard(c, ToolReturned(Some(a.phase.call.name), ok)))
  {
    var front, last := c.steps[..|c.steps| - 1], c.steps[|c.steps| - 1];
    var answered := last.(ok := Some(ok));
    assert c.steps == front + [last];
    StepSigsSnoc(front, last);
    StepSigsSnoc(front, answered);
    assert Resolve(c.steps, Some(a.phase.call.name), ok) == front + [answered];
  }

  lemma ShowRunning(s: Spec, a: Agent, c: Card, stop: Option<string>, t: Tick)
    requires a.phase.Running? && CardInv(a, c) && t == NextRunning(s, a, a.phase.call, a.phase.rest, stop)
    ensures CardInv(t.a, Show(c, t.out))
  {
    ShowAnswer(a, c, t.a, t.out[0].ok);
  }

  lemma ShowGuard(a: Agent, c: Card, b: Agent, k: Kind)
    requires a.phase.Got? && CardInv(a, c) && k.Guardrail?
    requires b.sigs == a.sigs && b.spent == a.spent
    requires b.phase.Top? || (b.phase.Returned? && b.phase.res.stopped == ErrorStop)
    ensures CardInv(b, PyCard(c, k))
  {
    StepSigsSnoc(c.steps, GuardStep(k.tool, k.action));
  }

  lemma ShowGot(s: Spec, a: Agent, c: Card, stop: Option<string>, t: Tick)
    requires a.phase.Got? && CardInv(a, c) && t == NextGot(s, a, a.phase.out, stop)
    ensures CardInv(t.a, Show(c, t.out))
  {
    if t.out != [] {
      ShowGuard(a, c, t.a, t.out[0]);
    }
  }

  // Steps that log nothing a card draws, short of the end of the run.
  lemma ShowNothing(a: Agent, c: Card, b: Agent)
    requires CardInv(a, c) && (a.phase.Begin? || a.phase.Top? || a.phase.Calling?)
    requires b.sigs == a.sigs && b.spent == a.spent && !b.phase.Running? && !b.phase.Ended?
    requires b.phase.Returned? ==> b.phase.res.stopped != KilledStop
    ensures CardInv(b, c)
  {
  }

  lemma ShowKilled(a: Agent, c: Card, b: Agent, stop: Option<string>)
    requires CardInv(a, c) && (a.phase.Top? || a.phase.Tools?) && stop.Some?
    requires b.sigs == a.sigs && b.spent == a.spent && b.phase == Returned(KilledRes(stop))
    ensures CardInv(b, PyCard(c, Killed(stop)))
  {
  }

  lemma ShowTop(s: Spec, a: Agent, c: Card, stop: Option<string>, t: Tick)
    requires a.phase.Top? && CardInv(a, c) && t == NextTop(s, a, stop)
    ensures CardInv(t.a, Show(c, t.out))
  {
    if a.step <= Limit(s) && Halted(stop) {
      ShowKilled(a, c, t.a, stop);
    } else {
      ShowNothing(a, c, t.a);
    }
  }

  lemma ShowResult(a: Agent, c: Card, b: Agent, k: Kind)
    requires CardInv(a, c) && a.phase.Calling? && k.ModelResult?
    requires b.sigs == a.sigs && b.spent == a.spent + k.tokens && b.phase.Got?
    ensures CardInv(b, PyCard(c, k))
  {
  }

  lemma ShowCalling(s: Spec, a: Agent, c: Card, stop: Option<string>, t: Tick)
    requires a.phase.Calling? && CardInv(a, c) && t == NextCalling(s, a, stop)
    ensures CardInv(t.a, Show(c, t.out))
  {
    if s.world.reply(a.step).Answered? {
      ShowResult(a, c, t.a, t.out[0]);
    } else {
      ShowNothing(a, c, t.a);
    }
  }

  lemma ShowReturned(a: Agent, c: Card, b: Agent, k: Kind)
    requires a.phase.Returned? && CardInv(a, c)
    requires b == a.(phase := Ended(a.phase.res)) && k == FinishedEvent(a, a.phase.res)
    ensures CardInv(b, PyCard(c, k))
  {
  }

  lemma CardEarly(s: Spec, a: Agent, c: Card, stop: Option<string>, t: Tick)
    requires CardInv(a, c) && t == Next(s, a, stop) && (a.phase.Begin? || a.phase.Top? || a.phase.Calling?)
    ensures CardInv(t.a, Show(c, t.out))
  {
    if a.phase.Top? {
      ShowTop(s, a, c, stop, t);
    } else if a.phase.Calling? {
      ShowCalling(s, a, c, stop, t);
    } else {
      ShowNothing(a, c, t.a);
    }
  }

  lemma CardLate(s: Spec, a: Agent, c: Card, stop: Option<string>, t: Tick)
    requires CardInv(a, c) && t == Next(s, a, stop) && (a.phase.Got? || a.phase.Tools? || a.phase.Running?)
    ensures CardInv(t.a, Show(c, t.out))
  {
    if a.phase.Got? {
      ShowGot(s, a, c, stop, t);
    } else if a.phase.Tools? {
      ShowTools(s, a, c, stop, t);
    } else {
      ShowRunning(s, a, c, stop, t);
    }
  }

  // The card follows the loop: every call listed in order and answered except
  // the one now running, its files, its tokens, its status and its answer.
  lemma CardStep(s: Spec, a: Agent, c: Card, stop: Option<string>)
    requires CardInv(a, c)
    ensures CardInv(Next(s, a, stop).a, Show(c, Next(s, a, stop).out))
  {
    var t := Next(s, a, stop);
    if a.phase.Begin? || a.phase.Top? || a.phase.Calling? {
      CardEarly(s, a, c, stop, t);
    } else if a.phase.Got? || a.phase.Tools? || a.phase.Running? {
      CardLate(s, a, c, stop, t);
    } else if a.phase.Returned? {
      ShowReturned(a, c, t.a, t.out[0]);
    }
  }

  // The files of a card are those its calls touch, each once.
  lemma {:induction false} FilesAreTouched(sigs: seq<Sig>)
    ensures forall f :: f in FilesOf(sigs) <==> exists i :: 0 <= i < |sigs| && FileOf(sigs[i].tool, sigs[i].args) == Some(f)
    ensures forall i, j :: 0 <= i < j < |FilesOf(sigs)| ==> FilesOf(sigs)[i] != FilesOf(sigs)[j]
  {
    if sigs != [] {
      var n := |sigs| - 1;
      FilesAreTouched(sigs[..n]);
      var touched := FileOf(sigs[n].tool, sigs[n].args);
      forall f
        ensures f in FilesOf(sigs) <==> exists i :: 0 <= i < |sigs| && FileOf(sigs[i].tool, sigs[i].args) == Some(f)
      {
        if f in FilesOf(sigs[..n]) {
          var i :| 0 <= i < n && FileOf(sigs[..n][i].tool, sigs[..n][i].args) == Some(f);
          assert FileOf(sigs[i].tool, sigs[i].args) == Some(f);
        }
        if exists i :: 0 <= i < |sigs| && FileOf(sigs[i].tool, sigs[i].args) == Some(f) {
          var i :| 0 <= i < |sigs| && FileOf(sigs[i].tool, sigs[i].args) == Some(f);
          if i < n {
            assert FileOf(sigs[..n][i].tool, sigs[..n][i].args) == Some(f);
          }
        }
      }
    }
  }

  // ------------------------------------------------------------ what is emitted

  function Finishes(kinds: seq<Kind>): nat {
    if kinds == [] then 0 else Finishes(kinds[..|kinds| - 1]) + if kinds[|kinds| - 1].AgentFinished? then 1 else 0
  }

  lemma FinishesSnoc(kinds: seq<Kind>, k: Kind)
    ensures Finishes(kinds + [k]) == Finishes(kinds) + if k.AgentFinished? then 1 else 0
  {
    assert (kinds + [k])[..|kinds|] == kinds;
  }

  // What each step logs: fields filled in, and agent_finished once, at the
  // end, with the tokens spent.
  ghost predicate WellEmitted(a: Agent, t: Tick) {
    t.out == [] ||
    (&& |t.out| == 1 && AgentKind(t.out[0]) && Filled(t.out[0]) && Sums(t.out[0])
     && (t.out[0].AgentFinished? ==> t.out[0].total == Some(a.spent))
     && (t.out[0].AgentFinished? <==> t.a.phase.Ended? && !a.phase.Ended?))
  }

  lemma EmittedTop(s: Spec, a: Agent, stop: Option<string>)
    ensures a.phase.Top? ==> WellEmitted(a, NextTop(s, a, stop))
  {
  }

  lemma EmittedCalling(s: Spec, a: Agent, stop: Option<string>)
    ensures a.phase.Calling? ==> WellEmitted(a, NextCalling(s, a, stop))
  {
  }

  lemma EmittedGot(s: Spec, a: Agent, stop: Option<string>)
    requires a.phase.Got? && RequiredInv(s, a)
    ensures WellEmitted(a, NextGot(s, a, a.phase.out, stop))
  {
  }

  lemma EmittedTools(s: Spec, a: Agent, stop: Option<string>)
    requires a.phase.Tools?
    ensures WellEmitted(a, NextTools(s, a, a.phase.queue, stop))
  {
  }

  lemma EmittedRunning(s: Spec, a: Agent, stop: Option<string>)
    requires a.phase.Running?
    ensures WellEmitted(a, NextRunning(s, a, a.phase.call, a.phase.rest, stop))
  {
  }

  lemma EmittedStep(s: Spec, a: Agent, stop: Option<string>)
    requires RequiredInv(s, a)
    ensures WellEmitted(a, Next(s, a, stop))
    ensures Next(s, a, stop).out == [] ==> (Next(s, a, stop).a.phase.Ended? <==> a.phase.Ended?)
  {
    match a.phase {
      case Top => EmittedTop(s, a, stop);
      case Calling => EmittedCalling(s, a, stop);
      case Got(_) => EmittedGot(s, a, stop);
      case Tools(_) => EmittedTools(s, a, stop);
      case Running(_, _) => EmittedRunning(s, a, stop);
      case _ =>
    }
  }
}
