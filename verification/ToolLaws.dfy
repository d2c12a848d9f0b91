// What comes of a run of an agent (plnt/agent/loop.py): how its tool calls are
// answered, how long it goes on, why it ends as it does, and what it is told.
module ToolLaws {
  import opened Basics
  import opened Events
  import opened AgentLoop
  import opened AgentLaws
  import opened AgentRuns
  import Transcript

  // The part is somewhere in the text.
  ghost predicate Holds(text: string, part: string) {
    exists a, b :: text == a + part + b
  }

  // The call names a tool the agent has, and its arguments could be read.
  predicate Runs(s: Spec, call: ToolCall) {
    (call.parseError.None? || call.parseError.value == "") && call.name in s.tools
  }

  // What the model is told of a call for which no tool is run: what is wrong
  // with its arguments, or else that there is no tool of that name.
  ghost predicate NoToolSays(call: ToolCall, error: string) {
    && error != ""
    && (call.parseError.Some? && call.parseError != Some("") ==> error == call.parseError.value)
    && (call.parseError.None? || call.parseError == Some("") ==> Holds(error, call.name))
  }

  // Between these two moments of a run the call was answered: with what the
  // n-th tool run returned, or with an error that keeps the run going.
  ghost predicate Answers(s: Spec, call: ToolCall, rest: seq<ToolCall>, before: Run, after: Run) {
    var outcome := s.world.tool(before.a.toolRuns);
    if !Runs(s, call) then
      && after.kinds == before.kinds + [ToolReturned(Some(call.name), false)]
      && after.a.phase == Tools(rest)
      && exists error: string :: NoToolSays(call, error) && after.a.msgs == before.a.msgs + [ToolMessage(call.id, call.name, error)]
    else
      && after.kinds == before.kinds + [ToolReturned(Some(call.name), outcome.ok)]
      && (outcome.Outcome? ==>
            && after.a.phase == Tools(rest)
            && after.a.msgs == before.a.msgs + [ToolMessage(call.id, call.name, outcome.content)])
      && (outcome.Unencodable? ==> after.a.phase.Dead? && after.a.msgs == before.a.msgs)
  }

  lemma AnswerStep(s: Spec, a: Agent, stop: Option<string>, kinds: seq<Kind>)
    requires a.phase.Running?
    ensures var t := Next(s, a, stop); Answers(s, a.phase.call, a.phase.rest, Run(a, kinds), Run(t.a, kinds + t.out))
  {
    var call := a.phase.call;
    var r := ToolResult(s, call, a.toolRuns);
    if !Runs(s, call) {
      assert r.Outcome? && NoToolSays(call, r.content) && !r.ok by {
        UnknownIsNamed(call.name);
      }
    }
  }

  lemma UnknownIsNamed(name: string)
    ensures "unknown " + name != "" && Holds("unknown " + name, name)
  {
    assert ("unknown " + name)[0] == 'u';
    AddNothing("unknown " + name);
  }

  // In every run, every call that is carried out is answered so.
  lemma CallsAreAnswered(s: Spec, upstream: seq<(string, string)>, stops: seq<Option<string>>, stop: Option<string>)
    requires Play(s, Init(s, upstream), stops).a.phase.Running?
    ensures var before := Play(s, Init(s, upstream), stops);
      Answers(s, before.a.phase.call, before.a.phase.rest, before, Play(s, Init(s, upstream), stops + [stop]))
  {
    var before := Play(s, Init(s, upstream), stops);
    PlaySnoc(s, Init(s, upstream), stops, stop);
    AnswerStep(s, before.a, stop, before.kinds);
  }

  // ------------------------------------------------------------ how long an agent goes on

  // At the head of its step loop an agent has called its model once for every
  // step behind it.
  ghost predicate StepsInv(s: Spec, a: Agent) {
    match a.phase
    case Begin => |a.prompts| == a.step - 1 && a.step == 1
    case Top => |a.prompts| == a.step - 1
    case Calling => |a.prompts| == a.step
    case Got(_) => |a.prompts| == a.step
    case Tools(_) => |a.prompts| == a.step
    case Running(_, _) => |a.prompts| == a.step
    case Returned(res) => res.stopped == MaxSteps ==> UsedUp(s, a)
    case Ended(res) => res.stopped == MaxSteps ==> UsedUp(s, a)
    case _ => true
  }

  ghost predicate UsedUp(s: Spec, a: Agent) {
    |a.prompts| >= s.maxSteps && |a.prompts| >= 1
  }

  lemma StepsTop(s: Spec, a: Agent, stop: Option<string>)
    requires a.phase.Top? && StepsInv(s, a)
    ensures StepsInv(s, NextTop(s, a, stop).a)
  {
  }

  lemma StepsGot(s: Spec, a: Agent, stop: Option<string>)
    requires a.phase.Got? && StepsInv(s, a)
    ensures StepsInv(s, NextGot(s, a, a.phase.out, stop).a)
  {
  }

  lemma StepsTools(s: Spec, a: Agent, stop: Option<string>)
    requires (a.phase.Tools? || a.phase.Running? || a.phase.Calling?) && StepsInv(s, a)
    ensures StepsInv(s, Next(s, a, stop).a)
  {
  }

  lemma StepsStep(s: Spec, a: Agent, stop: Option<string>)
    requires StepsInv(s, a)
    ensures StepsInv(s, Next(s, a, stop).a)
  {
    match a.phase {
      case Top => StepsTop(s, a, stop);
      case Got(_) => StepsGot(s, a, stop);
      case Tools(_) => StepsTools(s, a, stop);
      case Running(_, _) => StepsTools(s, a, stop);
      case Calling => StepsTools(s, a, stop);
      case _ =>
    }
  }

  lemma {:induction false} EveryRunSteps(s: Spec, upstream: seq<(string, string)>, stops: seq<Option<string>>)
    ensures StepsInv(s, Play(s, Init(s, upstream), stops).a)
  {
    if stops != [] {
      EveryRunSteps(s, upstream, stops[..|stops| - 1]);
      StepsStep(s, Play(s, Init(s, upstream), stops[..|stops| - 1]).a, stops[|stops| - 1]);
    }
  }

  // An agent never calls its model more than max(1, max_steps) times, and
  // "max_steps" is reported only after exactly as many calls.
  lemma StepLimit(s: Spec, upstream: seq<(string, string)>, stops: seq<Option<string>>)
    requires ToolFree(s.prior)
    ensures var a := Play(s, Init(s, upstream), stops).a;
      && |a.prompts| <= (if s.maxSteps > 1 then s.maxSteps else 1)
      && ((a.phase.Returned? || a.phase.Ended?) && a.phase.res.stopped == MaxSteps ==>
            |a.prompts| == if s.maxSteps > 1 then s.maxSteps else 1)
  {
    EveryRun(s, Transcript.NewCard(s.id), upstream, stops);
    EveryRunSteps(s, upstream, stops);
  }

  // ------------------------------------------------------------ why an agent ended so

  // Every call of the model was made in time.
  ghost predicate InTime(s: Spec, a: Agent) {
    forall n: nat :: 1 <= n <= |a.prompts| ==> !s.world.expired(n)
  }

  // What the model's last answer, and the clock, have to do with the result.
  ghost predicate Because(s: Spec, a: Agent, res: Res) {
    var last := s.world.reply(|a.prompts|);
    match res.stopped
    case Final =>
      && last.Answered? && last.out.calls == [] && res.answer == last.out.content
      && (res.error.Some? <==> s.world.unparsable(|a.prompts|))
    case ErrorStop =>
      if last.ModelError? then res.error == Some(last.error) && res.hint == last.hint
      else last.Answered? && last.out.calls == [] && !a.requiredDone && a.reminded
    case WallBudget => s.world.expired(|a.prompts| + 1)
    case _ => true
  }

  ghost predicate EndInv(s: Spec, a: Agent) {
    InTime(s, a) &&
    match a.phase
    case Got(out) => s.world.reply(a.step) == ModelReply.Answered(out)
    case Returned(res) => Because(s, a, res)
    case Ended(res) => Because(s, a, res)
    case _ => true
  }

  lemma EndTop(s: Spec, a: Agent, stop: Option<string>)
    requires a.phase.Top? && StepsInv(s, a) && EndInv(s, a)
    ensures EndInv(s, NextTop(s, a, stop).a)
  {
  }

  lemma EndCalling(s: Spec, a: Agent, stop: Option<string>)
    requires a.phase.Calling? && StepsInv(s, a) && EndInv(s, a)
    ensures EndInv(s, NextCalling(s, a, stop).a)
  {
  }

  lemma EndGot(s: Spec, a: Agent, stop: Option<string>)
    requires a.phase.Got? && StepsInv(s, a) && EndInv(s, a)
    ensures EndInv(s, NextGot(s, a, a.phase.out, stop).a)
  {
  }

  lemma EndTools(s: Spec, a: Agent, stop: Option<string>)
    requires (a.phase.Tools? || a.phase.Running?) && EndInv(s, a)
    ensures EndInv(s, Next(s, a, stop).a)
  {
  }

  lemma EndStep(s: Spec, a: Agent, stop: Option<string>)
    requires StepsInv(s, a) && EndInv(s, a)
    ensures EndInv(s, Next(s, a, stop).a)
  {
    match a.phase {
      case Top => EndTop(s, a, stop);
      case Calling => EndCalling(s, a, stop);
      case Got(_) => EndGot(s, a, stop);
      case Tools(_) => EndTools(s, a, stop);
      case Running(_, _) => EndTools(s, a, stop);
      case _ =>
    }
  }

  // In every run: the model is never called after the deadline; an agent that
  // ends "final" answers what its model said last, an error says what the model
  // failed with, unless it is the guardrail's, and "wall_budget" is only
  // reported past the deadline.
  lemma {:induction false} EndsBecause(s: Spec, upstream: seq<(string, string)>, stops: seq<Option<string>>)
    ensures EndInv(s, Play(s, Init(s, upstream), stops).a)
  {
    if stops != [] {
      var front := stops[..|stops| - 1];
      EndsBecause(s, upstream, front);
      EveryRunSteps(s, upstream, front);
      EndStep(s, Play(s, Init(s, upstream), front).a, stops[|stops| - 1]);
    }
  }

  // ------------------------------------------------------------ who is stopped

  // An agent is stopped at the head of a step or before a tool call, exactly
  // when the run has a reason to stop; its log and its error give that reason.
  lemma StoppedForReason(s: Spec, a: Agent, stop: Option<string>)
    requires (a.phase.Top? && a.step <= Limit(s)) || (a.phase.Tools? && a.phase.queue != [])
    ensures var t := Next(s, a, stop);
      if stop.Some? && stop.value != "" then
        && t.out == [Killed(stop)] && t.a.phase.Returned? && t.a.msgs == a.msgs && t.a.toolRuns == a.toolRuns
        && t.a.phase.res.stopped == KilledStop && t.a.phase.res.answer == ""
        && t.a.phase.res.error.Some? && Holds(t.a.phase.res.error.value, stop.value)
      else !(t.a.phase.Returned? && t.a.phase.res.stopped == KilledStop)
  {
    if Halted(stop) {
      AddNothing("stopped: " + stop.value);
    }
  }

  // ------------------------------------------------------------ what an agent is told first

  lemma HoldsMore(text: string, part: string, more: string)
    requires Holds(text, part)
    ensures Holds(text + more, part)
  {
    var a, b :| text == a + part + b;
    assert text + more == a + part + (b + more);
  }

  lemma {:induction false} NotesHold(upstream: seq<(string, string)>, i: nat)
    requires i < |upstream|
    ensures Holds(Notes(upstream), "[" + upstream[i].0 + "]: " + upstream[i].1)
  {
    var n := |upstream| - 1;
    var front := Notes(upstream[..n]);
    var last := "[" + upstream[n].0 + "]: " + upstream[n].1;
    assert Notes(upstream) == front + "\n\n" + last + "";
    if i < n {
      NotesHold(upstream[..n], i);
      HoldsMore(front, "[" + upstream[i].0 + "]: " + upstream[i].1, "\n\n" + last);
      assert front + ("\n\n" + last) == Notes(upstream);
    }
  }

  // The list an agent starts from: the history, then the request with a note
  // on each dependency.
  lemma StartsFrom(s: Spec, upstream: seq<(string, string)>)
    ensures var msgs := Init(s, upstream).msgs;
      && |msgs| == |s.prior| + 1 && msgs[..|s.prior|] == s.prior && msgs[|s.prior|].User?
      && s.request <= msgs[|s.prior|].content
      && (upstream == [] ==> msgs[|s.prior|].content == s.request)
      && forall i :: 0 <= i < |upstream| ==> Holds(msgs[|s.prior|].content, "[" + upstream[i].0 + "]: " + upstream[i].1)
  {
    forall i | 0 <= i < |upstream|
      ensures Holds(s.request + Notes(upstream), "[" + upstream[i].0 + "]: " + upstream[i].1)
    {
      NotesHold(upstream, i);
      var a, b :| Notes(upstream) == a + ("[" + upstream[i].0 + "]: " + upstream[i].1) + b;
      assert s.request + Notes(upstream) == (s.request + a) + ("[" + upstream[i].0 + "]: " + upstream[i].1) + b;
    }
  }

  // An agent never forgets where it started: every prompt it sends begins so.
  ghost predicate Recalls(start: seq<Message>, a: Agent) {
    start <= a.msgs && forall p :: p in a.prompts ==> start <= p
  }

  lemma {:induction false} EveryPromptRecalls(s: Spec, upstream: seq<(string, string)>, stops: seq<Option<string>>)
    ensures Recalls(Init(s, upstream).msgs, Play(s, Init(s, upstream), stops).a)
  {
    if stops != [] {
      var n := |stops| - 1;
      EveryPromptRecalls(s, upstream, stops[..n]);
      RecallsStep(s, Init(s, upstream).msgs, Play(s, Init(s, upstream), stops[..n]).a, stops[n]);
    }
  }

  lemma RecallsStep(s: Spec, start: seq<Message>, a: Agent, stop: Option<string>)
    requires Recalls(start, a)
    ensures Recalls(start, Next(s, a, stop).a)
  {
    SaysMore(s, a, stop);
  }

  // A step adds to the messages, and passes them on as they are to the model.
  lemma SaysMore(s: Spec, a: Agent, stop: Option<string>)
    ensures a.msgs <= Next(s, a, stop).a.msgs
    ensures Next(s, a, stop).a.prompts == a.prompts || Next(s, a, stop).a.prompts == a.prompts + [a.msgs]
  {
    match a.phase {
      case Top => TopSays(s, a, stop);
      case Got(out) => GotSays(s, a, out, stop);
      case Running(call, rest) => RunningSays(s, a, call, rest, stop);
      case Tools(queue) => ToolsSay(s, a, queue, stop);
      case _ =>
    }
  }

  lemma TopSays(s: Spec, a: Agent, stop: Option<string>)
    ensures var b := NextTop(s, a, stop).a; b.msgs == a.msgs && (b.prompts == a.prompts || b.prompts == a.prompts + [a.msgs])
  {
  }

  lemma GotSays(s: Spec, a: Agent, out: ChatResult, stop: Option<string>)
    ensures var b := NextGot(s, a, out, stop).a; a.msgs <= b.msgs && b.prompts == a.prompts
  {
  }

  lemma RunningSays(s: Spec, a: Agent, call: ToolCall, rest: seq<ToolCall>, stop: Option<string>)
    ensures var b := NextRunning(s, a, call, rest, stop).a; a.msgs <= b.msgs && b.prompts == a.prompts
  {
  }

  lemma ToolsSay(s: Spec, a: Agent, queue: seq<ToolCall>, stop: Option<string>)
    ensures var b := NextTools(s, a, queue, stop).a; b.msgs == a.msgs && b.prompts == a.prompts
  {
  }

  // The reprompt names the tool that has to be called.
  lemma RepromptNames(s: Spec)
    requires s.requireTool.Some?
    ensures Reprompt(s).User? && Holds(Reprompt(s).content, s.requireTool.value)
  {
    assert Reprompt(s).content == "Call " + s.requireTool.value + " now.";
  }
}
