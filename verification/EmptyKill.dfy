// kill() takes any text as its reason (plnt/executors/local.py), and an empty
// one stops nobody: it even keeps the budget from stopping the run.
module EmptyKill {
  import opened Basics
  import opened Events
  import opened AgentLoop
  import opened AgentLaws
  import opened AgentRuns

  // ------------------------------------------------------------ kills with a given reason

  // Whoever killed the run while it took these steps gave `reason`; what the
  // steps saw, and the reason that stands now, are otherwise the run's own.
  ghost predicate KilledWith(s: Spec, a0: Agent, stops: seq<Option<string>>, stop: Option<string>, reason: string) {
    if stops == [] then stop == None || stop == Some(reason)
    else
      var front, last := stops[..|stops| - 1], stops[|stops| - 1];
      KilledWith(s, a0, front, last, reason) && (stop == Next(s, Play(s, a0, front).a, last).stop || stop == Some(reason))
  }

  // Reasons that are not empty are heeded.
  lemma {:induction false} NamedReasonsAreHeeded(s: Spec, a0: Agent, stops: seq<Option<string>>, stop: Option<string>, reason: string)
    requires KilledWith(s, a0, stops, stop, reason) && reason != ""
    ensures Heeded(s, a0, stops, stop)
  {
    if stops != [] {
      var front, last := stops[..|stops| - 1], stops[|stops| - 1];
      NamedReasonsAreHeeded(s, a0, front, last, reason);
      StopStays(s, Play(s, a0, front).a, last);
    }
  }

  // ------------------------------------------------------------ an agent that talks too much

  // It must call a tool, answers without one instead, and is over its budget
  // with its first answer.
  ghost predicate Chatterer(s: Spec) {
    && s.world.provider.None? && s.maxSteps >= 2 && !s.world.expired(1) && !s.world.expired(2)
    && s.requireTool.Some? && s.requireTool.value in s.tools
    && s.world.reply(1).Answered? && s.world.reply(1).out.calls == []
    && s.world.reply(1).out.prompt + s.world.reply(1).out.completion > s.budget
    && s.world.reply(2).Answered?
  }

  function Kills(n: nat): (r: seq<Option<string>>)
    ensures |r| == n && forall i :: 0 <= i < n ==> r[i] == Some("")
  {
    if n == 0 then [] else Kills(n - 1) + [Some("")]
  }

  ghost predicate After(s: Spec, n: nat, a: Agent, kinds: seq<Kind>) {
    Play(s, Init(s, []), Kills(n)) == Run(a, kinds)
  }

  // One more step after an empty kill, which it ignores.
  lemma Onward(s: Spec, n: nat, a: Agent, kinds: seq<Kind>) returns (b: Agent, more: seq<Kind>)
    requires After(s, n, a, kinds)
    ensures b == Next(s, a, Some("")).a && more == kinds + Next(s, a, Some("")).out && After(s, n + 1, b, more)
  {
    PlaySnoc(s, Init(s, []), Kills(n), Some(""));
    b, more := Next(s, a, Some("")).a, kinds + Next(s, a, Some("")).out;
  }

  // An answer before the required call is sent back once.
  lemma Reprompts(s: Spec, a: Agent, stop: Option<string>)
    requires a.phase.Got? && a.phase.out.calls == [] && !a.requiredDone && !a.reminded
    ensures var t := Next(s, a, stop);
      t.a.phase == Top && t.a.step == a.step + 1 && t.out == [Guardrail(s.requireTool, Some("reprompt"))]
  {
  }

  lemma CallsModel(s: Spec, a: Agent, stop: Option<string>)
    requires a.phase.Top? && a.step <= Limit(s) && !Halted(stop) && !s.world.expired(a.step)
    ensures var t := Next(s, a, stop);
      t.a.(prompts := []) == a.(phase := Calling, prompts := []) && t.out == [ModelCalled(a.step)]
  {
  }

  lemma Answers(s: Spec, a: Agent, stop: Option<string>, out: ChatResult)
    requires a.phase.Calling? && s.world.reply(a.step) == Answered(out)
    ensures var t := Next(s, a, stop);
      t.a.(spent := 0) == a.(phase := Got(out), spent := 0) && t.out == [ModelResult(out.prompt + out.completion, out.prompt, out.completion)]
  {
  }

  // To the end of the first answer.
  lemma FirstAnswer(s: Spec) returns (a: Agent, kinds: seq<Kind>)
    requires Chatterer(s)
    ensures After(s, 3, a, kinds) && a.phase == Got(s.world.reply(1).out) && a.step == 1 && !a.requiredDone && !a.reminded
    ensures Tokens(kinds) > s.budget
  {
    a, kinds := Init(s, []), [];
    a, kinds := Onward(s, 0, a, kinds);
    assert a == Init(s, []).(phase := Top) && kinds == [];
    CallsModel(s, a, Some(""));
    a, kinds := Onward(s, 1, a, kinds);
    KindsSnoc([], ModelCalled(1));
    assert kinds == [] + [ModelCalled(1)];
    Answers(s, a, Some(""), s.world.reply(1).out);
    var out := Next(s, a, Some("")).out;
    KindsSnoc(kinds, out[0]);
    a, kinds := Onward(s, 2, a, kinds);
  }

  // And on to the second.
  lemma SecondAnswer(s: Spec) returns (a: Agent, kinds: seq<Kind>)
    requires Chatterer(s)
    ensures After(s, 6, a, kinds) && TokensBeforeLast(kinds) > s.budget
  {
    a, kinds := FirstAnswer(s);
    Reprompts(s, a, Some(""));
    KindsSnoc(kinds, Guardrail(s.requireTool, Some("reprompt")));
    a, kinds := Onward(s, 3, a, kinds);
    CallsModel(s, a, Some(""));
    KindsSnoc(kinds, ModelCalled(a.step));
    a, kinds := Onward(s, 4, a, kinds);
    var out := s.world.reply(2).out;
    Answers(s, a, Some(""), out);
    KindsSnoc(kinds, ModelResult(out.prompt + out.completion, out.prompt, out.completion));
    a, kinds := Onward(s, 5, a, kinds);
  }

  // So after kill("") every such agent exceeds its budget before its last call.
  lemma EmptyReasonDefeatsTheBudget(s: Spec)
    requires Chatterer(s)
    ensures !Contained(s, Play(s, Init(s, []), Kills(6)).kinds)
  {
    var a, kinds := SecondAnswer(s);
  }

  lemma {:induction false} EmptyKills(s: Spec, n: nat)
    ensures KilledWith(s, Init(s, []), Kills(n), Some(""), "")
  {
    if n > 0 {
      EmptyKills(s, n - 1);
      assert Kills(n)[..n - 1] == Kills(n - 1);
    }
  }

  lemma SomebodyChatters() returns (s: Spec)
    ensures Chatterer(s)
  {
    var world := World(None, n => Answered(ChatResult("", [], 1, 0)), n => Outcome("", true), n => false, n => false);
    s := Spec("a", SpecInfo("a", None, None, "", [], []), {"t"}, 2, 0, Some("t"), [], "", world);
  }

  ghost predicate AlwaysContained(reason: string) {
    forall s, upstream, stops, stop :: KilledWith(s, Init(s, upstream), stops, stop, reason) ==>
      Contained(s, Play(s, Init(s, upstream), stops).kinds)
  }

  lemma Refuted(reason: string, s: Spec, upstream: seq<(string, string)>, stops: seq<Option<string>>, stop: Option<string>)
    requires KilledWith(s, Init(s, upstream), stops, stop, reason)
    requires !Contained(s, Play(s, Init(s, upstream), stops).kinds)
    ensures !AlwaysContained(reason)
  {
  }

  // All runs of all agents whose operators kill with `reason`, or not at all,
  // are contained exactly when the reason is not empty.
  lemma ContainedIffReasonGiven(reason: string)
    ensures AlwaysContained(reason) <==> reason != ""
  {
    if reason != "" {
      forall s, upstream, stops, stop | KilledWith(s, Init(s, upstream), stops, stop, reason)
        ensures Contained(s, Play(s, Init(s, upstream), stops).kinds)
      {
        NamedReasonsAreHeeded(s, Init(s, upstream), stops, stop, reason);
        HeedingRunIsContained(s, upstream, stops, stop);
      }
    } else {
      var s := SomebodyChatters();
      EmptyKills(s, 6);
      EmptyReasonDefeatsTheBudget(s);
      Refuted(reason, s, [], Kills(6), Some(""));
    }
  }
}
