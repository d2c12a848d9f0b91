// Everything one agent's run keeps, gathered from AgentLaws and AgentCards.
module AgentRuns {
  import opened Basics
  import opened Events
  import opened AgentLoop
  import opened Console
  import opened RunState
  import opened AgentLaws
  import opened AgentCards
  import opened Transcript
  import opened TranscriptLaws

  // A card no event of its agent has touched yet.
  predicate Blank(c: Card) {
    && c.steps == [] && c.files == [] && c.tokens == 0
    && c.status == Status.Running && c.answer.None? && c.error.None?
  }

  // What the loop itself keeps: messages, prompts, the guardrail, its result.
  ghost predicate LoopInv(s: Spec, a: Agent) {
    ProtocolInv(a) && PromptInv(s, a) && RequiredInv(s, a) && ExplainInv(a)
  }

  // What the agent's own log entries say: tokens, guardrails, its end.
  ghost predicate LogInv(a: Agent, kinds: seq<Kind>) {
    && a.spent == Tokens(kinds)
    && RepromptInv(a, kinds)
    && Finishes(kinds) == if a.phase.Ended? then 1 else 0
  }

  lemma SpentCalling(s: Spec, a: Agent, stop: Option<string>)
    requires a.phase.Calling?
    ensures var t := NextCalling(s, a, stop);
      t.out != [] ==> |t.out| == 1 && t.a.spent == a.spent + TokensOf(t.out[0])
    ensures NextCalling(s, a, stop).out == [] ==> NextCalling(s, a, stop).a.spent == a.spent
  {
  }

  lemma SpentTools(s: Spec, a: Agent, queue: seq<ToolCall>, stop: Option<string>)
    ensures var t := NextTools(s, a, queue, stop);
      t.a.spent == a.spent && (t.out == [] || (|t.out| == 1 && TokensOf(t.out[0]) == 0))
  {
  }

  lemma SpentAdds(a: Agent, b: Agent, kinds: seq<Kind>, out: seq<Kind>)
    requires a.spent == Tokens(kinds)
    requires out == [] || (|out| == 1 && b.spent == a.spent + TokensOf(out[0]))
    requires out == [] ==> b.spent == a.spent
    ensures b.spent == Tokens(kinds + out)
  {
    if out == [] {
      assert kinds + out == kinds;
    } else {
      assert kinds + out == kinds + [out[0]];
      TokensSnoc(kinds, out[0]);
    }
  }

  lemma SpentStep(s: Spec, a: Agent, stop: Option<string>, kinds: seq<Kind>)
    requires a.spent == Tokens(kinds)
    ensures Next(s, a, stop).a.spent == Tokens(kinds + Next(s, a, stop).out)
  {
    var t := Next(s, a, stop);
    if a.phase.Calling? {
      SpentCalling(s, a, stop);
    } else if a.phase.Tools? {
      SpentTools(s, a, a.phase.queue, stop);
    } else {
      QuietStep(s, a, stop);
    }
    SpentAdds(a, t.a, kinds, t.out);
  }

  lemma FinishesStep(s: Spec, a: Agent, t: Tick, kinds: seq<Kind>)
    requires RequiredInv(s, a) && Finishes(kinds) == (if a.phase.Ended? then 1 else 0)
    requires WellEmitted(a, t) && (t.out == [] ==> (t.a.phase.Ended? <==> a.phase.Ended?))
    requires a.phase.Ended? ==> t.a.phase == a.phase && t.out == []
    ensures Finishes(kinds + t.out) == if t.a.phase.Ended? then 1 else 0
  {
    if t.out == [] {
      assert kinds + t.out == kinds;
    } else {
      assert kinds + t.out == kinds + [t.out[0]];
      FinishesSnoc(kinds, t.out[0]);
    }
  }

  lemma LoopStep(s: Spec, a: Agent, stop: Option<string>)
    requires LoopInv(s, a)
    ensures LoopInv(s, Next(s, a, stop).a)
  {
    ProtocolStep(s, a, stop);
    PromptStep(s, a, stop);
    RequiredStep(s, a, stop);
    ExplainStep(s, a, stop);
  }

  lemma LogStep(s: Spec, a: Agent, stop: Option<string>, kinds: seq<Kind>)
    requires RequiredInv(s, a) && LogInv(a, kinds)
    ensures LogInv(Next(s, a, stop).a, kinds + Next(s, a, stop).out)
  {
    SpentStep(s, a, stop, kinds);
    RepromptStep(s, a, kinds, stop);
    EmittedStep(s, a, stop);
    FinishesStep(s, a, Next(s, a, stop), kinds);
  }

  lemma CardFoldShow(c: Card, kinds: seq<Kind>, out: seq<Kind>)
    requires |out| <= 1
    ensures CardFold(c, kinds + out) == Show(CardFold(c, kinds), out)
  {
    if out == [] {
      assert kinds + out == kinds;
    } else {
      assert kinds + out == kinds + [out[0]];
      CardFoldSnoc(c, kinds, out[0]);
    }
  }

  lemma ShownStep(s: Spec, a: Agent, c: Card, stop: Option<string>, kinds: seq<Kind>)
    requires CardInv(a, CardFold(c, kinds))
    ensures CardInv(Next(s, a, stop).a, CardFold(c, kinds + Next(s, a, stop).out))
  {
    OneEventAStep(s, a, stop);
    CardStep(s, a, CardFold(c, kinds), stop);
    CardFoldShow(c, kinds, Next(s, a, stop).out);
  }

  ghost predicate RunInv(s: Spec, c: Card, a: Agent, kinds: seq<Kind>) {
    LoopInv(s, a) && LogInv(a, kinds) && CardInv(a, CardFold(c, kinds))
  }

  lemma RunInit(s: Spec, c: Card, upstream: seq<(string, string)>)
    requires ToolFree(s.prior) && Blank(c)
    ensures RunInv(s, c, Init(s, upstream), [])
  {
    var a := Init(s, upstream);
    assert ToolFree(a.msgs);
    ToolFreeFollows(a.msgs);
  }

  lemma RunStep(s: Spec, c: Card, a: Agent, stop: Option<string>, kinds: seq<Kind>)
    requires RunInv(s, c, a, kinds)
    ensures RunInv(s, c, Next(s, a, stop).a, kinds + Next(s, a, stop).out)
  {
    LoopStep(s, a, stop);
    LogStep(s, a, stop, kinds);
    ShownStep(s, a, c, stop, kinds);
  }

  // ------------------------------------------------------------ whole runs

  datatype Run = Run(a: Agent, kinds: seq<Kind>)

  // The run of `s` from `a0` in which step k sees the stop reason stops[k].
  function Play(s: Spec, a0: Agent, stops: seq<Option<string>>): Run {
    if stops == [] then Run(a0, [])
    else
      var before := Play(s, a0, stops[..|stops| - 1]);
      var t := Next(s, before.a, stops[|stops| - 1]);
      Run(t.a, before.kinds + t.out)
  }

  lemma PlaySnoc(s: Spec, a0: Agent, stops: seq<Option<string>>, stop: Option<string>)
    ensures var before := Play(s, a0, stops);
      var t := Next(s, before.a, stop);
      Play(s, a0, stops + [stop]) == Run(t.a, before.kinds + t.out)
  {
    assert (stops + [stop])[..|stops|] == stops;
  }

  // No step saw a stop reason withdrawn that an earlier step had left, none
  // saw an empty one, and the reason now standing is `stop`.
  ghost predicate Heeded(s: Spec, a0: Agent, stops: seq<Option<string>>, stop: Option<string>) {
    && stop != Some("")
    && (stops == [] ||
        (&& Heeded(s, a0, stops[..|stops| - 1], stops[|stops| - 1])
         && (Halted(Next(s, Play(s, a0, stops[..|stops| - 1]).a, stops[|stops| - 1]).stop) ==> Halted(stop))))
  }

  lemma HeededSnoc(s: Spec, a0: Agent, stops: seq<Option<string>>, stop: Option<string>, later: Option<string>)
    requires Heeded(s, a0, stops, stop) && later != Some("")
    requires Halted(Next(s, Play(s, a0, stops).a, stop).stop) ==> Halted(later)
    ensures Heeded(s, a0, stops + [stop], later)
  {
    assert (stops + [stop])[..|stops|] == stops;
  }

  lemma HeededLater(s: Spec, a0: Agent, stops: seq<Option<string>>, stop: Option<string>, later: Option<string>)
    requires Heeded(s, a0, stops, stop) && later != Some("") && (Halted(stop) ==> Halted(later))
    ensures Heeded(s, a0, stops, later)
  {
  }

  // Every run of an agent keeps the protocol, the guardrail, its accounts and
  // its card, whatever the stop reasons.
  lemma {:induction false} EveryRun(s: Spec, c: Card, upstream: seq<(string, string)>, stops: seq<Option<string>>)
    requires ToolFree(s.prior) && Blank(c)
    ensures var r := Play(s, Init(s, upstream), stops); RunInv(s, c, r.a, r.kinds)
  {
    if stops == [] {
      RunInit(s, c, upstream);
    } else {
      var front, stop := stops[..|stops| - 1], stops[|stops| - 1];
      EveryRun(s, c, upstream, front);
      var r := Play(s, Init(s, upstream), front);
      RunStep(s, c, r.a, stop, r.kinds);
    }
  }

  // And every run that heeds the shared stop reason is contained.
  lemma {:induction false} HeedingRunIsContained(s: Spec, upstream: seq<(string, string)>, stops: seq<Option<string>>, stop: Option<string>)
    requires Heeded(s, Init(s, upstream), stops, stop)
    ensures var r := Play(s, Init(s, upstream), stops); BudgetInv(s, r.a, r.kinds, stop)
  {
    var a0 := Init(s, upstream);
    if stops == [] {
      BudgetInit(s, upstream, stop);
    } else {
      var front, last := stops[..|stops| - 1], stops[|stops| - 1];
      HeedingRunIsContained(s, upstream, front, last);
      var r := Play(s, a0, front);
      BudgetStep(s, r.a, r.kinds, last);
      GovernedLater(s, Next(s, r.a, last).a, Next(s, r.a, last).stop, stop);
    }
  }

  ghost predicate WellLogged(kinds: seq<Kind>) {
    forall k :: k in kinds ==> AgentKind(k) && Filled(k) && Sums(k)
  }

  lemma WellLoggedMore(kinds: seq<Kind>, a: Agent, t: Tick)
    requires WellLogged(kinds) && WellEmitted(a, t)
    ensures WellLogged(kinds + t.out)
  {
  }

  // All that a run logs is well formed.
  lemma {:induction false} EveryRunEmits(s: Spec, upstream: seq<(string, string)>, stops: seq<Option<string>>)
    requires ToolFree(s.prior)
    ensures WellLogged(Play(s, Init(s, upstream), stops).kinds)
  {
    if stops != [] {
      var front, stop := stops[..|stops| - 1], stops[|stops| - 1];
      EveryRunEmits(s, upstream, front);
      EveryRun(s, NewCard(s.id), upstream, front);
      var before := Play(s, Init(s, upstream), front);
      EmittedStep(s, before.a, stop);
      WellLoggedMore(before.kinds, before.a, Next(s, before.a, stop));
    }
  }

  // What can make an agent's thread die: no provider, a required tool it does
  // not have, or a model or a tool result that raises something unforeseen.
  ghost predicate MayDie(s: Spec) {
    || s.world.provider.Some?
    || (s.requireTool.Some? && s.requireTool.value != "" && s.requireTool.value !in s.tools)
    || (exists n :: s.world.reply(n).Raised?)
    || (exists n :: s.world.tool(n).Unencodable?)
  }

  lemma DeadStep(s: Spec, a: Agent, stop: Option<string>)
    requires a.phase.Dead? ==> MayDie(s)
    ensures Next(s, a, stop).a.phase.Dead? ==> MayDie(s)
  {
    if a.phase.Calling? {
      assert s.world.reply(a.step).Raised? ==> MayDie(s);
    } else if a.phase.Running? {
      assert s.world.tool(a.toolRuns).Unencodable? ==> MayDie(s);
    }
  }

  lemma {:induction false} DeadRun(s: Spec, upstream: seq<(string, string)>, stops: seq<Option<string>>)
    requires Play(s, Init(s, upstream), stops).a.phase.Dead?
    ensures MayDie(s)
  {
    if stops != [] {
      var front := stops[..|stops| - 1];
      if Play(s, Init(s, upstream), front).a.phase.Dead? {
        DeadRun(s, upstream, front);
      }
      DeadStep(s, Play(s, Init(s, upstream), front).a, stops[|stops| - 1]);
    }
  }
}
