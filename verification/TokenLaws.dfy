// Tokens in a folded turn: every card shows what its agent used, the cards and
// the parent together account for every model call, and the console agrees.
module TokenLaws {
  import opened Basics
  import opened Events
  import opened Transcript
  import opened Console

  // The fold files an agent's events under its card unless it is nobody or the parent.
  predicate Filed(id: string) {
    id != "" && id != PARENT
  }

  // Every agent_finished reports what its agent's model_results add up to.
  ghost predicate HonestTotal(log: seq<Event>, e: Event) {
    e.kind.AgentFinished? && e.kind.total.Some? && Filed(e.agentId) ==>
      e.kind.total.value == Tokens(Own(log, e.agentId))
  }

  ghost predicate Honest(log: seq<Event>) {
    log != [] ==> Honest(log[..|log| - 1]) && HonestTotal(log[..|log| - 1], log[|log| - 1])
  }

  lemma HonestSnoc(log: seq<Event>, e: Event)
    requires Honest(log) && HonestTotal(log, e)
    ensures Honest(log + [e])
  {
    assert (log + [e])[..|log|] == log;
  }

  // ------------------------------------------------------------ one card

  ghost predicate TotalMatches(t: Turn, e: Event) {
    e.kind.AgentFinished? && e.kind.total.Some? && Filed(e.agentId) ==>
      e.kind.total.value == CardOf(t, e.agentId).tokens
  }

  function Share(e: Event, id: string): int {
    if e.agentId == id then TokensOf(e.kind) else 0
  }

  lemma PlacedCard(cards: seq<Card>, at: string, c: Card, id: string)
    requires c.id == at
    ensures var r := Ensure(cards, at)[Find(cards, at) := c];
      Ensure(r, id)[Find(r, id)].tokens == if id == at then c.tokens else Ensure(cards, id)[Find(cards, id)].tokens
  {
    var known := Ensure(cards, at);
    if Find(cards, at) == |cards| {
      FindSnoc(cards, NewCard(at), at);
      FindSnoc(cards, NewCard(at), id);
    }
    FindSame(known, known[Find(cards, at) := c], id);
    FindSame(known, known[Find(cards, at) := c], at);
  }

  lemma EndingKeepsTokens(t: Turn, k: Kind, id: string)
    ensures CardOf(PyEnding(t, k), id).tokens == CardOf(t, id).tokens
  {
    FindSame(t.agents, PyEnding(t, k).agents, id);
  }

  lemma SpawnTokens(t: Turn, e: Event, id: string)
    requires e.kind.AgentSpawned?
    ensures CardOf(PyCards(t, e), id).tokens == CardOf(t, id).tokens
  {
    var at := SpawnId(e);
    PlacedCard(t.agents, at, Spawn(CardOf(t, at), e.kind.spec), id);
  }

  lemma OneCardTokens(c: Card, k: Kind)
    requires k.AgentFinished? && k.total.Some? ==> k.total.value == c.tokens
    ensures PyCard(c, k).tokens == c.tokens + TokensOf(k) && PyCard(c, k).id == c.id
  {
  }

  lemma TouchTokens(t: Turn, e: Event, id: string)
    requires TotalMatches(t, e) && Filed(e.agentId)
    ensures var cards := PyTouch(t.agents, e.agentId, e.kind);
      Ensure(cards, id)[Find(cards, id)].tokens == CardOf(t, id).tokens + Share(e, id)
  {
    OneCardTokens(CardOf(t, e.agentId), e.kind);
    PlacedCard(t.agents, e.agentId, PyCard(CardOf(t, e.agentId), e.kind), id);
  }

  lemma CardsTokens(t: Turn, e: Event, id: string)
    requires Filed(id) && TotalMatches(t, e)
    ensures CardOf(PyCards(t, e), id).tokens == CardOf(t, id).tokens + Share(e, id)
  {
    if e.kind.ParentDecision? {
    } else if e.kind.AgentSpawned? {
      SpawnTokens(t, e, id);
    } else if OpensSingle(t, e.kind) {
    } else if Filed(e.agentId) {
      TouchTokens(t, e, id);
    }
  }

  lemma StepTokens(t: Turn, e: Event, id: string)
    requires Filed(id) && TotalMatches(t, e)
    ensures CardOf(PyStep(t, e), id).tokens == CardOf(t, id).tokens + Share(e, id)
  {
    EndingKeepsTokens(PyCards(t, e), e.kind, id);
    CardsTokens(t, e, id);
  }

  lemma OwnTokensSnoc(log: seq<Event>, e: Event, id: string)
    ensures Tokens(Own(log + [e], id)) == Tokens(Own(log, id)) + Share(e, id)
  {
    OwnSnoc(log, e, id);
    if e.agentId == id {
      TokensSnoc(Own(log, id), e.kind);
    } else {
      assert Own(log + [e], id) == Own(log, id);
    }
  }

  lemma {:induction false} CardTokens(text: string, log: seq<Event>, id: string)
    requires Honest(log) && Filed(id)
    ensures CardOf(PyTurn(NewTurn(text), log), id).tokens == Tokens(Own(log, id))
    decreases |log|, 0
  {
    if log != [] {
      var front, e := log[..|log| - 1], log[|log| - 1];
      assert log == front + [e];
      CardTokens(text, front, id);
      HonestMatches(text, front, e);
      StepTokens(PyTurn(NewTurn(text), front), e, id);
      OwnTokensSnoc(front, e, id);
    }
  }

  lemma HonestMatches(text: string, log: seq<Event>, e: Event)
    requires Honest(log) && HonestTotal(log, e)
    ensures TotalMatches(PyTurn(NewTurn(text), log), e)
    decreases |log|, 1
  {
    if Filed(e.agentId) {
      CardTokens(text, log, e.agentId);
    }
  }

  // ------------------------------------------------------------ the whole turn

  function CardSum(cards: seq<Card>): int {
    if cards == [] then 0 else CardSum(cards[..|cards| - 1]) + cards[|cards| - 1].tokens
  }

  lemma CardSumSnoc(cards: seq<Card>, c: Card)
    ensures CardSum(cards + [c]) == CardSum(cards) + c.tokens
  {
    assert (cards + [c])[..|cards|] == cards;
  }

  lemma {:induction false} CardSumUpdate(cards: seq<Card>, i: nat, c: Card)
    requires i < |cards|
    ensures CardSum(cards[i := c]) == CardSum(cards) - cards[i].tokens + c.tokens
  {
    var front, last := cards[..|cards| - 1], cards[|cards| - 1];
    if i == |front| {
      assert cards[i := c] == front + [c];
      CardSumSnoc(front, c);
    } else {
      assert cards[i := c] == front[i := c] + [last];
      CardSumSnoc(front[i := c], last);
      CardSumUpdate(front, i, c);
    }
  }

  lemma {:induction false} CardSumSame(a: seq<Card>, b: seq<Card>)
    requires |a| == |b| && forall i :: 0 <= i < |a| ==> a[i].tokens == b[i].tokens
    ensures CardSum(a) == CardSum(b)
  {
    if a != [] {
      CardSumSame(a[..|a| - 1], b[..|b| - 1]);
    }
  }

  lemma PlacedSum(t: Turn, at: string, c: Card)
    ensures CardSum(Ensure(t.agents, at)[Find(t.agents, at) := c]) ==
      CardSum(t.agents) - CardOf(t, at).tokens + c.tokens
  {
    if Find(t.agents, at) == |t.agents| {
      CardSumSnoc(t.agents, NewCard(at));
    }
    CardSumUpdate(Ensure(t.agents, at), Find(t.agents, at), c);
  }

  lemma TouchSum(t: Turn, e: Event)
    requires TotalMatches(t, e) && Filed(e.agentId)
    ensures CardSum(PyTouch(t.agents, e.agentId, e.kind)) == CardSum(t.agents) + TokensOf(e.kind)
  {
    OneCardTokens(CardOf(t, e.agentId), e.kind);
    PlacedSum(t, e.agentId, PyCard(CardOf(t, e.agentId), e.kind));
  }

  lemma SpawnSum(t: Turn, e: Event)
    requires e.kind.AgentSpawned?
    ensures CardSum(SpawnIn(t.agents, SpawnId(e), e.kind.spec)) == CardSum(t.agents)
  {
    PlacedSum(t, SpawnId(e), Spawn(CardOf(t, SpawnId(e)), e.kind.spec));
  }

  lemma CardsSum(t: Turn, e: Event)
    requires TotalMatches(t, e)
    ensures CardSum(PyCards(t, e).agents) ==
      CardSum(t.agents) + if Filed(e.agentId) then TokensOf(e.kind) else 0
  {
    if e.kind.ParentDecision? {
    } else if e.kind.AgentSpawned? {
      SpawnSum(t, e);
    } else if OpensSingle(t, e.kind) {
      assert PyCards(t, e).agents[..0] == [];
    } else if Filed(e.agentId) {
      TouchSum(t, e);
    }
  }

  lemma EndingTokens(t: Turn, k: Kind)
    ensures |PyEnding(t, k).agents| == |t.agents|
    ensures forall i :: 0 <= i < |t.agents| ==> PyEnding(t, k).agents[i].tokens == t.agents[i].tokens
  {
  }

  lemma StepSum(t: Turn, e: Event)
    requires TotalMatches(t, e)
    ensures CardSum(PyStep(t, e).agents) ==
      CardSum(t.agents) + if Filed(e.agentId) then TokensOf(e.kind) else 0
  {
    CardsSum(t, e);
    EndingTokens(PyCards(t, e), e.kind);
    CardSumSame(PyCards(t, e).agents, PyEnding(PyCards(t, e), e.kind).agents);
  }

  // Conservation: the cards hold every token no card-less writer used.
  lemma {:induction false} CardsHoldAllTokens(text: string, log: seq<Event>)
    requires Honest(log)
    ensures CardSum(PyTurn(NewTurn(text), log).agents) + Tokens(Own(log, PARENT)) + Tokens(Own(log, ""))
         == LogTokens(log)
  {
    if log != [] {
      var front, e := log[..|log| - 1], log[|log| - 1];
      assert log == front + [e];
      CardsHoldAllTokens(text, front);
      HonestMatches(text, front, e);
      StepSum(PyTurn(NewTurn(text), front), e);
      OwnTokensSnoc(front, e, PARENT);
      OwnTokensSnoc(front, e, "");
    }
  }

  // ------------------------------------------------------------ the console agrees

  ghost predicate AllComplete(log: seq<Event>) {
    forall e :: e in log ==> Complete(e.kind)
  }

  // On every log whose events are complete and whose totals are honest, the
  // live view and the transcript endpoint show the same turn.
  lemma {:induction false} FoldsAgree(text: string, log: seq<Event>)
    requires Honest(log) && AllComplete(log)
    ensures TsTurn(NewTurn(text), log) == PyTurn(NewTurn(text), log)
  {
    if log != [] {
      var front, e := log[..|log| - 1], log[|log| - 1];
      assert log == front + [e];
      assert e in log;
      FoldsAgree(text, front);
      HonestMatches(text, front, e);
      StepsAgreeIff(PyTurn(NewTurn(text), front), e);
    }
  }
}
