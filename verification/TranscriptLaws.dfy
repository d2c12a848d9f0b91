// What the fold of plnt/tenancy/transcript.py guarantees about any log:
// the order in which agents interleave does not matter, and tokens add up.
module TranscriptLaws {
  import opened Basics
  import opened Events
  import opened Transcript

  lemma PyTurnSnoc(t: Turn, log: seq<Event>, e: Event)
    ensures PyTurn(t, log + [e]) == PyStep(PyTurn(t, log), e)
  {
    assert (log + [e])[..|log|] == log;
  }

  lemma PyTurnBoth(t: Turn, u: Turn, x: seq<Event>, y: seq<Event>, e: Event)
    requires PyTurn(t, x) == PyTurn(u, y)
    ensures PyTurn(t, x + [e]) == PyTurn(u, y + [e])
  {
    PyTurnSnoc(t, x, e);
    PyTurnSnoc(u, y, e);
  }

  lemma {:induction false} PyTurnConcat(t: Turn, a: seq<Event>, b: seq<Event>)
    ensures PyTurn(t, a + b) == PyTurn(PyTurn(t, a), b)
  {
    if b == [] {
      assert a + b == a;
    } else {
      var front, last := b[..|b| - 1], b[|b| - 1];
      PyTurnConcat(t, a, front);
      PyTurnBoth(t, PyTurn(t, a), a + front, front, last);
      Assoc(a, front, [last]);
      assert b == front + [last];
    }
  }

  lemma TurnsSnoc(log: seq<Event>, e: Event)
    ensures Turns(log + [e]) ==
      if e.kind.UserMessage? then Turns(log) + [NewTurn(e.kind.text)]
      else if Turns(log) == [] then []
      else Turns(log)[|Turns(log)| - 1 := PyStep(Turns(log)[|Turns(log)| - 1], e)]
  {
    assert (log + [e])[..|log|] == log;
  }

  // A turn appended to a log adds one folded turn and leaves the earlier ones alone.
  lemma {:induction false} TurnsAppendTurn(before: seq<Event>, text: string, log: seq<Event>)
    requires forall e :: e in log ==> !e.kind.UserMessage?
    ensures Turns(before + [Event("", UserMessage(text))] + log) == Turns(before) + [PyTurn(NewTurn(text), log)]
  {
    var opened' := before + [Event("", UserMessage(text))];
    if log == [] {
      assert opened' + log == opened';
      TurnsSnoc(before, Event("", UserMessage(text)));
    } else {
      var front, last := log[..|log| - 1], log[|log| - 1];
      TurnsAppendTurn(before, text, front);
      assert last in log;
      assert opened' + log == (opened' + front) + [last];
      TurnsSnoc(opened' + front, last);
    }
  }

  // ------------------------------------------------------------ what ends a turn

  // What a card shows of an agent apart from how it ended.
  predicate SameWork(c: Card, d: Card) {
    && d.id == c.id && d.role == c.role && d.bundle == c.bundle && d.version == c.version && d.intent == c.intent
    && d.dependsOn == c.dependsOn && d.tools == c.tools
    && d.steps == c.steps && d.files == c.files && d.tokens == c.tokens
  }

  // A reply is shown with who it came from. A card that was still running is
  // done, with the reply as its answer unless it had one; any other stays.
  lemma ReplyCloses(t: Turn, text: string, source: string)
    ensures var u := PyEnding(t, AssistantMessage(text, source));
      && u.reply == Some(ReplyView(text, source)) && |u.agents| == |t.agents|
      && u.error == t.error && u.user == t.user && u.parent == t.parent
      && forall i :: 0 <= i < |t.agents| ==>
           var c, d := t.agents[i], u.agents[i];
           SameWork(c, d) && d.error == c.error &&
           (if c.status != Status.Running then d == c
            else d.status == Done && (c.answer.None? || c.answer == Some("") ==> d.answer == Some(text))
                 && (c.answer.Some? && c.answer != Some("") ==> d.answer == c.answer))
  {
  }

  // An error is shown with its hint and its cause. A card that was still
  // running has failed, with the error as its own unless it had one.
  lemma ErrorCloses(t: Turn, stopped: Option<string>, error: Option<string>, hint: string)
    ensures var u := PyEnding(t, RunError(stopped, error, hint));
      && u.error == Some(ErrorView(error, hint, stopped)) && |u.agents| == |t.agents|
      && u.reply == t.reply && u.user == t.user && u.parent == t.parent
      && forall i :: 0 <= i < |t.agents| ==>
           var c, d := t.agents[i], u.agents[i];
           SameWork(c, d) && d.answer == c.answer &&
           (if c.status != Status.Running then d == c
            else d.status == Failed && (c.error.Some? && c.error != Some("") ==> d.error == c.error)
                 && (c.error.None? || c.error == Some("") ==> d.error == error))
  {
  }

  // The user's message stays what it was, whatever the log says.
  lemma {:induction false} UserIsKept(text: string, log: seq<Event>)
    ensures PyTurn(NewTurn(text), log).user == text
  {
    if log != [] {
      UserIsKept(text, log[..|log| - 1]);
    }
  }

  // ------------------------------------------------------------ the words of a command

  lemma JoinSnoc(front: seq<string>, word: string)
    requires front != []
    ensures Join(front + [word]) == Join(front) + " " + word
  {
    assert (front + [word])[..|front|] == front;
  }

  // A command is its words with one space between them.
  lemma {:induction false} JoinSplits(a: seq<string>, b: seq<string>)
    requires a != [] && b != []
    ensures Join(a + b) == Join(a) + " " + Join(b)
  {
    var front, last := b[..|b| - 1], b[|b| - 1];
    assert b == front + [last];
    if front == [] {
      JoinSnoc(a, last);
    } else {
      JoinSplits(a, front);
      JoinSnoc(front, last);
      JoinSnoc(a + front, last);
      Assoc(a, front, [last]);
      JoinMore(Join(a) + " ", Join(front), " ", last);
    }
  }

  lemma JoinMore(a: string, b: string, c: string, d: string)
    ensures (a + b) + c + d == a + (b + c + d)
  {
  }

  lemma JoinOne(word: string)
    ensures Join([word]) == word && Join([]) == ""
  {
  }

  // A long command is cut after 120 characters, a short one is not.
  lemma ClipKeeps(s: string)
    ensures Clip(s) <= s && |Clip(s)| == if |s| < 120 then |s| else 120
  {
  }

  // ------------------------------------------------------------ one agent's card

  function CardFold(c: Card, kinds: seq<Kind>): Card {
    if kinds == [] then c else PyCard(CardFold(c, kinds[..|kinds| - 1]), kinds[|kinds| - 1])
  }

  lemma CardFoldSnoc(c: Card, kinds: seq<Kind>, k: Kind)
    ensures CardFold(c, kinds + [k]) == PyCard(CardFold(c, kinds), k)
  {
    assert (kinds + [k])[..|kinds|] == kinds;
  }

  lemma {:induction false} CardFoldConcat(c: Card, a: seq<Kind>, b: seq<Kind>)
    ensures CardFold(c, a + b) == CardFold(CardFold(c, a), b)
  {
    if b == [] {
      assert a + b == a;
    } else {
      var front, last := b[..|b| - 1], b[|b| - 1];
      CardFoldConcat(c, a, front);
      assert a + b == (a + front) + [last];
      CardFoldSnoc(c, a + front, last);
    }
  }

  lemma {:induction false} CardFoldKeepsId(c: Card, kinds: seq<Kind>)
    ensures CardFold(c, kinds).id == c.id
  {
    if kinds != [] {
      CardFoldKeepsId(c, kinds[..|kinds| - 1]);
    }
  }

  // ------------------------------------------------------------ confluence

  ghost predicate DistinctCards(cards: seq<Card>) {
    forall i, j :: 0 <= i < j < |cards| ==> cards[i].id != cards[j].id
  }

  ghost predicate Known(cards: seq<Card>, id: string) {
    exists i :: 0 <= i < |cards| && cards[i].id == id
  }

  // Only agent events, each by an agent already on a card. The fold ignores
  // what the parent, or nobody, logs this way.
  ghost predicate AgentsOnly(cards: seq<Card>, log: seq<Event>) {
    forall e :: e in log ==> AgentKind(e.kind) && (e.agentId == "" || e.agentId == PARENT || Known(cards, e.agentId))
  }

  // What reaches the card of `id`.
  function Heard(log: seq<Event>, id: string): seq<Kind> {
    if id == "" || id == PARENT then [] else Own(log, id)
  }

  function EachAlone(cards: seq<Card>, log: seq<Event>): (r: seq<Card>)
    ensures |r| == |cards|
    ensures forall i :: 0 <= i < |r| ==> r[i] == CardFold(cards[i], Heard(log, cards[i].id))
  {
    seq(|cards|, i requires 0 <= i < |cards| => CardFold(cards[i], Heard(log, cards[i].id)))
  }

  lemma {:induction false} FindAt(cards: seq<Card>, i: nat)
    requires DistinctCards(cards) && i < |cards|
    ensures Find(cards, cards[i].id) == i
  {
    var f := Find(cards, cards[i].id);
    assert f <= i;
  }

  lemma TouchIsLocal(cards: seq<Card>, id: string, k: Kind)
    requires DistinctCards(cards) && Known(cards, id)
    ensures |PyTouch(cards, id, k)| == |cards|
    ensures forall i :: 0 <= i < |cards| ==>
      PyTouch(cards, id, k)[i] == if cards[i].id == id then PyCard(cards[i], k) else cards[i]
  {
    var j :| 0 <= j < |cards| && cards[j].id == id;
    FindAt(cards, j);
    forall i | 0 <= i < |cards| && cards[i].id == id
      ensures i == j
    {
      FindAt(cards, i);
    }
  }

  predicate Reaches(e: Event, id: string) {
    e.agentId == id && id != "" && id != PARENT
  }

  // The event's effect on the card of `id`, which stands at `c`.
  function Alone(c: Card, id: string, e: Event): Card {
    if Reaches(e, id) then PyCard(c, e.kind) else c
  }

  lemma HeardSnoc(c: Card, log: seq<Event>, e: Event)
    ensures CardFold(c, Heard(log + [e], c.id)) == Alone(CardFold(c, Heard(log, c.id)), c.id, e)
  {
    OwnSnoc(log, e, c.id);
    if Reaches(e, c.id) {
      CardFoldSnoc(c, Heard(log, c.id), e.kind);
    } else {
      assert Heard(log + [e], c.id) == Heard(log, c.id);
    }
  }

  lemma AloneKeepsIds(cards: seq<Card>, log: seq<Event>)
    ensures forall i :: 0 <= i < |cards| ==> EachAlone(cards, log)[i].id == cards[i].id
  {
    forall i | 0 <= i < |cards|
      ensures EachAlone(cards, log)[i].id == cards[i].id
    {
      CardFoldKeepsId(cards[i], Heard(log, cards[i].id));
    }
  }

  // One more agent event moves only its own card.
  lemma EachAloneSnoc(cards: seq<Card>, log: seq<Event>, e: Event)
    ensures forall i :: 0 <= i < |cards| ==>
      EachAlone(cards, log + [e])[i] == Alone(EachAlone(cards, log)[i], cards[i].id, e)
  {
    forall i | 0 <= i < |cards|
      ensures EachAlone(cards, log + [e])[i] == Alone(EachAlone(cards, log)[i], cards[i].id, e)
    {
      HeardSnoc(cards[i], log, e);
    }
  }

  lemma AgentStepIsTouch(cards: seq<Card>, log: seq<Event>, e: Event)
    requires DistinctCards(cards) && e.agentId != "" && e.agentId != PARENT && Known(cards, e.agentId)
    ensures EachAlone(cards, log + [e]) == PyTouch(EachAlone(cards, log), e.agentId, e.kind)
  {
    AloneKeepsIds(cards, log);
    EachAloneSnoc(cards, log, e);
    TouchAlone(cards, EachAlone(cards, log), EachAlone(cards, log + [e]), e);
  }

  lemma TouchAlone(cards: seq<Card>, before: seq<Card>, after: seq<Card>, e: Event)
    requires DistinctCards(cards) && e.agentId != "" && e.agentId != PARENT && Known(cards, e.agentId)
    requires |before| == |after| == |cards|
    requires forall i :: 0 <= i < |cards| ==> before[i].id == cards[i].id
    requires forall i :: 0 <= i < |cards| ==> after[i] == Alone(before[i], cards[i].id, e)
    ensures after == PyTouch(before, e.agentId, e.kind)
  {
    var i :| 0 <= i < |cards| && cards[i].id == e.agentId;
    assert before[i].id == e.agentId;
    TouchIsLocal(before, e.agentId, e.kind);
  }

  // Folding interleaved agent events folds each agent's own events alone.
  lemma {:induction false} AgentsFoldAlone(t: Turn, log: seq<Event>)
    requires DistinctCards(t.agents) && AgentsOnly(t.agents, log)
    ensures PyTurn(t, log) == t.(agents := EachAlone(t.agents, log))
  {
    if log == [] {
      assert EachAlone(t.agents, log) == t.agents;
    } else {
      var front, last := log[..|log| - 1], log[|log| - 1];
      assert log == front + [last];
      AgentsFoldAlone(t, front);
      assert last in log;
      if last.agentId == "" || last.agentId == PARENT {
        EachAloneSnoc(t.agents, front, last);
        assert EachAlone(t.agents, log) == EachAlone(t.agents, front);
      } else {
        AgentStepIsTouch(t.agents, front, last);
      }
    }
  }

  // Confluence: two logs in which every agent did the same fold to the same turn.
  lemma Confluence(t: Turn, log: seq<Event>, other: seq<Event>)
    requires DistinctCards(t.agents)
    requires AgentsOnly(t.agents, log) && AgentsOnly(t.agents, other)
    requires forall i :: 0 <= i < |t.agents| ==> Heard(log, t.agents[i].id) == Heard(other, t.agents[i].id)
    ensures PyTurn(t, log) == PyTurn(t, other)
  {
    AgentsFoldAlone(t, log);
    AgentsFoldAlone(t, other);
    assert EachAlone(t.agents, log) == EachAlone(t.agents, other);
  }

  lemma OwnSwap(a: seq<Event>, x: Event, y: Event, b: seq<Event>, id: string)
    requires x.agentId != y.agentId
    ensures Own(a + [x, y] + b, id) == Own(a + [y, x] + b, id)
  {
    OwnConcat(a + [x, y], b, id);
    OwnConcat(a + [y, x], b, id);
    assert a + [x, y] == (a + [x]) + [y] && a + [y, x] == (a + [y]) + [x];
    OwnSnoc(a + [x], y, id);
    OwnSnoc(a, x, id);
    OwnSnoc(a + [y], x, id);
    OwnSnoc(a, y, id);
  }

  // The smallest case: neighbouring events of different agents may be swapped.
  lemma NeighboursCommute(t: Turn, a: seq<Event>, x: Event, y: Event, b: seq<Event>)
    requires DistinctCards(t.agents) && AgentsOnly(t.agents, a + [x, y] + b) && x.agentId != y.agentId
    ensures PyTurn(t, a + [x, y] + b) == PyTurn(t, a + [y, x] + b)
  {
    var log, other := a + [x, y] + b, a + [y, x] + b;
    forall e | e in other
      ensures e in log
    {
      assert e in a || e == x || e == y || e in b;
    }
    forall i | 0 <= i < |t.agents|
      ensures Heard(log, t.agents[i].id) == Heard(other, t.agents[i].id)
    {
      OwnSwap(a, x, y, b, t.agents[i].id);
    }
    Confluence(t, log, other);
  }
}
