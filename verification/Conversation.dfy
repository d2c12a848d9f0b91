// The long-lived conversation (examples/booking/workflows/session.py): messages
// arrive as signals at any await, are handled one at a time, and at most one
// offer is open for booking.
module Conversation {
  import opened Basics
  import opened Bookings
  import opened Delivery
  import opened Saga

  datatype Content =
    | Text(text: string)
    | Note
    | Output
    | SagaOutput(business: string, slot: string, outcome: Outcome)

  // The replies a client sees; what the user said is one of them too.
  datatype Role = User | Say | System | Agent(name: string)

  datatype Reply = Reply(seqNo: nat, role: Role, content: Content)

  datatype Offer = Offer(business: string, slots: seq<string>)

  datatype Intent = BookIntent | QueryIntent | QuestionIntent | ConfirmIntent | CancelIntent | SmalltalkIntent

  datatype Turn = FromUser(text: string) | FromAgent(text: string)

  // ------------------------------------------------------------ choosing a slot

  predicate Matches(slot: string, requested: string) {
    requested <= slot || slot <= requested
  }

  // The first offered slot the requested time is a prefix of, or the other way
  // round; the first one offered when there is none.
  function PickSlot(requested: Option<string>, offered: seq<string>): (slot: string)
    ensures offered != [] ==> slot in offered
    ensures requested.None? && offered != [] ==> slot == offered[0]
    ensures requested.Some? && offered != [] ==> IsPicked(requested.value, offered, slot)
  {
    if offered == [] then ""
    else if requested.None? then offered[0]
    else
      var i := FirstMatch(requested.value, offered);
      if i < |offered| then offered[i] else offered[0]
  }

  // `slot` is the first one offered that the requested time begins with, or
  // that begins with it; the first one of all when there is none.
  ghost predicate IsPicked(requested: string, offered: seq<string>, slot: string)
    requires offered != []
  {
    if exists s :: s in offered && (s <= requested || requested <= s) then
      exists k :: 0 <= k < |offered| && slot == offered[k] && (slot <= requested || requested <= slot)
        && forall j :: 0 <= j < k ==> !(offered[j] <= requested || requested <= offered[j])
    else slot == offered[0]
  }

  function FirstMatch(requested: string, offered: seq<string>): (i: nat)
    ensures i <= |offered|
    ensures i < |offered| ==> Matches(offered[i], requested)
    ensures forall j :: 0 <= j < i ==> !Matches(offered[j], requested)
  {
    if offered == [] then 0 else if Matches(offered[0], requested) then 0 else 1 + FirstMatch(requested, offered[1..])
  }

  // ------------------------------------------------------------ what happened to offers

  datatype Deal =
    | Offered(offer: Offer)
    | Started(business: string, slot: string)
    | Ended(run: Saga.Run)
    | Dropped

  predicate Succeeded(run: Saga.Run) {
    run.end.Result? && run.end.outcome == ConfirmedOutcome
  }

  // The sagas that ran, in order.
  function RunsIn(deals: seq<Deal>): seq<Saga.Run> {
    if deals == [] then []
    else RunsIn(deals[..|deals| - 1]) + if deals[|deals| - 1].Ended? then [deals[|deals| - 1].run] else []
  }

  lemma RunsSnoc(deals: seq<Deal>, d: Deal)
    ensures RunsIn(deals + [d]) == RunsIn(deals) + if d.Ended? then [d.run] else []
  {
    assert (deals + [d])[..|deals|] == deals;
  }

  // The offer that is open after all this, or nothing at all if some saga was
  // started on no open offer, or on another business or slot than it offers.
  function Replay(deals: seq<Deal>): Option<Option<Offer>> {
    if deals == [] then Some(None)
    else
      var before := Replay(deals[..|deals| - 1]);
      if before.None? then None
      else
        match deals[|deals| - 1]
        case Offered(o) => Some(Some(o))
        case Started(business, slot) =>
          if before.value.Some? && business == before.value.value.business && slot in before.value.value.slots then before else None
        case Ended(run) => if Succeeded(run) then Some(None) else before
        case Dropped => Some(None)
  }

  lemma ReplaySnoc(deals: seq<Deal>, d: Deal)
    requires Replay(deals).Some?
    ensures Replay(deals + [d]) == (
      match d
      case Offered(o) => Some(Some(o))
      case Started(business, slot) =>
        if Replay(deals).value.Some? && business == Replay(deals).value.value.business && slot in Replay(deals).value.value.slots
        then Replay(deals) else None
      case Ended(run) => if Succeeded(run) then Some(None) else Replay(deals)
      case Dropped => Some(None))
  {
    assert (deals + [d])[..|deals|] == deals;
  }

  lemma {:induction false} ReplayPrefix(deals: seq<Deal>, n: nat)
    requires Replay(deals).Some? && n <= |deals|
    ensures Replay(deals[..n]).Some?
  {
    if n < |deals| {
      ReplayPrefix(deals[..|deals| - 1], n);
      assert deals[..|deals| - 1][..n] == deals[..n];
    } else {
      assert deals[..n] == deals;
    }
  }

  // Once nothing is on offer, nothing is until there is a new offer.
  lemma {:induction false} ClosedUntilOffered(deals: seq<Deal>, i: nat, j: nat)
    requires Replay(deals).Some? && i <= j <= |deals| && Replay(deals[..i]) == Some(None)
    requires forall k :: i <= k < j ==> !deals[k].Offered?
    ensures Replay(deals[..j]) == Some(None)
  {
    if i < j {
      ClosedUntilOffered(deals, i, j - 1);
      ReplayPrefix(deals, j);
      assert deals[..j] == deals[..j - 1] + [deals[j - 1]];
      ReplaySnoc(deals[..j - 1], deals[j - 1]);
    }
  }

  lemma ConfirmedCloses(deals: seq<Deal>, i: nat)
    requires Replay(deals).Some? && i < |deals| && deals[i].Ended? && Succeeded(deals[i].run)
    ensures Replay(deals[..i + 1]) == Some(None)
  {
    ReplayPrefix(deals, i);
    assert deals[..i + 1] == deals[..i] + [deals[i]];
    ReplaySnoc(deals[..i], deals[i]);
  }

  lemma StartedIsOpen(deals: seq<Deal>, j: nat)
    requires Replay(deals).Some? && j < |deals| && deals[j].Started?
    ensures Replay(deals[..j]).Some? && Replay(deals[..j]).value.Some?
  {
    ReplayPrefix(deals, j + 1);
    ReplayPrefix(deals, j);
    assert deals[..j + 1] == deals[..j] + [deals[j]];
    ReplaySnoc(deals[..j], deals[j]);
  }

  // No second booking without a new offer: between a confirmed saga and the
  // next one started there is an offer, and the saga is for what it offers.
  lemma NoSecondBooking(deals: seq<Deal>, i: nat, j: nat) returns (k: nat)
    requires Replay(deals).Some? && i < j < |deals| && deals[i].Ended? && Succeeded(deals[i].run) && deals[j].Started?
    ensures i < k < j && deals[k].Offered?
  {
    ConfirmedCloses(deals, i);
    StartedIsOpen(deals, j);
    if forall k :: i + 1 <= k < j ==> !deals[k].Offered? {
      ClosedUntilOffered(deals, i + 1, j);
      assert false;
    }
    k :| i + 1 <= k < j && deals[k].Offered?;
  }

  // ------------------------------------------------------------ reading the replies

  // What the user said, in the order it was received.
  function Heard(replies: seq<Reply>): seq<string> {
    if replies == [] then []
    else
      var r := replies[|replies| - 1];
      Heard(replies[..|replies| - 1]) + if r.role.User? && r.content.Text? then [r.content.text] else []
  }

  function Says(replies: seq<Reply>): nat {
    if replies == [] then 0 else Says(replies[..|replies| - 1]) + if replies[|replies| - 1].role.Say? then 1 else 0
  }

  ghost predicate Numbered(replies: seq<Reply>) {
    forall i :: 0 <= i < |replies| ==> replies[i].seqNo == i + 1
  }

  lemma RepliesSnoc(replies: seq<Reply>, r: Reply)
    ensures Heard(replies + [r]) == Heard(replies) + if r.role.User? && r.content.Text? then [r.content.text] else []
    ensures Says(replies + [r]) == Says(replies) + if r.role.Say? then 1 else 0
  {
    assert (replies + [r])[..|replies|] == replies;
  }

  // Somewhere behind the first n replies stands this one.
  ghost predicate ShownIn(replies: seq<Reply>, n: nat, role: Role, content: Content) {
    exists i :: n <= i < |replies| && replies[i].role == role && replies[i].content == content
  }

  function Last12(turns: seq<Turn>): (r: seq<Turn>)
    ensures |r| == if |turns| < 12 then |turns| else 12
    ensures r == turns[|turns| - |r|..]
  {
    if |turns| <= 12 then turns else turns[|turns| - 12..]
  }

  // ------------------------------------------------------------ the workflow

  class ConversationWorkflow {
    // The date and time a text names, if it names one.
    const iso: string -> Option<string>
    const session: string
    const contact: string
    // Where its sagas book, and the keys only this conversation books.
    const acts: Activities
    const ours: set<string>
    var inbox: seq<string>
    var replies: seq<Reply>
    var replySeq: nat
    var closed: bool
    var pending: Option<Offer>
    var history: seq<Turn>
    ghost var handled: seq<string>
    ghost var deals: seq<Deal>
    ghost var first: World
    ghost var landed: seq<Request>

    constructor (iso: string -> Option<string>, session: string, contact: string, acts: Activities, ours: set<string>)
      requires acts.Valid()
      ensures Idle() && Booked() && replies == [] && !closed && handled == [] && deals == []
      ensures this.acts == acts && this.ours == ours && first == acts.W()
    {
      this.iso, this.session, this.contact, this.acts, this.ours := iso, session, contact, acts, ours;
      inbox, replies, replySeq, closed, pending, history := [], [], 0, false, None, [];
      handled, deals, first, landed := [], [], acts.W(), [];
    }

    // The ledger is what the sagas of this conversation, and whatever else
    // landed, made of it.
    ghost predicate Booked()
      reads this, acts, acts.store, acts.feed
    {
      acts.Valid() && Sound(first) && Ran(first, RunsIn(deals), landed, ours, acts.W())
    }

    ghost predicate Valid()
      reads this
    {
      && Numbered(replies) && replySeq == |replies|
      && Replay(deals) == Some(pending)
      && (pending.Some? ==> pending.value.slots != [])
      && Says(replies) == |handled|
      && |history| <= 12
    }

    // Between two messages: all that was received has been handled, in order,
    // or is still queued.
    ghost predicate Idle()
      reads this
    {
      Valid() && Heard(replies) == handled + inbox
    }

    // While `text` is being handled.
    ghost predicate Busy(text: string)
      reads this
    {
      Valid() && Heard(replies) == handled + [text] + inbox
    }

    method PushReply(role: Role, content: Content)
      requires Valid()
      modifies this`replies, this`replySeq
      ensures replies == old(replies) + [Reply(|old(replies)| + 1, role, content)] && replySeq == |replies|
      ensures Numbered(replies)
      ensures Heard(replies) == old(Heard(replies)) + if role.User? && content.Text? then [content.text] else []
      ensures Says(replies) == old(Says(replies)) + if role.Say? then 1 else 0
    {
      RepliesSnoc(replies, Reply(|replies| + 1, role, content));
      replySeq := replySeq + 1;
      replies := replies + [Reply(replySeq, role, content)];
    }

    // ---------------------------------------------------------- signals

    method UserMessage(text: string)
      requires Valid()
      modifies this`replies, this`replySeq, this`inbox
      ensures Valid()
      ensures old(Heard(replies)) <= Heard(replies)
      ensures if closed then replies == old(replies) && inbox == old(inbox)
        else inbox == old(inbox) + [text] && Heard(replies) == old(Heard(replies)) + [text]
      ensures old(replies) <= replies
    {
      if closed {
        return;
      }
      PushReply(User, Text(text));
      inbox := inbox + [text];
    }

    method Close()
      requires Valid()
      modifies this`closed
      ensures Valid() && closed
    {
      closed := true;
    }

    // Signals are delivered while the handler waits for something.
    method Await(ghost text: string)
      requires Busy(text)
      modifies this`replies, this`replySeq, this`inbox, this`closed
      ensures Busy(text) && (old(closed) ==> closed) && old(replies) <= replies
    {
      var n: nat :| 0 <= n;
      for i := 0 to n
        invariant Busy(text) && (old(closed) ==> closed) && old(replies) <= replies
      {
        OneSignal(text);
      }
    }

    method OneSignal(ghost text: string)
      requires Busy(text)
      modifies this`replies, this`replySeq, this`inbox, this`closed
      ensures Busy(text) && (old(closed) ==> closed) && old(replies) <= replies
    {
      if * {
        Close();
      } else {
        var message: string := *;
        UserMessage(message);
        Assoc(handled + [text], old(inbox), [message]);
      }
    }

    // ---------------------------------------------------------- bookings

    // Attempts in flight may land at any time.
    method BookingsGoOn()
      requires Booked()
      modifies this`landed, acts, acts.store, acts.feed
      ensures Booked()
    {
      ghost var mid := acts.W();
      ghost var more := acts.Meanwhile(ours);
      RanIdle(first, RunsIn(deals), landed, ours, mid, more, acts.W());
      landed := landed + more;
    }

    // The saga for a slot of the open offer, from Started to Ended.
    method BookSlot(offer: Offer, chosen: string) returns (end: SagaEnd)
      requires Valid() && Booked() && pending == Some(offer) && chosen in offer.slots
      modifies this`deals, this`landed, acts, acts.store, acts.feed
      ensures Booked() && Replay(deals).Some?
      ensures deals == old(deals) + [Started(offer.business, chosen), Ended(Saga.Run(SagaInput(session, offer.business, chosen, contact), end))]
      ensures Replay(deals) == Some(if Succeeded(Saga.Run(SagaInput(session, offer.business, chosen, contact), end)) then None else pending)
    {
      var input := SagaInput(session, offer.business, chosen, contact);
      ghost var mid := acts.W();
      ghost var more;
      end, more := SagaAndAfter(acts, input, ours);
      RanOn(first, RunsIn(deals), landed, ours, mid, Saga.Run(input, end), more, acts.W());
      landed := landed + more;
      ghost var started := deals + [Started(offer.business, chosen)];
      RunsSnoc(deals, Started(offer.business, chosen));
      RunsSnoc(started, Ended(Saga.Run(input, end)));
      ReplaySnoc(deals, Started(offer.business, chosen));
      ReplaySnoc(started, Ended(Saga.Run(input, end)));
      AddNothing(RunsIn(deals));
      deals := started + [Ended(Saga.Run(input, end))];
    }

    // ---------------------------------------------------------- one message

    // A micro-agent's answer, or an exception after its retries.
    method CallAgent(ghost text: string) returns (raised: bool)
      requires Busy(text)
      modifies this`replies, this`replySeq, this`inbox, this`closed
      ensures Busy(text) && (old(closed) ==> closed) && old(replies) <= replies
    {
      Await(text);
      raised := *;
    }

    method Show(role: Role, content: Content, ghost text: string)
      requires Busy(text) && !role.User? && !role.Say?
      modifies this`replies, this`replySeq
      ensures Busy(text) && replies == old(replies) + [Reply(|old(replies)| + 1, role, content)]
    {
      PushReply(role, content);
      assert Heard(replies) == old(Heard(replies)) + [];
    }

    method HandleLookup(ghost text: string) returns (raised: bool)
      requires Busy(text)
      modifies this`replies, this`replySeq, this`inbox, this`closed, this`pending, this`deals
      ensures Busy(text) && handled == old(handled) && (old(closed) ==> closed)
      ensures old(replies) <= replies && (!raised ==> Showed(|old(replies)|, Agent("resolve_business"), Output))
      ensures RunsIn(deals) == old(RunsIn(deals))
      ensures (deals == old(deals) && pending == old(pending))
        || (exists o :: deals == old(deals) + [Offered(o)] && pending == Some(o) && o.slots != [])
    {
      raised := CallAgent(text);
      if raised {
        return;
      }
      Show(Agent("resolve_business"), Output, text);
      assert replies[|replies| - 1].role == Agent("resolve_business");
      // The name of the one confident match; empty when there is none.
      var best: string := *;
      ghost var seen := |replies| - 1;
      if best != "" {
        raised := CheckSlots(best, text);
      }
      assert replies[seen].role == Agent("resolve_business");
    }

    // The slots of the match become the open offer.
    method CheckSlots(best: string, ghost text: string) returns (raised: bool)
      requires Busy(text)
      modifies this`replies, this`replySeq, this`inbox, this`closed, this`pending, this`deals
      ensures Busy(text) && (old(closed) ==> closed) && old(replies) <= replies
      ensures RunsIn(deals) == old(RunsIn(deals))
      ensures (deals == old(deals) && pending == old(pending))
        || (exists o :: deals == old(deals) + [Offered(o)] && pending == Some(o) && o.slots != [])
    {
      Show(System, Note, text);
      raised := CallAgent(text);
      if raised {
        return;
      }
      Show(Agent("check_availability"), Output, text);
      var slots: seq<string> := *;
      if slots != [] {
        MakeOffer(Offer(best, slots));
      }
    }

    method MakeOffer(o: Offer)
      requires Valid() && o.slots != []
      modifies this`pending, this`deals
      ensures Valid() && deals == old(deals) + [Offered(o)] && pending == Some(o)
      ensures RunsIn(deals) == old(RunsIn(deals))
    {
      ReplaySnoc(deals, Offered(o));
      RunsSnoc(deals, Offered(o));
      AddNothing(RunsIn(deals));
      deals := deals + [Offered(o)];
      pending := Some(o);
    }

    ghost predicate Showed(n: nat, role: Role, content: Content)
      reads this
    {
      ShownIn(replies, n, role, content)
    }

    // What a confirmation by `text` comes to when `open` was on offer: nothing
    // if there was no offer; or else exactly one saga, which ended as `end`, for
    // the offered business and the picked slot; the user is shown its outcome.
    ghost predicate Booking(open: Option<Offer>, past: seq<Deal>, text: string, raised: bool, end: SagaEnd, n: nat)
      reads this
    {
      match open
      case None => deals == past && pending == None && !raised
      case Some(o) =>
        var slot := PickSlot(iso(text), o.slots);
        && deals == past + [Started(o.business, slot), Ended(Saga.Run(SagaInput(session, o.business, slot, contact), end))]
        && raised == end.Raised?
        && pending == (if end.Result? && end.outcome == ConfirmedOutcome then None else open)
        && (end.Result? ==> Showed(n, Agent("booking_saga"), SagaOutput(o.business, slot, end.outcome)))
    }

    // The saga for the chosen slot of the open offer.
    method HandleConfirm(text: string, ghost whole: string, ghost since: nat) returns (raised: bool, ghost how: SagaEnd)
      requires Busy(whole) && Booked() && since <= |replies|
      modifies this, acts, acts.store, acts.feed
      ensures Busy(whole) && Booked() && first == old(first) && handled == old(handled) && (old(closed) ==> closed)
      ensures history == old(history)
      ensures old(replies) <= replies
      ensures Booking(old(pending), old(deals), text, raised, how, since)
    {
      raised, how := false, Raised;
      if pending.None? || pending.value.slots == [] {
        return;
      }
      var offer := pending.value;
      var chosen := PickSlot(iso(text), offer.slots);
      Await(whole);
      var end := BookSlot(offer, chosen);
      how := end;
      if end.Result? && end.outcome == ConfirmedOutcome {
        pending := None;
      }
      if end.Raised? {
        raised := true;
        return;
      }
      Show(Agent("booking_saga"), SagaOutput(offer.business, chosen, end.outcome), whole);
      assert replies[|replies| - 1].content == SagaOutput(offer.business, chosen, end.outcome);
    }

    method HandleCancel(ghost text: string)
      requires Busy(text)
      modifies this`pending, this`deals
      ensures Busy(text) && pending.None? && RunsIn(deals) == old(RunsIn(deals))
    {
      if pending.Some? {
        ReplaySnoc(deals, Dropped);
        RunsSnoc(deals, Dropped);
        deals := deals + [Dropped];
        pending := None;
      }
    }

    // The reply is added to what is remembered of the conversation.
    ghost predicate Remembers(before: seq<Turn>, after: seq<Turn>) {
      exists say :: after == Last12(before + [FromAgent(say)])
    }

    // The one user-facing reply; it ends the handling of the message.
    method FinalizeSay(say: string, ghost text: string)
      requires Busy(text)
      modifies this`replies, this`replySeq, this`history, this`handled
      ensures Idle() && handled == old(handled) + [text]
      ensures replies == old(replies) + [Reply(|old(replies)| + 1, Say, Text(say))]
      ensures Remembers(old(history), history)
    {
      PushReply(Say, Text(say));
      history := Last12(history + [FromAgent(say)]);
      handled := handled + [text];
      assert Heard(replies) == old(Heard(replies)) + [];
    }

    // The synthesizer, or a reply shaped by hand when it fails.
    method EmitSynthesizedReply(ghost text: string)
      requires Busy(text)
      modifies this`replies, this`replySeq, this`inbox, this`closed, this`history, this`handled
      ensures Idle() && handled == old(handled) + [text] && (old(closed) ==> closed) && old(replies) <= replies
      ensures Remembers(old(history), history)
    {
      var failed := CallAgent(text);
      var say: string := *;
      if failed || say == "" {
        say := "fallback";
      }
      FinalizeSay(say, text);
    }

    // The intent is what the classifier says, unless a time is named while an
    // offer is open.
    method Classify(text: string, ghost whole: string) returns (raised: bool, kind: Intent, ghost said: Intent)
      requires Busy(whole)
      modifies this`replies, this`replySeq, this`inbox, this`closed
      ensures Busy(whole) && (old(closed) ==> closed) && old(replies) <= replies
      ensures !raised ==> kind == if pending.Some? && iso(text).Some? then ConfirmIntent else said
    {
      said := SmalltalkIntent;
      kind := SmalltalkIntent;
      raised := CallAgent(whole);
      if raised {
        return;
      }
      Show(Agent("classify_intent"), Output, whole);
      kind := *;
      said := kind;
      // A time of the open offer named in the message confirms it.
      if pending.Some? && iso(text).Some? && PickSlot(iso(text), pending.value.slots) in pending.value.slots {
        kind := ConfirmIntent;
      }
    }

    method HandleQuestion(ghost text: string) returns (raised: bool, answered: bool)
      requires Busy(text)
      modifies this`replies, this`replySeq, this`inbox, this`closed, this`history, this`handled
      ensures (old(closed) ==> closed) && old(replies) <= replies
      ensures !raised ==> Showed(|old(replies)|, Agent("enquiry-generic"), Output)
      ensures answered ==> !raised && Idle() && handled == old(handled) + [text] && Remembers(old(history), history)
      ensures !answered ==> Busy(text) && handled == old(handled) && history == old(history)
    {
      answered := false;
      raised := CallAgent(text);
      if raised {
        return;
      }
      Show(Agent("enquiry-generic"), Output, text);
      assert replies[|replies| - 1].role == Agent("enquiry-generic");
      var say: string := *;
      if say != "" {
        FinalizeSay(say, text);
        answered := true;
      }
    }

    // What the classified intent asks for. A saga is run for a confirmation only.
    method ByIntent(kind: Intent, text: string, ghost whole: string, ghost since: nat)
      returns (raised: bool, answered: bool, ghost how: SagaEnd)
      requires Busy(whole) && Booked() && since <= |replies|
      modifies this, acts, acts.store, acts.feed
      ensures Booked() && first == old(first) && (old(closed) ==> closed)
      ensures answered ==> !raised && Idle() && handled == old(handled) + [whole] && Remembers(old(history), history)
      ensures !answered ==> Busy(whole) && handled == old(handled) && history == old(history)
      ensures old(replies) <= replies
      ensures kind == ConfirmIntent ==> Booking(old(pending), old(deals), text, raised, how, since)
      ensures kind != ConfirmIntent ==> NotBooking(kind, old(pending), old(deals), old(replies), raised)
    {
      how := Raised;
      if kind == ConfirmIntent {
        Show(System, Note, whole);
        answered := false;
        raised, how := HandleConfirm(text, whole, since);
      } else {
        raised, answered := NoConfirm(kind, whole);
      }
    }

    // What any intent but a confirmation leaves behind: no saga was run; a
    // cancelled offer is gone; a question leaves the offer alone; and the
    // agent asked is the one the intent calls for.
    ghost predicate NotBooking(kind: Intent, open: Option<Offer>, past: seq<Deal>, before: seq<Reply>, raised: bool)
      reads this
    {
      && RunsIn(deals) == RunsIn(past)
      && match kind
         case CancelIntent => pending.None? && replies == before && !raised
         case SmalltalkIntent => deals == past && pending == open && replies == before && !raised
         case QuestionIntent => deals == past && pending == open && (!raised ==> Showed(|before|, Agent("enquiry-generic"), Output))
         case _ => !raised ==> Showed(|before|, Agent("resolve_business"), Output)
    }

    method NoConfirm(kind: Intent, ghost whole: string) returns (raised: bool, answered: bool)
      requires Busy(whole) && kind != ConfirmIntent
      modifies this`replies, this`replySeq, this`inbox, this`closed, this`pending, this`deals, this`history, this`handled
      ensures old(closed) ==> closed
      ensures answered ==> !raised && Idle() && handled == old(handled) + [whole] && Remembers(old(history), history)
      ensures !answered ==> Busy(whole) && handled == old(handled) && history == old(history)
      ensures old(replies) <= replies && NotBooking(kind, old(pending), old(deals), old(replies), raised)
    {
      raised, answered := false, false;
      if kind == BookIntent || kind == QueryIntent {
        Show(System, Note, whole);
        raised := HandleLookup(whole);
      } else if kind == QuestionIntent {
        Show(System, Note, whole);
        raised, answered := HandleQuestion(whole);
      } else if kind == CancelIntent {
        HandleCancel(whole);
      }
    }

    // What a message of this kind has done to the offer and to the bookings.
    ghost predicate Dealt(kind: Intent, text: string, open: Option<Offer>, past: seq<Deal>, raised: bool, how: SagaEnd, n: nat)
      reads this
    {
      match kind
      case ConfirmIntent => Booking(open, past, text, raised, how, n)
      case CancelIntent => RunsIn(deals) == RunsIn(past) && pending.None?
      case QuestionIntent => deals == past && pending == open
      case SmalltalkIntent => deals == past && pending == open
      case _ => RunsIn(deals) == RunsIn(past)
    }

    // From the intent to the one reply.
    method Respond(kind: Intent, text: string, ghost whole: string, ghost since: nat) returns (raised: bool, ghost how: SagaEnd)
      requires Busy(whole) && Booked() && since <= |replies|
      modifies this, acts, acts.store, acts.feed
      ensures Booked() && first == old(first) && (old(closed) ==> closed)
      ensures raised ==> Busy(whole) && handled == old(handled) && history == old(history)
      ensures !raised ==> Idle() && handled == old(handled) + [whole] && Remembers(old(history), history)
      ensures Dealt(kind, text, old(pending), old(deals), raised, how, since)
    {
      var answered;
      raised, answered, how := ByIntent(kind, text, whole, since);
      if !raised && !answered {
        ghost var told := replies;
        EmitSynthesizedReply(whole);
        StillShown(told, since);
      }
    }

    // What was shown stays shown when more replies come.
    lemma StillShown(before: seq<Reply>, n: nat)
      requires before <= replies
      ensures forall role, content :: ShownIn(before, n, role, content) ==> Showed(n, role, content)
    {
      forall role, content | ShownIn(before, n, role, content)
        ensures Showed(n, role, content)
      {
        var i :| n <= i < |before| && before[i].role == role && before[i].content == content;
        assert replies[i] == before[i];
      }
    }

    // One message. `text` is what was made of it, `said` what the classifier
    // made of that, if it answered: naming a time while an offer is open, or
    // being classified so, confirms; a saga is run for a confirmation only.
    method HandleMessage(whole: string) returns (raised: bool, ghost text: string, ghost said: Option<Intent>, ghost how: SagaEnd)
      requires Busy(whole) && Booked()
      modifies this, acts, acts.store, acts.feed
      ensures Booked() && first == old(first)
      ensures old(closed) ==> closed
      ensures raised ==> Busy(whole) && handled == old(handled)
      ensures !raised ==> Idle() && handled == old(handled) + [whole]
      ensures said.None? ==> raised && deals == old(deals) && pending == old(pending)
      ensures said.Some? ==>
        Dealt(if Confirms(text, said.value, old(pending)) then ConfirmIntent else said.value,
              text, old(pending), old(deals), raised, how, |old(replies)|)
      ensures var asked := Last12(old(history) + [FromUser(text)]); if raised then history == asked else Remembers(asked, history)
    {
      // The text without its location, its ordinals spelled out.
      var message: string := *;
      text, said, how := message, None, Raised;
      history := Last12(history + [FromUser(message)]);
      var kind;
      ghost var told;
      raised, kind, told := Classify(message, whole);
      if raised {
        return;
      }
      said := Some(told);
      raised, how := Respond(kind, message, whole, |old(replies)|);
    }

    ghost predicate Confirms(text: string, said: Intent, open: Option<Offer>) {
      said == ConfirmIntent || (open.Some? && iso(text).Some?)
    }

    // ---------------------------------------------------------- the main loop

    // Waits for a message, for the end, or for the timeout that ends it.
    method WaitForMessage()
      requires Idle()
      modifies this`replies, this`replySeq, this`inbox, this`closed
      ensures Idle() && (old(closed) ==> closed)
    {
      var n: nat :| 0 <= n;
      for i := 0 to n
        invariant Idle() && (old(closed) ==> closed)
      {
        OneSignalIdle();
      }
    }

    method OneSignalIdle()
      requires Idle()
      modifies this`replies, this`replySeq, this`inbox, this`closed
      ensures Idle() && (old(closed) ==> closed)
    {
      if * {
        Close();
      } else {
        var message: string := *;
        UserMessage(message);
        Assoc(handled, old(inbox), [message]);
      }
    }

    // The oldest message is taken from the inbox and handled.
    method TakeMessage() returns (raised: bool, ghost text: string)
      requires Idle() && Booked() && inbox != []
      modifies this, acts, acts.store, acts.feed
      ensures Booked() && first == old(first) && (old(closed) ==> closed)
      ensures text == old(inbox)[0]
      ensures raised ==> Busy(text) && handled == old(handled)
      ensures !raised ==> Idle() && handled == old(handled) + [text]
    {
      var message := inbox[0];
      inbox := inbox[1..];
      text := message;
      Assoc(handled, [message], inbox);
      ghost var made, said, how;
      raised, made, said, how := HandleMessage(message);
    }

    // The first `rounds` rounds of the loop. At every end of it: messages were
    // handled in the order received, each with exactly one say, and only the
    // message that raised, if any, is neither handled nor queued.
    method Run(rounds: nat) returns (raised: bool, total: nat, ghost current: seq<string>)
      requires Idle() && Booked()
      modifies this, acts, acts.store, acts.feed
      ensures Booked() && first == old(first)
      ensures Valid() && total == |replies|
      ensures Heard(replies) == handled + current + inbox
      ensures |current| <= 1 && (current != [] ==> raised)
      ensures old(handled) <= handled
      ensures old(closed) ==> handled == old(handled) && !raised
    {
      raised, current := false, [];
      for i := 0 to rounds
        invariant Idle() && old(handled) <= handled && !raised
        invariant old(closed) ==> closed && handled == old(handled)
        invariant Booked() && first == old(first)
      {
        WaitForMessage();
        BookingsGoOn();
        if closed {
          break;
        }
        if inbox == [] {
          continue;
        }
        ghost var text;
        raised, text := TakeMessage();
        if raised {
          return true, |replies|, [text];
        }
      }
      assert handled + [] == handled;
      return false, |replies|, [];
    }
  }

  // ------------------------------------------------------------ what the user was told, and the ledger

  // Whatever a conversation was told about a booking of its own that was new
  // to the ledger, this is how the row stands.
  lemma ToldAndBooked(c: ConversationWorkflow, key: string)
    requires c.Booked() && key in c.ours && !HasRow(c.first.rows, key)
    ensures SomeEnded(RunsIn(c.deals), key, Compensated) ==> IsCancelled(c.acts.store.rows, key)
    ensures SomeEnded(RunsIn(c.deals), key, ConfirmedOutcome) && NoneCancelled(RunsIn(c.deals), key) ==> IsConfirmed(c.acts.store.rows, key)
  {
    SagasLeave(c.first, RunsIn(c.deals), c.landed, c.ours, c.acts.W(), key);
  }

  // A booking that was compensated stays cancelled, and if the user confirms
  // the slot again and is told "confirmed", it still is.
  lemma ReconfirmedStaysCancelled(c: ConversationWorkflow, i: nat, key: string)
    requires c.Booked() && i < |RunsIn(c.deals)|
    requires var run := RunsIn(c.deals)[i]; KeyOf(run.input) == key && run.end.Result? && run.end.outcome == Compensated
    ensures IsCancelled(c.acts.store.rows, key)
  {
    CompensatedStays(c.first, RunsIn(c.deals), c.landed, c.ours, c.acts.W(), key);
  }

  function CompensatedRun(s: SagaInput): Saga.Run {
    Saga.Run(s, Result(Some(BookingId(KeyOf(s))), Compensated))
  }

  // A saga on an empty ledger that ends compensated.
  lemma CompensatedRuns(s: SagaInput, landed: seq<Request>, later: World)
    requires landed == [CreateRequest(s), CancelRequest(s)] && later == World(LandAll([], landed), [], [])
    ensures SagaRan(World([], [], []), s, CompensatedRun(s).end, landed, {KeyOf(s)}, later)
  {
    assert landed[0] == CreateRequest(s) && landed[1] == CancelRequest(s);
    NoFeed(landed);
  }

  lemma CompensatedLeaves(s: SagaInput, landed: seq<Request>, later: World)
    requires landed == [CreateRequest(s), CancelRequest(s)] && later == World(LandAll([], landed), [], [])
    ensures Sound(later) && IsCancelled(later.rows, KeyOf(s))
  {
    assert landed[0] == CreateRequest(s) && landed[1] == CancelRequest(s);
    CompensatedIsCancelled(World([], [], []), landed, s);
    RowIffCreated([], landed, KeyOf(s));
  }

  lemma NothingRan(w: World, ours: set<string>)
    requires w.inflight == []
    ensures Ran(w, [], [], ours, w)
  {
  }

  lemma CompensatedOnce(s: SagaInput) returns (landed: seq<Request>, later: World)
    ensures Ran(World([], [], []), [CompensatedRun(s)], landed, {KeyOf(s)}, later)
    ensures Sound(later) && IsCancelled(later.rows, KeyOf(s))
  {
    var empty, ours := World([], [], []), {KeyOf(s)};
    landed := [CreateRequest(s), CancelRequest(s)];
    later := World(LandAll([], landed), [], []);
    CompensatedRuns(s, landed, later);
    CompensatedLeaves(s, landed, later);
    NothingRan(empty, ours);
    RanOn(empty, [], [], ours, empty, CompensatedRun(s), landed, later);
    assert [] + landed == landed && [] + [CompensatedRun(s)] == [CompensatedRun(s)];
  }

  // And that does happen: the offer stays open after a compensated saga, and
  // a second one for its slot reports "confirmed" on the cancelled row.
  lemma CompensatedCanBeReconfirmed(s: SagaInput) returns (deals: seq<Deal>, landed: seq<Request>, later: World)
    ensures Replay(deals) == Some(None) && RunsIn(deals) == [CompensatedRun(s), Saga.Run(s, ConfirmedEnd(s))]
    ensures Ran(World([], [], []), RunsIn(deals), landed, {KeyOf(s)}, later) && IsCancelled(later.rows, KeyOf(s))
  {
    var l1, mid := CompensatedOnce(s);
    var run2 := Saga.Run(s, ConfirmedEnd(s));
    later := Spoiled(mid, s, [], {KeyOf(s)});
    var l2 := [CreateRequest(s), NotifyRequest(s, "booking_confirmed")] + [];
    RanOn(World([], [], []), [CompensatedRun(s)], l1, {KeyOf(s)}, mid, run2, l2, later);
    landed := l1 + l2;
    deals := BookedTwice(s, CompensatedRun(s), run2);
  }

  lemma NoFeed(landed: seq<Request>)
    requires |landed| == 2 && !landed[0].Notify? && !landed[1].Notify?
    ensures FeedAll([], landed) == []
  {
    var one := landed[..1];
    assert one[..0] == [] && FeedAll([], one) == LandFeed(FeedAll([], []), one[0]);
    assert FeedAll([], landed) == LandFeed(FeedAll([], one), landed[1]);
  }

  lemma BookedTwice(s: SagaInput, run1: Saga.Run, run2: Saga.Run) returns (deals: seq<Deal>)
    requires !Succeeded(run1) && Succeeded(run2)
    ensures Replay(deals) == Some(None) && RunsIn(deals) == [run1, run2]
  {
    var start := Started(s.business, s.slot);
    var d1 := [Offered(Offer(s.business, [s.slot]))];
    assert d1[..0] == [];
    assert Replay(d1) == Some(Some(Offer(s.business, [s.slot]))) && RunsIn(d1) == [];
    ReplaySnoc(d1, start);
    ReplaySnoc(d1 + [start], Ended(run1));
    ReplaySnoc(d1 + [start] + [Ended(run1)], start);
    ReplaySnoc(d1 + [start] + [Ended(run1)] + [start], Ended(run2));
    RunsSnoc(d1, start);
    RunsSnoc(d1 + [start], Ended(run1));
    RunsSnoc(d1 + [start] + [Ended(run1)], start);
    RunsSnoc(d1 + [start] + [Ended(run1)] + [start], Ended(run2));
    deals := d1 + [start] + [Ended(run1)] + [start] + [Ended(run2)];
  }
}
