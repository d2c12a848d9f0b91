// The booking saga (examples/booking/workflows/saga_booking.py) over
// activities that are delivered at least once.
module Saga {
  import opened Basics
  import opened Bookings
  import opened Delivery
  import opened SagaKeys

  // ------------------------------------------------------------ the saga

  datatype SagaInput = SagaInput(session: string, business: string, slot: string, contact: string)

  datatype Outcome = ConfirmedOutcome | Compensated | Failed

  // What run_booking_saga returns, or that it raised.
  datatype SagaEnd = Result(bookingId: Option<string>, outcome: Outcome) | Raised

  function KeyOf(s: SagaInput): string {
    IdempotencyKey(s.session, s.business, s.slot)
  }

  function CreateRequest(s: SagaInput): Request {
    Create(KeyOf(s), s.business, s.slot, s.contact)
  }

  function NotifyRequest(s: SagaInput, kind: string): Request {
    Notify(BookingId(KeyOf(s)), kind)
  }

  function CancelRequest(s: SagaInput): Request {
    Cancel(BookingId(KeyOf(s)), "compensation")
  }

  function ConfirmedEnd(s: SagaInput): SagaEnd {
    Result(Some(BookingId(KeyOf(s))), ConfirmedOutcome)
  }

  // Whether a saga that ended so has sent no cancel.
  predicate NeverCancels(end: SagaEnd) {
    end.Result? && (end.outcome == ConfirmedOutcome || end.bookingId.None?)
  }

  // What a saga that ended so may have sent.
  function Sends(s: SagaInput, end: SagaEnd): set<Request> {
    {CreateRequest(s), NotifyRequest(s, "booking_confirmed")} +
    if NeverCancels(end) then {} else {CancelRequest(s), NotifyRequest(s, "booking_compensated")}
  }

  ghost predicate Before(landed: seq<Request>, a: Request, b: Request) {
    exists i, j :: 0 <= i < j < |landed| && landed[i] == a && landed[j] == b
  }

  // What has taken effect for certain when a saga ends so.
  ghost predicate Took(s: SagaInput, end: SagaEnd, landed: seq<Request>) {
    end.Result? ==>
      && (end.outcome == ConfirmedOutcome ==>
            && end == ConfirmedEnd(s)
            && Before(landed, CreateRequest(s), NotifyRequest(s, "booking_confirmed")))
      && (end.outcome == Compensated ==>
            && end.bookingId == Some(BookingId(KeyOf(s)))
            && Before(landed, CreateRequest(s), CancelRequest(s)))
  }

  // A saga that went from one world to another.
  ghost predicate SagaRan(w: World, s: SagaInput, end: SagaEnd, landed: seq<Request>, ours: set<string>, later: World) {
    Goes(w, landed, Sends(s, end), ours, later) && Took(s, end, landed)
  }

  lemma BeforeJoin(l1: seq<Request>, l2: seq<Request>, a: Request, b: Request)
    requires a in l1 && b in l2
    ensures Before(l1 + l2, a, b)
  {
    var i :| 0 <= i < |l1| && l1[i] == a;
    var j :| 0 <= j < |l2| && l2[j] == b;
    assert (l1 + l2)[i] == a && (l1 + l2)[|l1| + j] == b;
  }

  lemma BeforeIn(before: seq<Request>, l: seq<Request>, after: seq<Request>, a: Request, b: Request)
    requires Before(l, a, b)
    ensures Before(before + l + after, a, b)
  {
    var i, j :| 0 <= i < j < |l| && l[i] == a && l[j] == b;
    var all := before + l + after;
    assert all[|before| + i] == a && all[|before| + j] == b;
  }

  lemma TookIn(before: seq<Request>, l: seq<Request>, after: seq<Request>, s: SagaInput, end: SagaEnd)
    requires Took(s, end, l)
    ensures Took(s, end, before + l + after)
  {
    if end.Result? && end.outcome == ConfirmedOutcome {
      BeforeIn(before, l, after, CreateRequest(s), NotifyRequest(s, "booking_confirmed"));
    }
    if end.Result? && end.outcome == Compensated {
      BeforeIn(before, l, after, CreateRequest(s), CancelRequest(s));
    }
  }

  predicate Compensates(end: SagaEnd) {
    end.Result? && end.outcome == Compensated
  }

  // How hard the saga tried each of its steps.
  datatype Tried = Tried(create: Effort, notify: Effort, cancel: Effort, tell: Effort)

  // A step is given up only for good, or after its last attempt: three for a
  // create and a cancel, two for a notification.
  ghost predicate Persisted(s: SagaInput, end: SagaEnd, landed: seq<Request>, tried: Tried) {
    && tried.create.tries <= 3 && tried.notify.tries <= 2 && tried.cancel.tries <= 3 && tried.tell.tries <= 2
    && (Compensates(end) ==> NotifyRequest(s, "booking_compensated") in landed || tried.tell.fatal || tried.tell.tries == 2)
    && (end.Raised? && tried.notify == Effort(0, false) ==> tried.create.fatal || tried.create.tries == 3)
    && (tried.cancel != Effort(0, false) ==> tried.notify.fatal || tried.notify.tries == 2)
    && (tried.cancel != Effort(0, false) && !Compensates(end) ==> tried.cancel.fatal || tried.cancel.tries == 3)
  }

  // Create, notify, and cancel again if nobody could be notified.
  method RunBookingSaga(acts: Activities, s: SagaInput, ours: set<string>) returns (end: SagaEnd, ghost landed: seq<Request>, ghost tried: Tried)
    requires acts.Valid()
    modifies acts, acts.store, acts.feed
    ensures acts.Valid() && SagaRan(old(acts.W()), s, end, landed, ours, acts.W())
    ensures LeftAs(s, end, old(acts.W()), landed, ours, acts.W())
    ensures Persisted(s, end, landed, tried)
  {
    var created, notified;
    ghost var none := Effort(0, false);
    tried := Tried(none, none, none, none);
    ghost var effort;
    created, landed, effort := acts.Execute(CreateRequest(s), 3, ours);
    tried := tried.(create := effort);
    if !created {
      end := Raised;
      return;
    }
    if * {
      // The activity's output names no booking.
      end := Result(None, Failed);
      SagaLeaves(old(acts.W()), s, end, landed, ours, acts.W());
      return;
    }
    ghost var mid := acts.W();
    ghost var more;
    RowIffCreated(old(acts.store.rows), landed, KeyOf(s));
    notified, more, effort := acts.Execute(NotifyRequest(s, "booking_confirmed"), 2, ours);
    tried := tried.(notify := effort);
    GoesOn(old(acts.W()), landed, {CreateRequest(s)}, mid, more, {NotifyRequest(s, "booking_confirmed")}, acts.W(), ours);
    if notified {
      BeforeJoin(landed, more, CreateRequest(s), NotifyRequest(s, "booking_confirmed"));
      end, landed := ConfirmedEnd(s), landed + more;
    } else {
      ghost var tell;
      end, landed, effort, tell := Compensate(acts, s, ours, old(acts.W()), landed + more);
      tried := tried.(cancel := effort, tell := tell);
    }
    SagaLeaves(old(acts.W()), s, end, landed, ours, acts.W());
  }

  method Compensate(acts: Activities, s: SagaInput, ours: set<string>, ghost first: World, ghost before: seq<Request>)
    returns (end: SagaEnd, ghost landed: seq<Request>, ghost effort: Effort, ghost tell: Effort)
    requires acts.Valid() && CreateRequest(s) in before && Sound(first)
    requires Goes(first, before, {CreateRequest(s), NotifyRequest(s, "booking_confirmed")}, ours, acts.W())
    modifies acts, acts.store, acts.feed
    ensures acts.Valid() && SagaRan(first, s, end, landed, ours, acts.W()) && !NeverCancels(end)
    ensures effort.tries <= 3 && (effort.fatal || effort.tries == 3 || Compensates(end)) && tell.tries <= 2
    ensures Compensates(end) ==> NotifyRequest(s, "booking_compensated") in landed || tell.fatal || tell.tries == 2
  {
    tell := Effort(0, false);
    CreatedIsSendable(first, before, s);
    ghost var mid := acts.W();
    ghost var more;
    var cancelled;
    cancelled, more, effort := acts.Execute(CancelRequest(s), 3, ours);
    landed := before + more;
    GoesOn(first, before, {CreateRequest(s), NotifyRequest(s, "booking_confirmed")}, mid, more, {CancelRequest(s)}, acts.W(), ours);
    if !cancelled {
      GoesMore(first, landed, {CreateRequest(s), NotifyRequest(s, "booking_confirmed")} + {CancelRequest(s)}, Sends(s, Raised), ours, acts.W());
      // The failure is caught only if it is an ApplicationError.
      end := Raised;
      if * {
        end := Result(Some(BookingId(KeyOf(s))), Failed);
      }
      return;
    }
    BeforeJoin(before, more, CreateRequest(s), CancelRequest(s));
    end, landed, tell := TellCompensated(acts, s, ours, first, landed);
  }

  // The feed entry of a compensation; its failure changes nothing.
  method TellCompensated(acts: Activities, s: SagaInput, ours: set<string>, ghost first: World, ghost before: seq<Request>)
    returns (end: SagaEnd, ghost landed: seq<Request>, ghost effort: Effort)
    requires acts.Valid() && Before(before, CreateRequest(s), CancelRequest(s))
    requires Goes(first, before, {CreateRequest(s), NotifyRequest(s, "booking_confirmed")} + {CancelRequest(s)}, ours, acts.W())
    modifies acts, acts.store, acts.feed
    ensures acts.Valid() && SagaRan(first, s, end, landed, ours, acts.W()) && !NeverCancels(end) && Compensates(end)
    ensures effort.tries <= 2 && (NotifyRequest(s, "booking_compensated") in landed || effort.fatal || effort.tries == 2)
  {
    ghost var mid := acts.W();
    ghost var more;
    ghost var own := {CreateRequest(s), NotifyRequest(s, "booking_confirmed")} + {CancelRequest(s)};
    var told;
    told, more, effort := acts.Execute(NotifyRequest(s, "booking_compensated"), 2, ours);
    end, landed := Result(Some(BookingId(KeyOf(s))), Compensated), before + more;
    GoesOn(first, before, own, mid, more, {NotifyRequest(s, "booking_compensated")}, acts.W(), ours);
    GoesMore(first, landed, own + {NotifyRequest(s, "booking_compensated")}, Sends(s, end), ours, acts.W());
    BeforeIn([], before, more, CreateRequest(s), CancelRequest(s));
    assert [] + before + more == landed;
  }

  lemma CreatedIsSendable(w: World, landed: seq<Request>, s: SagaInput)
    requires Sound(w) && CreateRequest(s) in landed
    ensures Sendable(LandAll(w.rows, landed), CancelRequest(s))
  {
    RowIffCreated(w.rows, landed, KeyOf(s));
    SamePlace(LandAll(w.rows, landed), KeyOf(s));
  }

  // ------------------------------------------------------------ what a saga leaves behind

  // No attempt to cancel the row for `key` is under way.
  ghost predicate NoCancelPending(w: World, key: string) {
    forall r :: r in w.inflight ==> !Cancels(r, key)
  }

  // The booking a saga leaves behind, by how it ended.
  ghost predicate LeftAs(s: SagaInput, end: SagaEnd, w: World, landed: seq<Request>, ours: set<string>, later: World) {
    var key := KeyOf(s);
    end.Result? ==>
      && (end.outcome == ConfirmedOutcome ==>
            && end.bookingId == Some(BookingId(key))
            && HasRow(later.rows, key)
            && HasId(later.entries, NotificationId(BookingId(key), "booking_confirmed"))
            && (IsConfirmed(later.rows, key) <==> !IsCancelled(w.rows, key) && !CancelLands(w.rows, landed, key))
            && (!IsCancelled(w.rows, key) && NoCancelPending(w, key) && key in ours ==>
                  IsConfirmed(later.rows, key) && NoCancelPending(later, key)))
      && (end.outcome == Compensated ==> end.bookingId == Some(BookingId(key)) && IsCancelled(later.rows, key))
      && (end.outcome != Failed && !HasRow(w.rows, key) && NoCreatePending(w, key) && key in ours ==>
            HasRow(later.rows, key) && IsFor(RowOf(later.rows, key).value, s))
  }

  // No attempt to create the row for `key` is under way.
  ghost predicate NoCreatePending(w: World, key: string) {
    forall r :: r in w.inflight ==> !Creates(r, key)
  }

  // The row is for the business, slot and contact of this saga.
  predicate IsFor(row: Row, s: SagaInput) {
    row.business == s.business && row.slot == s.slot && row.contact == s.contact
  }

  lemma BookedForInput(w: World, s: SagaInput, end: SagaEnd, landed: seq<Request>, ours: set<string>, later: World)
    requires Sound(w) && Goes(w, landed, Sends(s, end), ours, later)
    requires !HasRow(w.rows, KeyOf(s)) && NoCreatePending(w, KeyOf(s)) && KeyOf(s) in ours && HasRow(later.rows, KeyOf(s))
    ensures IsFor(RowOf(later.rows, KeyOf(s)).value, s)
  {
    var key := KeyOf(s);
    RowIsKept(w.rows, landed, key);
    var r :| r in landed && Creates(r, key) && MadeBy(r, RowOf(later.rows, key).value);
    assert About(r, key);
    assert r in w.inflight || r in Sends(s, end) || Foreign(r, ours);
    assert r == CreateRequest(s);
  }

  // A row that a saga was the only one to cancel says it was a compensation.
  lemma CompensatedForReason(w: World, s: SagaInput, end: SagaEnd, landed: seq<Request>, ours: set<string>, later: World)
    requires Sound(w) && Goes(w, landed, Sends(s, end), ours, later)
    requires !IsCancelled(w.rows, KeyOf(s)) && NoCancelPending(w, KeyOf(s)) && KeyOf(s) in ours && IsCancelled(later.rows, KeyOf(s))
    ensures RowOf(later.rows, KeyOf(s)).value.reason == Some("compensation")
  {
    var key := KeyOf(s);
    ReasonIsKept(w.rows, landed, key);
    var r :| r in landed && Cancels(r, key) && GaveReason(r, RowOf(later.rows, key).value);
    assert About(r, key);
    assert r in w.inflight || r in Sends(s, end) || Foreign(r, ours);
    assert r == CancelRequest(s);
  }

  // Without colons, two inputs have the same key exactly when they are for the
  // same session, business and slot.
  lemma InputsShareKey(a: SagaInput, b: SagaInput)
    requires ':' !in a.session && ':' !in a.business && ':' !in b.session && ':' !in b.business
    ensures KeyOf(a) == KeyOf(b) <==> a.session == b.session && a.business == b.business && a.slot == b.slot
  {
    KeysAreUnique(a.session, a.business, a.slot, b.session, b.business, b.slot);
  }

  lemma NoneCancels(w: World, landed: seq<Request>, own: set<Request>, ours: set<string>, later: World, key: string)
    requires Goes(w, landed, own, ours, later) && NoCancelPending(w, key) && key in ours
    requires forall r :: r in own ==> !Cancels(r, key)
    ensures !CancelLands(w.rows, landed, key) && NoCancelPending(later, key)
  {
    forall r | r in landed || r in later.inflight
      ensures !Cancels(r, key)
    {
      assert r in w.inflight || r in own || Foreign(r, ours);
      assert Cancels(r, key) ==> About(r, key);
    }
  }

  lemma CompensatedIsCancelled(w: World, landed: seq<Request>, s: SagaInput)
    requires Ledger(w.rows) && Before(landed, CreateRequest(s), CancelRequest(s))
    ensures IsCancelled(LandAll(w.rows, landed), KeyOf(s))
  {
    var key := KeyOf(s);
    var i, j :| 0 <= i < j < |landed| && landed[i] == CreateRequest(s) && landed[j] == CancelRequest(s);
    assert landed[..j][i] == CreateRequest(s);
    RowIffCreated(w.rows, landed[..j], key);
    assert Creates(CreateRequest(s), key) && CreateRequest(s) in landed[..j];
    assert Cancels(landed[j], key);
    CancelledIff(w.rows, landed, key);
  }

  lemma SagaLeaves(w: World, s: SagaInput, end: SagaEnd, landed: seq<Request>, ours: set<string>, later: World)
    requires Sound(w) && SagaRan(w, s, end, landed, ours, later)
    ensures LeftAs(s, end, w, landed, ours, later)
  {
    var key := KeyOf(s);
    if end.Result? && end.outcome == Compensated {
      CompensatedIsCancelled(w, landed, s);
    }
    if end.Result? && end.outcome != Failed && !HasRow(w.rows, key) && NoCreatePending(w, key) && key in ours {
      assert Creates(CreateRequest(s), key) && CreateRequest(s) in landed;
      RowIffCreated(w.rows, landed, key);
      BookedForInput(w, s, end, landed, ours, later);
    }
    if end.Result? && end.outcome == ConfirmedOutcome {
      assert Creates(CreateRequest(s), key) && CreateRequest(s) in landed;
      RowIffCreated(w.rows, landed, key);
      CancelledIff(w.rows, landed, key);
      NotifiedStays(w.entries, landed, NotifyRequest(s, "booking_confirmed"));
      if !IsCancelled(w.rows, key) && NoCancelPending(w, key) && key in ours {
        NoneCancels(w, landed, Sends(s, end), ours, later, key);
      }
    }
  }

  // "confirmed" is a promise that holds whatever lands, exactly when the row is
  // not cancelled already, no cancel for it is still under way, and nobody
  // else works on the key.
  lemma ConfirmedHoldsIff(w: World, s: SagaInput, ours: set<string>)
    requires Sound(w)
    ensures (forall landed, later :: SagaRan(w, s, ConfirmedEnd(s), landed, ours, later) ==> IsConfirmed(later.rows, KeyOf(s)))
      <==> !IsCancelled(w.rows, KeyOf(s)) && NoCancelPending(w, KeyOf(s)) && KeyOf(s) in ours
  {
    var key := KeyOf(s);
    forall landed, later | SagaRan(w, s, ConfirmedEnd(s), landed, ours, later)
      ensures LeftAs(s, ConfirmedEnd(s), w, landed, ours, later)
    {
      SagaLeaves(w, s, ConfirmedEnd(s), landed, ours, later);
    }
    if IsCancelled(w.rows, key) {
      var later := Spoiled(w, s, [], ours);
      assert !IsConfirmed(later.rows, key);
    } else if !NoCancelPending(w, key) {
      var r :| r in w.inflight && Cancels(r, key);
      var later := Spoiled(w, s, [r], ours);
      assert !IsConfirmed(later.rows, key);
    } else if key !in ours {
      ForeignCancel(key, ours);
      var later := Spoiled(w, s, [CancelRequest(s)], ours);
      assert !IsConfirmed(later.rows, key);
    }
  }

  lemma ForeignCancel(key: string, ours: set<string>)
    requires key !in ours
    ensures forall reason :: Foreign(Cancel(BookingId(key), reason), ours)
  {
    forall k | k in ours
      ensures BookingId(key) != BookingId(k)
    {
      if BookingId(key) == BookingId(k) {
        BookingIdInjective(key, k);
      }
    }
  }

  // A run that reports "confirmed" on a row that ends cancelled: it was, or
  // the cancel in `late` lands after the notification.
  lemma Spoiled(w: World, s: SagaInput, late: seq<Request>, ours: set<string>) returns (later: World)
    requires Sound(w)
    requires if late == [] then IsCancelled(w.rows, KeyOf(s))
      else |late| == 1 && Cancels(late[0], KeyOf(s)) && (late[0] in w.inflight || Foreign(late[0], ours))
    ensures SagaRan(w, s, ConfirmedEnd(s), [CreateRequest(s), NotifyRequest(s, "booking_confirmed")] + late, ours, later)
    ensures IsCancelled(later.rows, KeyOf(s))
  {
    var key := KeyOf(s);
    var seen := [CreateRequest(s), NotifyRequest(s, "booking_confirmed")];
    var landed := seen + late;
    later := World(LandAll(w.rows, landed), FeedAll(w.entries, landed), w.inflight);
    assert landed[0] == CreateRequest(s) && landed[1] == NotifyRequest(s, "booking_confirmed");
    CancelledIff(w.rows, landed, key);
    if late != [] {
      assert landed[..2] == seen && landed[2] == late[0];
      assert Creates(seen[0], key);
      RowIffCreated(w.rows, seen, key);
    }
  }

  // How a later saga can be undone: the first one creates the row, cannot
  // notify, and fails with its cancel unheard of; the second finds the row,
  // notifies and reports "confirmed"; then the cancel lands.
  lemma LateCancelUndoes(s: SagaInput) returns (l1: seq<Request>, mid: World, l2: seq<Request>, later: World)
    ensures var empty := World([], [], []);
      && SagaRan(empty, s, Raised, l1, {KeyOf(s)}, mid) && Sound(mid) && IsConfirmed(mid.rows, KeyOf(s))
      && SagaRan(mid, s, ConfirmedEnd(s), l2, {KeyOf(s)}, later)
      && IsCancelled(later.rows, KeyOf(s))
  {
    var empty := World([], [], []);
    var key := KeyOf(s);
    l1 := [CreateRequest(s)];
    mid := World(LandAll([], l1), [], [CancelRequest(s)]);
    OneLands([], [], CreateRequest(s));
    Landing([], CreateRequest(s), key);
    CreatedIsSendable(empty, l1, s);
    l2 := [CreateRequest(s), NotifyRequest(s, "booking_confirmed")] + [CancelRequest(s)];
    later := Spoiled(mid, s, [CancelRequest(s)], {key});
  }

  // And it stays so: whatever is still in flight may land after the saga is
  // over. What was promised still holds, and a cancelled row is never brought
  // back.
  method SagaAndAfter(acts: Activities, s: SagaInput, ours: set<string>) returns (end: SagaEnd, ghost landed: seq<Request>)
    requires acts.Valid()
    modifies acts, acts.store, acts.feed
    ensures acts.Valid() && SagaRan(old(acts.W()), s, end, landed, ours, acts.W())
    ensures LeftAs(s, end, old(acts.W()), landed, ours, acts.W())
  {
    ghost var tried;
    end, landed, tried := RunBookingSaga(acts, s, ours);
    ghost var mid := acts.W();
    ghost var more := acts.Meanwhile(ours);
    GoesOn(old(acts.W()), landed, Sends(s, end), mid, more, {}, acts.W(), ours);
    GoesMore(old(acts.W()), landed + more, Sends(s, end) + {}, Sends(s, end), ours, acts.W());
    TookIn([], landed, more, s, end);
    assert [] + landed + more == landed + more;
    landed := landed + more;
    SagaLeaves(old(acts.W()), s, end, landed, ours, acts.W());
  }

  // ------------------------------------------------------------ any number of sagas

  datatype Run = Run(input: SagaInput, end: SagaEnd)

  function SendsAll(runs: seq<Run>): set<Request> {
    if runs == [] then {} else SendsAll(runs[..|runs| - 1]) + Sends(runs[|runs| - 1].input, runs[|runs| - 1].end)
  }

  // Sagas that ran one after the other, with anything landing in between.
  ghost predicate Ran(w: World, runs: seq<Run>, landed: seq<Request>, ours: set<string>, later: World) {
    && Goes(w, landed, SendsAll(runs), ours, later)
    && forall i :: 0 <= i < |runs| ==> Took(runs[i].input, runs[i].end, landed)
  }

  lemma RanOn(w: World, runs: seq<Run>, landed: seq<Request>, ours: set<string>, mid: World, run: Run, more: seq<Request>, later: World)
    requires Ran(w, runs, landed, ours, mid) && SagaRan(mid, run.input, run.end, more, ours, later)
    ensures Ran(w, runs + [run], landed + more, ours, later)
  {
    var all := runs + [run];
    assert all[..|all| - 1] == runs;
    GoesOn(w, landed, SendsAll(runs), mid, more, Sends(run.input, run.end), later, ours);
    forall i | 0 <= i < |all|
      ensures Took(all[i].input, all[i].end, landed + more)
    {
      if i < |runs| {
        TookIn([], landed, more, runs[i].input, runs[i].end);
        assert [] + landed + more == landed + more;
      } else {
        TookIn(landed, more, [], run.input, run.end);
        assert landed + more + [] == landed + more;
      }
    }
  }

  lemma RanIdle(w: World, runs: seq<Run>, landed: seq<Request>, ours: set<string>, mid: World, more: seq<Request>, later: World)
    requires Ran(w, runs, landed, ours, mid) && Goes(mid, more, {}, ours, later)
    ensures Ran(w, runs, landed + more, ours, later)
  {
    GoesOn(w, landed, SendsAll(runs), mid, more, {}, later, ours);
    GoesMore(w, landed + more, SendsAll(runs) + {}, SendsAll(runs), ours, later);
    forall i | 0 <= i < |runs|
      ensures Took(runs[i].input, runs[i].end, landed + more)
    {
      TookIn([], landed, more, runs[i].input, runs[i].end);
      assert [] + landed + more == landed + more;
    }
  }

  ghost predicate SomeEnded(runs: seq<Run>, key: string, outcome: Outcome) {
    exists i :: 0 <= i < |runs| && KeyOf(runs[i].input) == key && runs[i].end.Result? && runs[i].end.outcome == outcome
  }

  ghost predicate NoneCancelled(runs: seq<Run>, key: string) {
    forall i :: 0 <= i < |runs| && KeyOf(runs[i].input) == key ==> NeverCancels(runs[i].end)
  }

  lemma {:induction false} SentBySome(runs: seq<Run>, r: Request)
    requires r in SendsAll(runs)
    ensures exists i :: 0 <= i < |runs| && r in Sends(runs[i].input, runs[i].end)
  {
    var n := |runs| - 1;
    if r in Sends(runs[n].input, runs[n].end) {
      assert 0 <= n < |runs|;
    } else {
      SentBySome(runs[..n], r);
      var i :| 0 <= i < n && r in Sends(runs[..n][i].input, runs[..n][i].end);
      assert r in Sends(runs[i].input, runs[i].end);
    }
  }

  // Who reported "compensated" is right, whatever later sagas report.
  lemma CompensatedStays(w: World, runs: seq<Run>, landed: seq<Request>, ours: set<string>, later: World, key: string)
    requires Sound(w) && Ran(w, runs, landed, ours, later) && SomeEnded(runs, key, Compensated)
    ensures IsCancelled(later.rows, key)
  {
    var i :| 0 <= i < |runs| && KeyOf(runs[i].input) == key && runs[i].end.Result? && runs[i].end.outcome == Compensated;
    CompensatedIsCancelled(w, landed, runs[i].input);
  }

  // A booking reported as "confirmed" is in the ledger and in the feed, and
  // is confirmed if no cancel for it was, is or comes under way.
  lemma ConfirmedStays(w: World, runs: seq<Run>, landed: seq<Request>, ours: set<string>, later: World, key: string)
    requires Sound(w) && Ran(w, runs, landed, ours, later) && SomeEnded(runs, key, ConfirmedOutcome)
    ensures HasRow(later.rows, key) && HasId(later.entries, NotificationId(BookingId(key), "booking_confirmed"))
    ensures !IsCancelled(w.rows, key) && NoCancelPending(w, key) && NoneCancelled(runs, key) && key in ours ==> IsConfirmed(later.rows, key)
  {
    var i :| 0 <= i < |runs| && KeyOf(runs[i].input) == key && runs[i].end.Result? && runs[i].end.outcome == ConfirmedOutcome;
    var s := runs[i].input;
    assert Creates(CreateRequest(s), key) && CreateRequest(s) in landed;
    RowIffCreated(w.rows, landed, key);
    NotifiedStays(w.entries, landed, NotifyRequest(s, "booking_confirmed"));
    if NoCancelPending(w, key) && NoneCancelled(runs, key) && key in ours {
      RunsSendNoCancel(runs, key);
      NoneCancels(w, landed, SendsAll(runs), ours, later, key);
      CancelledIff(w.rows, landed, key);
    }
  }

  // Nothing is booked that nobody asked for.
  lemma BookedAsAsked(w: World, runs: seq<Run>, landed: seq<Request>, ours: set<string>, later: World, key: string)
    requires Sound(w) && Ran(w, runs, landed, ours, later) && key in ours
    requires !HasRow(w.rows, key) && HasRow(later.rows, key)
    ensures exists r :: (r in w.inflight || r in SendsAll(runs)) && Creates(r, key) && MadeBy(r, RowOf(later.rows, key).value)
  {
    RowIsKept(w.rows, landed, key);
    var r :| r in landed && Creates(r, key) && MadeBy(r, RowOf(later.rows, key).value);
    assert About(r, key);
  }

  // The booking that any number of sagas leave behind for a key that had no
  // row: cancelled if some saga reported "compensated"; confirmed if some saga
  // reported "confirmed" and none sent a cancel; and as somebody asked.
  lemma SagasLeave(w: World, runs: seq<Run>, landed: seq<Request>, ours: set<string>, later: World, key: string)
    requires Sound(w) && Ran(w, runs, landed, ours, later) && !HasRow(w.rows, key) && key in ours
    ensures Ledger(later.rows)
    ensures SomeEnded(runs, key, Compensated) ==> IsCancelled(later.rows, key)
    ensures SomeEnded(runs, key, ConfirmedOutcome) && NoneCancelled(runs, key) ==> IsConfirmed(later.rows, key)
    ensures HasRow(later.rows, key) ==>
      exists r :: (r in w.inflight || r in SendsAll(runs)) && Creates(r, key) && MadeBy(r, RowOf(later.rows, key).value)
  {
    RowIffCreated(w.rows, landed, key);
    SoundHasNoCancel(w, key);
    if SomeEnded(runs, key, Compensated) {
      CompensatedStays(w, runs, landed, ours, later, key);
    }
    if SomeEnded(runs, key, ConfirmedOutcome) {
      ConfirmedStays(w, runs, landed, ours, later, key);
    }
    if HasRow(later.rows, key) {
      BookedAsAsked(w, runs, landed, ours, later, key);
    }
  }

  lemma SoundHasNoCancel(w: World, key: string)
    requires Sound(w) && !HasRow(w.rows, key)
    ensures NoCancelPending(w, key)
  {
    SamePlace(w.rows, key);
  }

  lemma RunsSendNoCancel(runs: seq<Run>, key: string)
    requires NoneCancelled(runs, key)
    ensures forall r :: r in SendsAll(runs) ==> !Cancels(r, key)
  {
    forall r | r in SendsAll(runs)
      ensures !Cancels(r, key)
    {
      SentBySome(runs, r);
      var i :| 0 <= i < |runs| && r in Sends(runs[i].input, runs[i].end);
      if Cancels(r, key) {
        BookingIdInjective(KeyOf(runs[i].input), key);
      }
    }
  }

  // Sagas one after the other, on any keys, with anything landing before,
  // between and after them.
  method RunSagas(acts: Activities, inputs: seq<SagaInput>, ours: set<string>) returns (runs: seq<Run>, ghost landed: seq<Request>)
    requires acts.Valid()
    modifies acts, acts.store, acts.feed
    ensures acts.Valid() && Ran(old(acts.W()), runs, landed, ours, acts.W())
    ensures |runs| == |inputs| && forall i :: 0 <= i < |runs| ==> runs[i].input == inputs[i]
  {
    runs := [];
    landed := acts.Meanwhile(ours);
    for n := 0 to |inputs|
      invariant acts.Valid() && Ran(old(acts.W()), runs, landed, ours, acts.W())
      invariant |runs| == n && forall i :: 0 <= i < n ==> runs[i].input == inputs[i]
    {
      ghost var mid := acts.W();
      var end;
      ghost var more;
      end, more := SagaAndAfter(acts, inputs[n], ours);
      RanOn(old(acts.W()), runs, landed, ours, mid, Run(inputs[n], end), more, acts.W());
      runs, landed := runs + [Run(inputs[n], end)], landed + more;
    }
  }

  // On a new ledger every key of ours is settled by the sagas run for it.
  method SettleAll(inputs: seq<SagaInput>, ours: set<string>) returns (acts: Activities, runs: seq<Run>)
    ensures fresh(acts) && fresh(acts.store) && acts.Valid() && |runs| == |inputs|
    ensures forall i :: 0 <= i < |runs| ==> runs[i].input == inputs[i]
    ensures forall key :: key in ours && SomeEnded(runs, key, Compensated) ==> IsCancelled(acts.store.rows, key)
    ensures forall key :: key in ours && SomeEnded(runs, key, ConfirmedOutcome) && NoneCancelled(runs, key) ==> IsConfirmed(acts.store.rows, key)
  {
    var store := new BookingsStore();
    var feed := new Feed();
    acts := new Activities(store, feed);
    ghost var first := acts.W();
    ghost var landed;
    runs, landed := RunSagas(acts, inputs, ours);
    forall key | key in ours
      ensures SomeEnded(runs, key, Compensated) ==> IsCancelled(acts.store.rows, key)
      ensures SomeEnded(runs, key, ConfirmedOutcome) && NoneCancelled(runs, key) ==> IsConfirmed(acts.store.rows, key)
    {
      SagasLeave(first, runs, landed, ours, acts.W(), key);
    }
  }
}
