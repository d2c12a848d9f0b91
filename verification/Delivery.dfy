// Activities that are delivered at least once: an attempt may take effect and
// lose its acknowledgement, or take effect long after its sender gave up on it
// (examples/booking/workflows/stub_activities.py).
module Delivery {
  import opened Basics
  import opened Bookings

  datatype Request =
    | Create(key: string, business: string, slot: string, contact: string)
    | Cancel(bookingId: string, reason: string)
    | Notify(bookingId: string, kind: string)

  // ------------------------------------------------------------ what a request does when it lands

  function RowFor(r: Request): Row
    requires r.Create?
  {
    Row(BookingId(r.key), r.key, r.business, r.slot, r.contact, Confirmed, None)
  }

  function LandRows(rows: seq<Row>, r: Request): seq<Row> {
    match r
    case Create(_, _, _, _) => Upserted(rows, RowFor(r))
    case Cancel(id, reason) => CancelledIn(rows, id, reason)
    case Notify(_, _) => rows
  }

  function LandFeed(entries: seq<Entry>, r: Request): seq<Entry> {
    if r.Notify? then Appended(entries, Entry(NotificationId(r.bookingId, r.kind), r.kind, r.bookingId, false)) else entries
  }

  predicate About(r: Request, key: string) {
    match r
    case Create(k, _, _, _) => k == key
    case Cancel(id, _) => id == BookingId(key)
    case Notify(id, _) => id == BookingId(key)
  }

  predicate Creates(r: Request, key: string) {
    r.Create? && r.key == key
  }

  predicate Cancels(r: Request, key: string) {
    r.Cancel? && r.bookingId == BookingId(key)
  }

  predicate HasRow(rows: seq<Row>, key: string) {
    RowOf(rows, key).Some?
  }

  predicate IsConfirmed(rows: seq<Row>, key: string) {
    RowOf(rows, key).Some? && RowOf(rows, key).value.status == Confirmed
  }

  predicate IsCancelled(rows: seq<Row>, key: string) {
    RowOf(rows, key).Some? && RowOf(rows, key).value.status == Cancelled
  }

  // One landing, seen from the row for `key`: a create can make a missing row,
  // a cancel can cancel one, and nothing else happens to it.
  lemma Landing(rows: seq<Row>, r: Request, key: string)
    requires Ledger(rows)
    ensures Ledger(LandRows(rows, r))
    ensures RowOf(LandRows(rows, r), key) ==
      if Creates(r, key) && !HasRow(rows, key) then Some(RowFor(r))
      else if Cancels(r, key) && HasRow(rows, key) then Some(CancelledRow(RowOf(rows, key).value, r.reason))
      else RowOf(rows, key)
  {
    match r {
      case Create(_, _, _, _) => UpsertedRow(rows, RowFor(r), key);
      case Cancel(id, reason) => CancelChangesOne(rows, id, reason, key);
      case Notify(_, _) =>
    }
  }

  lemma LandFeedKeeps(entries: seq<Entry>, r: Request)
    requires OneEach(entries)
    ensures OneEach(LandFeed(entries, r))
    ensures forall id :: HasId(entries, id) ==> HasId(LandFeed(entries, r), id)
    ensures r.Notify? ==> HasId(LandFeed(entries, r), NotificationId(r.bookingId, r.kind))
  {
    forall id | HasId(entries, id)
      ensures HasId(LandFeed(entries, r), id)
    {
      var i :| 0 <= i < |entries| && entries[i].id == id;
      assert LandFeed(entries, r)[i].id == id;
    }
    if r.Notify? && !HasId(entries, NotificationId(r.bookingId, r.kind)) {
      assert LandFeed(entries, r)[|entries|].id == NotificationId(r.bookingId, r.kind);
    }
  }

  // ------------------------------------------------------------ what many do, one after the other

  function LandAll(rows: seq<Row>, landed: seq<Request>): seq<Row> {
    if landed == [] then rows else LandRows(LandAll(rows, landed[..|landed| - 1]), landed[|landed| - 1])
  }

  function FeedAll(entries: seq<Entry>, landed: seq<Request>): seq<Entry> {
    if landed == [] then entries else LandFeed(FeedAll(entries, landed[..|landed| - 1]), landed[|landed| - 1])
  }

  lemma {:induction false} LandAllConcat(rows: seq<Row>, entries: seq<Entry>, a: seq<Request>, b: seq<Request>)
    ensures LandAll(rows, a + b) == LandAll(LandAll(rows, a), b)
    ensures FeedAll(entries, a + b) == FeedAll(FeedAll(entries, a), b)
  {
    if b == [] {
      assert a + b == a;
    } else {
      assert (a + b)[..|a + b| - 1] == a + b[..|b| - 1];
      LandAllConcat(rows, entries, a, b[..|b| - 1]);
    }
  }

  // A cancel for the key finds a row to cancel.
  ghost predicate CancelLands(rows: seq<Row>, landed: seq<Request>, key: string) {
    exists j :: 0 <= j < |landed| && Cancels(landed[j], key) && HasRow(LandAll(rows, landed[..j]), key)
  }

  // The row is there iff it was there or a create landed.
  lemma {:induction false} RowIffCreated(rows: seq<Row>, landed: seq<Request>, key: string)
    requires Ledger(rows)
    ensures Ledger(LandAll(rows, landed))
    ensures HasRow(LandAll(rows, landed), key) <==> HasRow(rows, key) || exists r :: r in landed && Creates(r, key)
  {
    if landed != [] {
      var front, last := landed[..|landed| - 1], landed[|landed| - 1];
      RowIffCreated(rows, front, key);
      Landing(LandAll(rows, front), last, key);
      assert landed == front + [last];
    }
  }

  // The row is cancelled iff it was, or a cancel found it.
  lemma {:induction false} CancelledIff(rows: seq<Row>, landed: seq<Request>, key: string)
    requires Ledger(rows)
    ensures IsCancelled(LandAll(rows, landed), key) <==> IsCancelled(rows, key) || CancelLands(rows, landed, key)
  {
    if landed != [] {
      var n := |landed| - 1;
      var front, last := landed[..n], landed[n];
      RowIffCreated(rows, front, key);
      CancelledIff(rows, front, key);
      Landing(LandAll(rows, front), last, key);
      CancelLandsSnoc(rows, front, last, key);
      assert landed == front + [last];
    }
  }

  lemma CancelLandsSnoc(rows: seq<Row>, front: seq<Request>, last: Request, key: string)
    ensures CancelLands(rows, front + [last], key) <==>
      CancelLands(rows, front, key) || (Cancels(last, key) && HasRow(LandAll(rows, front), key))
  {
    var all := front + [last];
    assert all[..|front|] == front;
    if CancelLands(rows, all, key) {
      var j :| 0 <= j < |all| && Cancels(all[j], key) && HasRow(LandAll(rows, all[..j]), key);
      if j < |front| {
        assert all[..j] == front[..j] && front[j] == all[j];
      }
    }
    if CancelLands(rows, front, key) {
      var j :| 0 <= j < |front| && Cancels(front[j], key) && HasRow(LandAll(rows, front[..j]), key);
      assert all[..j] == front[..j] && front[j] == all[j];
    }
    if Cancels(last, key) && HasRow(LandAll(rows, front), key) {
      assert all[|front|] == last;
    }
  }

  predicate MadeBy(r: Request, row: Row) {
    r.Create? && RowFor(r).(status := row.status, reason := row.reason) == row
  }

  // Apart from being cancelled the row is as it was, or as a create that
  // landed made it.
  lemma {:induction false} RowIsKept(rows: seq<Row>, landed: seq<Request>, key: string)
    requires Ledger(rows) && HasRow(LandAll(rows, landed), key)
    ensures var row := RowOf(LandAll(rows, landed), key).value;
      if HasRow(rows, key) then RowOf(rows, key).value.(status := row.status, reason := row.reason) == row
      else exists r :: r in landed && Creates(r, key) && MadeBy(r, row)
  {
    if landed != [] {
      var front, last := landed[..|landed| - 1], landed[|landed| - 1];
      assert landed == front + [last];
      RowIffCreated(rows, front, key);
      Landing(LandAll(rows, front), last, key);
      if HasRow(LandAll(rows, front), key) {
        RowIsKept(rows, front, key);
        if !HasRow(rows, key) {
          var row := RowOf(LandAll(rows, front), key).value;
          var r :| r in front && Creates(r, key) && MadeBy(r, row);
          assert r in landed && MadeBy(r, RowOf(LandAll(rows, landed), key).value);
        }
      } else {
        RowIffCreated(rows, landed, key);
        assert last in landed && Creates(last, key) && MadeBy(last, RowOf(LandAll(rows, landed), key).value);
      }
    }
  }

  predicate GaveReason(r: Request, row: Row) {
    r.Cancel? && row.reason == Some(r.reason)
  }

  // A row that was cancelled keeps the reason of the cancel that did it.
  lemma {:induction false} ReasonIsKept(rows: seq<Row>, landed: seq<Request>, key: string)
    requires Ledger(rows) && IsCancelled(LandAll(rows, landed), key) && !IsCancelled(rows, key)
    ensures exists r :: r in landed && Cancels(r, key) && GaveReason(r, RowOf(LandAll(rows, landed), key).value)
  {
    var front, last := landed[..|landed| - 1], landed[|landed| - 1];
    assert landed == front + [last];
    RowIffCreated(rows, front, key);
    Landing(LandAll(rows, front), last, key);
    if IsCancelled(LandAll(rows, front), key) {
      ReasonIsKept(rows, front, key);
      var r :| r in front && Cancels(r, key) && GaveReason(r, RowOf(LandAll(rows, front), key).value);
      assert r in landed && GaveReason(r, RowOf(LandAll(rows, landed), key).value);
    } else {
      assert last in landed && Cancels(last, key) && GaveReason(last, RowOf(LandAll(rows, landed), key).value);
    }
  }

  lemma {:induction false} NotifiedStays(entries: seq<Entry>, landed: seq<Request>, r: Request)
    requires OneEach(entries)
    ensures OneEach(FeedAll(entries, landed))
    ensures r in landed && r.Notify? ==> HasId(FeedAll(entries, landed), NotificationId(r.bookingId, r.kind))
  {
    if landed != [] {
      var front, last := landed[..|landed| - 1], landed[|landed| - 1];
      assert landed == front + [last];
      NotifiedStays(entries, front, r);
      LandFeedKeeps(FeedAll(entries, front), last);
    }
  }

  // ------------------------------------------------------------ at-least-once delivery

  // The two stores, and the attempts that may still take effect.
  datatype World = World(rows: seq<Row>, entries: seq<Entry>, inflight: seq<Request>)

  // What may be sent: a cancel only of a booking there is.
  predicate Sendable(rows: seq<Row>, r: Request) {
    (r.Cancel? ==> IdAt(rows, r.bookingId) < |rows|) && (r.Notify? ==> r.bookingId != "")
  }

  ghost predicate Sound(w: World) {
    Ledger(w.rows) && OneEach(w.entries) && forall r :: r in w.inflight ==> Sendable(w.rows, r)
  }

  // A request of somebody else, who keeps away from the keys in `ours`.
  predicate Foreign(r: Request, ours: set<string>) {
    forall key :: key in ours ==> !About(r, key)
  }

  // From one world to a later one: what landed was in flight, or is one of
  // `own`, or is foreign; and so is what is in flight now.
  ghost predicate Goes(w: World, landed: seq<Request>, own: set<Request>, ours: set<string>, later: World) {
    && later.rows == LandAll(w.rows, landed)
    && later.entries == FeedAll(w.entries, landed)
    && forall r :: r in landed || r in later.inflight ==> r in w.inflight || r in own || Foreign(r, ours)
  }

  lemma GoesOn(a: World, l1: seq<Request>, own1: set<Request>, b: World, l2: seq<Request>, own2: set<Request>, c: World, ours: set<string>)
    requires Goes(a, l1, own1, ours, b) && Goes(b, l2, own2, ours, c)
    ensures Goes(a, l1 + l2, own1 + own2, ours, c)
  {
    LandAllConcat(a.rows, a.entries, l1, l2);
  }

  lemma GoesMore(a: World, l: seq<Request>, own: set<Request>, more: set<Request>, ours: set<string>, b: World)
    requires Goes(a, l, own, ours, b) && own <= more
    ensures Goes(a, l, more, ours, b)
  {
  }

  lemma SendableStays(rows: seq<Row>, r: Request, landed: seq<Request>)
    requires Ledger(rows) && Sendable(rows, r)
    ensures Sendable(LandAll(rows, landed), r)
  {
    if r.Cancel? {
      var key := rows[IdAt(rows, r.bookingId)].key;
      SamePlace(rows, key);
      RowIffCreated(rows, landed, key);
      SamePlace(LandAll(rows, landed), key);
    }
  }

  // How often an activity was tried, and whether it failed for good.
  datatype Effort = Effort(tries: nat, fatal: bool)

  class Activities {
    const store: BookingsStore
    const feed: Feed
    var inflight: seq<Request>

    constructor (store: BookingsStore, feed: Feed)
      requires store.Valid() && feed.Valid()
      ensures Valid() && this.store == store && this.feed == feed && inflight == []
    {
      this.store, this.feed, inflight := store, feed, [];
    }

    ghost function W(): World
      reads this, store, feed
    {
      World(store.rows, feed.entries, inflight)
    }

    ghost predicate Valid()
      reads this, store, feed
    {
      Sound(W())
    }

    method Land(r: Request)
      requires Valid() && Sendable(store.rows, r)
      modifies store, feed
      ensures Valid() && store.rows == LandRows(old(store.rows), r) && feed.entries == LandFeed(old(feed.entries), r)
    {
      Landing(store.rows, r, "");
      LandFeedKeeps(feed.entries, r);
      OneLands(store.rows, feed.entries, r);
      forall q | q in inflight
        ensures Sendable(LandRows(store.rows, r), q)
      {
        SendableStays(store.rows, q, [r]);
      }
      match r
      case Create(key, business, slot, contact) =>
        var id, inserted := store.UpsertConfirmed(key, BookingId(key), business, slot, contact);
      case Cancel(id, reason) =>
        var reply := store.Cancel(id, reason);
      case Notify(id, kind) =>
        var time: string := *;
        var created := feed.Append(id, kind, time);
    }

    // An attempt that takes effect at once.
    method LandNow(r: Request, ours: set<string>) returns (ghost landed: seq<Request>)
      requires Valid() && Sendable(store.rows, r)
      modifies this, store, feed
      ensures Valid() && Goes(old(W()), landed, {r}, ours, W()) && r in landed
    {
      OneLands(store.rows, feed.entries, r);
      Land(r);
      landed := [r];
    }

    // An attempt that may take effect later, or never.
    method Send(r: Request, ours: set<string>)
      requires Valid() && Sendable(store.rows, r)
      modifies this
      ensures Valid() && Goes(old(W()), [], {r}, ours, W())
    {
      inflight := inflight + [r];
    }

    method LandLate(i: nat, ours: set<string>) returns (ghost landed: seq<Request>)
      requires Valid() && i < |inflight|
      modifies this, store, feed
      ensures Valid() && Goes(old(W()), landed, {}, ours, W())
    {
      var r := inflight[i];
      OneLands(store.rows, feed.entries, r);
      inflight := inflight[..i] + inflight[i + 1..];
      Land(r);
      landed := [r];
    }

    // Meanwhile, attempts in flight may take effect, and others may send
    // requests of their own.
    method Meanwhile(ours: set<string>) returns (ghost landed: seq<Request>)
      requires Valid()
      modifies this, store, feed
      ensures Valid() && Goes(old(W()), landed, {}, ours, W())
    {
      landed := [];
      var n: nat :| 0 <= n;
      for i := 0 to n
        invariant Valid() && Goes(old(W()), landed, {}, ours, W())
      {
        ghost var before := W();
        ghost var more := OneEvent(ours);
        GoesOn(old(W()), landed, {}, before, more, {}, W(), ours);
        landed := landed + more;
      }
    }

    method OneEvent(ours: set<string>) returns (ghost landed: seq<Request>)
      requires Valid()
      modifies this, store, feed
      ensures Valid() && Goes(old(W()), landed, {}, ours, W())
    {
      landed := [];
      var i: nat :| 0 <= i;
      if i < |inflight| {
        landed := LandLate(i, ours);
      } else {
        SendForeign(ours);
      }
    }

    // Any request of somebody else.
    method SendForeign(ours: set<string>)
      requires Valid()
      modifies this
      ensures Valid() && Goes(old(W()), [], {}, ours, W())
    {
      var a: string, b: string, c: string, d: string := *, *, *, *;
      var r := Create(a, b, c, d);
      if * {
        r := Cancel(a, b);
      } else if * {
        r := Notify(a, b);
      }
      if Sendable(store.rows, r) && Foreign(r, ours) {
        inflight := inflight + [r];
      }
    }

    // One attempt: it takes effect and is acknowledged; or it is sent and not
    // heard of again; or it fails for good.
    method Attempt(r: Request, ours: set<string>) returns (acked: bool, fatal: bool, ghost landed: seq<Request>)
      requires Valid() && Sendable(store.rows, r)
      modifies this, store, feed
      ensures Valid() && Sendable(store.rows, r)
      ensures Goes(old(W()), landed, {r}, ours, W()) && (acked ==> r in landed)
    {
      acked, fatal, landed := false, *, [];
      if fatal {
        return;
      }
      acked := *;
      if acked {
        landed := LandNow(r, ours);
      } else {
        Send(r, ours);
      }
      ghost var before := W();
      ghost var more := Meanwhile(ours);
      GoesOn(old(W()), landed, {r}, before, more, {}, W(), ours);
      landed := landed + more;
      SendableStays(old(store.rows), r, landed);
    }

    // execute_activity: up to `attempts` attempts. False stands for
    // ActivityError: the last one failed, or one failed for good.
    method Execute(r: Request, attempts: nat, ours: set<string>) returns (acked: bool, ghost landed: seq<Request>, ghost effort: Effort)
      requires Valid() && Sendable(store.rows, r)
      modifies this, store, feed
      ensures Valid() && Goes(old(W()), landed, {r}, ours, W()) && (acked ==> r in landed)
      ensures effort.tries <= attempts && (!acked ==> effort.fatal || effort.tries == attempts)
    {
      acked, landed, effort := false, [], Effort(0, false);
      for n := 0 to attempts
        invariant Valid() && Sendable(store.rows, r) && !acked && effort == Effort(n, false)
        invariant Goes(old(W()), landed, {r}, ours, W())
      {
        ghost var before := W();
        var fatal;
        ghost var more;
        acked, fatal, more := Attempt(r, ours);
        GoesOn(old(W()), landed, {r}, before, more, {r}, W(), ours);
        landed, effort := landed + more, Effort(n + 1, fatal);
        if acked || fatal {
          return;
        }
      }
    }
  }

  lemma OneLands(rows: seq<Row>, entries: seq<Entry>, r: Request)
    ensures LandAll(rows, [r]) == LandRows(rows, r) && FeedAll(entries, [r]) == LandFeed(entries, r)
  {
    assert [r][..0] == [];
  }
}
