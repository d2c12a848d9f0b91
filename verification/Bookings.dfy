// The booking ledger (examples/booking/workflows/bookings_store.py) and the
// notification feed (examples/booking/tenancy/notifications.py) of one tenant.
// Hashes are kept as the text they are taken of.
module Bookings {
  import opened Basics

  datatype Status = Confirmed | Cancelled

  datatype Row = Row(id: string, key: string, business: string, slot: string, contact: string, status: Status, reason: Option<string>)

  datatype CancelReply = NowCancelled | AlreadyCancelled | NotFound

  function BookingId(key: string): string {
    "bk_" + key
  }

  // ------------------------------------------------------------ the ledger

  function KeyAt(rows: seq<Row>, key: string): (i: nat)
    ensures i <= |rows|
    ensures i < |rows| ==> rows[i].key == key
    ensures forall j :: 0 <= j < i ==> rows[j].key != key
  {
    if rows == [] then 0 else if rows[0].key == key then 0 else 1 + KeyAt(rows[1..], key)
  }

  function IdAt(rows: seq<Row>, id: string): (i: nat)
    ensures i <= |rows|
    ensures i < |rows| ==> rows[i].id == id
    ensures forall j :: 0 <= j < i ==> rows[j].id != id
  {
    if rows == [] then 0 else if rows[0].id == id then 0 else 1 + IdAt(rows[1..], id)
  }

  // One row for a key, under the id derived from it.
  ghost predicate Ledger(rows: seq<Row>) {
    && (forall i, j :: 0 <= i < j < |rows| ==> rows[i].key != rows[j].key)
    && (forall i :: 0 <= i < |rows| ==> rows[i].id == BookingId(rows[i].key))
  }

  function RowOf(rows: seq<Row>, key: string): Option<Row> {
    var i := KeyAt(rows, key);
    if i < |rows| then Some(rows[i]) else None
  }

  function StatusOf(rows: seq<Row>, key: string): Option<Status> {
    var i := KeyAt(rows, key);
    if i < |rows| then Some(rows[i].status) else None
  }

  function Upserted(rows: seq<Row>, r: Row): seq<Row> {
    if KeyAt(rows, r.key) < |rows| then rows else rows + [r]
  }

  function CancelledIn(rows: seq<Row>, id: string, reason: string): seq<Row> {
    var i := IdAt(rows, id);
    if i < |rows| && rows[i].status == Confirmed then rows[i := rows[i].(status := Cancelled, reason := Some(reason))] else rows
  }

  lemma BookingIdInjective(a: string, b: string)
    requires BookingId(a) == BookingId(b)
    ensures a == b
  {
    assert a == BookingId(a)[3..] && b == BookingId(b)[3..];
  }

  lemma SamePlace(rows: seq<Row>, key: string)
    requires Ledger(rows)
    ensures IdAt(rows, BookingId(key)) == KeyAt(rows, key)
  {
    var i, k := IdAt(rows, BookingId(key)), KeyAt(rows, key);
    if i < |rows| {
      BookingIdInjective(rows[i].key, key);
    }
  }

  lemma {:induction false} KeyAtSnoc(rows: seq<Row>, r: Row, key: string)
    ensures KeyAt(rows + [r], key) ==
      if KeyAt(rows, key) < |rows| then KeyAt(rows, key) else if r.key == key then |rows| else |rows| + 1
  {
    if rows != [] {
      assert (rows + [r])[1..] == rows[1..] + [r];
      KeyAtSnoc(rows[1..], r, key);
    }
  }

  lemma {:induction false} KeyAtSame(a: seq<Row>, b: seq<Row>, key: string)
    requires |a| == |b| && forall i :: 0 <= i < |a| ==> a[i].key == b[i].key
    ensures KeyAt(a, key) == KeyAt(b, key)
  {
    if a != [] {
      KeyAtSame(a[1..], b[1..], key);
    }
  }

  // A create leaves an existing row alone, cancelled or not, and makes a
  // confirmed one otherwise.
  lemma UpsertedRow(rows: seq<Row>, r: Row, key: string)
    requires Ledger(rows) && r.id == BookingId(r.key)
    ensures Ledger(Upserted(rows, r))
    ensures RowOf(Upserted(rows, r), key) == if key == r.key && RowOf(rows, key).None? then Some(r) else RowOf(rows, key)
  {
    KeyAtSnoc(rows, r, key);
  }

  function CancelledRow(r: Row, reason: string): Row {
    if r.status == Confirmed then r.(status := Cancelled, reason := Some(reason)) else r
  }

  // A cancel changes only the row it names, and only from confirmed to cancelled.
  lemma CancelChangesOne(rows: seq<Row>, id: string, reason: string, key: string)
    requires Ledger(rows)
    ensures var after := CancelledIn(rows, id, reason);
      && Ledger(after)
      && RowOf(after, key) ==
           if id == BookingId(key) && RowOf(rows, key).Some? then Some(CancelledRow(RowOf(rows, key).value, reason)) else RowOf(rows, key)
  {
    var after := CancelledIn(rows, id, reason);
    KeyAtSame(rows, after, key);
    SamePlace(rows, key);
    var i := IdAt(rows, id);
    if i < |rows| && i == KeyAt(rows, key) {
      assert id == BookingId(key);
    }
  }

  function CountStatus(rows: seq<Row>, status: Status): nat {
    if rows == [] then 0
    else CountStatus(rows[..|rows| - 1], status) + if rows[|rows| - 1].status == status then 1 else 0
  }

  class BookingsStore {
    var rows: seq<Row>

    ghost predicate Valid()
      reads this
    {
      Ledger(rows)
    }

    constructor ()
      ensures Valid() && rows == []
    {
      rows := [];
    }

    // Inserts a confirmed booking, or returns the id of the one there is.
    method UpsertConfirmed(key: string, id: string, business: string, slot: string, contact: string) returns (bookingId: string, inserted: bool)
      requires Valid() && id == BookingId(key)
      modifies this
      ensures Valid() && rows == Upserted(old(rows), Row(id, key, business, slot, contact, Confirmed, None))
      ensures bookingId == BookingId(key) && (inserted <==> old(StatusOf(rows, key)).None?)
    {
      var r := Row(id, key, business, slot, contact, Confirmed, None);
      UpsertedRow(rows, r, key);
      var i := KeyAt(rows, key);
      if i < |rows| {
        return rows[i].id, false;
      }
      rows := rows + [r];
      return id, true;
    }

    method Cancel(id: string, reason: string) returns (reply: CancelReply)
      modifies this
      ensures rows == CancelledIn(old(rows), id, reason)
      ensures reply == (
        if IdAt(old(rows), id) == |old(rows)| then NotFound
        else if old(rows)[IdAt(old(rows), id)].status == Cancelled then AlreadyCancelled
        else NowCancelled)
    {
      var i := IdAt(rows, id);
      if i == |rows| {
        return NotFound;
      }
      if rows[i].status == Cancelled {
        return AlreadyCancelled;
      }
      rows := rows[i := rows[i].(status := Cancelled, reason := Some(reason))];
      return NowCancelled;
    }

    // SELECT status, COUNT(*) ... GROUP BY status
    method CountByStatus() returns (counts: map<Status, nat>)
      ensures forall s :: (if s in counts then counts[s] else 0) == CountStatus(rows, s)
      ensures forall s :: s in counts ==> counts[s] > 0
    {
      counts := map[];
      for i := 0 to |rows|
        invariant forall s :: (if s in counts then counts[s] else 0) == CountStatus(rows[..i], s)
        invariant forall s :: s in counts ==> counts[s] > 0
      {
        var s := rows[i].status;
        assert rows[..i + 1][..i] == rows[..i];
        counts := counts[s := (if s in counts then counts[s] else 0) + 1];
      }
      assert rows[..|rows|] == rows;
    }
  }

  // ------------------------------------------------------------ the feed

  datatype Entry = Entry(id: string, kind: string, bookingId: string, read: bool)

  function NotificationId(bookingId: string, kind: string): string {
    "ntf_" + bookingId + ":" + kind
  }

  function EntryId(bookingId: string, kind: string, time: string): string {
    NotificationId(if bookingId != "" then bookingId else time, kind)
  }

  // An entry without a booking is told apart by the time, any other is not.
  lemma EntriesByTime(b: string, kind: string, t1: string, t2: string)
    ensures EntryId(b, kind, t1) == EntryId(b, kind, t2) <==> b != "" || t1 == t2
  {
    if b == "" && EntryId(b, kind, t1) == EntryId(b, kind, t2) {
      var a, c := EntryId(b, kind, t1), EntryId(b, kind, t2);
      assert |t1| == |t2|;
      assert t1 == a[4..4 + |t1|] && t2 == c[4..4 + |t2|];
    }
  }

  function HasId(entries: seq<Entry>, id: string): bool {
    exists i :: 0 <= i < |entries| && entries[i].id == id
  }

  ghost predicate OneEach(entries: seq<Entry>) {
    forall i, j :: 0 <= i < j < |entries| ==> entries[i].id != entries[j].id
  }

  function Unread(entries: seq<Entry>): nat {
    if entries == [] then 0
    else Unread(entries[..|entries| - 1]) + if entries[|entries| - 1].read then 0 else 1
  }

  function Appended(entries: seq<Entry>, e: Entry): seq<Entry> {
    if HasId(entries, e.id) then entries else entries + [e]
  }

  function Marked(e: Entry, ids: set<string>): Entry {
    if e.id in ids then e.(read := true) else e
  }

  class Feed {
    var entries: seq<Entry>

    ghost predicate Valid()
      reads this
    {
      OneEach(entries)
    }

    constructor ()
      ensures Valid() && entries == []
    {
      entries := [];
    }

    // Idempotent on the id derived from the booking, or from the time when no
    // booking is named, and the kind.
    method Append(bookingId: string, kind: string, time: string) returns (created: bool)
      requires Valid()
      modifies this
      ensures Valid() && entries == Appended(old(entries), Entry(EntryId(bookingId, kind, time), kind, bookingId, false))
      ensures created <==> !old(HasId(entries, EntryId(bookingId, kind, time)))
    {
      var id := EntryId(bookingId, kind, time);
      created := !HasId(entries, id);
      if created {
        entries := entries + [Entry(id, kind, bookingId, false)];
      }
    }

    method UnreadCount() returns (n: nat)
      ensures n == Unread(entries)
    {
      n := 0;
      for i := 0 to |entries|
        invariant n == Unread(entries[..i])
      {
        assert entries[..i + 1][..i] == entries[..i];
        n := n + if entries[i].read then 0 else 1;
      }
      assert entries[..|entries|] == entries;
    }

    // Goes through the feed once: every entry, marked if it is named, and how
    // many were unread among those.
    method Mark(ids: set<string>) returns (marked: seq<Entry>, updated: nat)
      ensures marked == MarkAll(entries, ids) && Unread(marked) + updated == Unread(entries)
    {
      marked, updated := [], 0;
      for n := 0 to |entries|
        invariant marked == MarkAll(entries[..n], ids)
        invariant Unread(marked) + updated == Unread(entries[..n])
      {
        var e := entries[n];
        assert entries[..n + 1][..n] == entries[..n];
        UnreadSnoc(marked, Marked(e, ids));
        marked := marked + [Marked(e, ids)];
        if e.id in ids && !e.read {
          updated := updated + 1;
        }
      }
      assert entries[..|entries|] == entries;
    }

    // Marks the named entries read; what it returns is by how much unread drops.
    method MarkRead(ids: seq<string>) returns (updated: nat)
      requires Valid()
      modifies this
      ensures Valid() && entries == MarkAll(old(entries), set x | x in ids)
      ensures Unread(entries) + updated == Unread(old(entries))
    {
      var marked;
      marked, updated := Mark(set x | x in ids);
      MarkedAt(entries, set x | x in ids);
      if updated > 0 {
        entries := marked;
      } else {
        NothingMarked(entries, marked, set x | x in ids);
      }
    }
  }

  function MarkAll(entries: seq<Entry>, ids: set<string>): seq<Entry> {
    if entries == [] then [] else MarkAll(entries[..|entries| - 1], ids) + [Marked(entries[|entries| - 1], ids)]
  }

  // Exactly the named entries are marked, and nothing else changes.
  lemma {:induction false} MarkedAt(entries: seq<Entry>, ids: set<string>)
    ensures |MarkAll(entries, ids)| == |entries|
    ensures forall i :: 0 <= i < |entries| ==> MarkAll(entries, ids)[i] == Marked(entries[i], ids)
  {
    if entries != [] {
      MarkedAt(entries[..|entries| - 1], ids);
    }
  }

  lemma UnreadSnoc(entries: seq<Entry>, e: Entry)
    ensures Unread(entries + [e]) == Unread(entries) + if e.read then 0 else 1
  {
    assert (entries + [e])[..|entries|] == entries;
  }

  lemma {:induction false} NothingMarked(a: seq<Entry>, b: seq<Entry>, ids: set<string>)
    requires |a| == |b| && (forall i :: 0 <= i < |a| ==> b[i] == Marked(a[i], ids))
    requires Unread(a) == Unread(b)
    ensures a == b
  {
    if a != [] {
      var n := |a| - 1;
      UnreadDrops(a[..n], b[..n], ids);
      NothingMarked(a[..n], b[..n], ids);
      assert a == a[..n] + [a[n]] && b == b[..n] + [b[n]];
    }
  }

  lemma {:induction false} UnreadDrops(a: seq<Entry>, b: seq<Entry>, ids: set<string>)
    requires |a| == |b| && (forall i :: 0 <= i < |a| ==> b[i] == Marked(a[i], ids))
    ensures Unread(b) <= Unread(a)
  {
    if a != [] {
      UnreadDrops(a[..|a| - 1], b[..|a| - 1], ids);
    }
  }
}
