// Sequence numbers and resumable readers (plnt/tenancy/db.py, append and
// events_since; plnt/server/app.py, the generator of stream).
module EventLog {
  import opened Basics

  datatype Row = Row(session: string, seqNo: nat, kind: string, payload: string)

  // SELECT ... WHERE session_id = ?, in the order of insertion.
  function Of(rows: seq<Row>, session: string): seq<Row> {
    if rows == [] then []
    else Of(rows[..|rows| - 1], session) + if rows[|rows| - 1].session == session then [rows[|rows| - 1]] else []
  }

  // COALESCE(MAX(seq), 0)
  function MaxSeq(rows: seq<Row>): nat {
    if rows == [] then 0
    else
      var before := MaxSeq(rows[..|rows| - 1]);
      if rows[|rows| - 1].seqNo > before then rows[|rows| - 1].seqNo else before
  }

  lemma {:induction false} MaxIsHighest(rows: seq<Row>)
    ensures forall r :: r in rows ==> r.seqNo <= MaxSeq(rows)
    ensures rows != [] ==> exists r :: r in rows && r.seqNo == MaxSeq(rows)
  {
    if rows != [] {
      var front, last := rows[..|rows| - 1], rows[|rows| - 1];
      MaxIsHighest(front);
      assert rows == front + [last] && last in rows;
      if last.seqNo <= MaxSeq(front) && front != [] {
        var r :| r in front && r.seqNo == MaxSeq(front);
        assert r in rows;
      }
    }
  }

  // A session's events are numbered 1, 2, 3, ...
  ghost predicate Numbered(rows: seq<Row>) {
    forall i :: 0 <= i < |rows| ==> rows[i].seqNo == i + 1
  }

  ghost predicate AllNumbered(rows: seq<Row>) {
    forall s: string :: Numbered(Of(rows, s))
  }

  lemma OfSnoc(rows: seq<Row>, r: Row, session: string)
    ensures Of(rows + [r], session) == Of(rows, session) + if r.session == session then [r] else []
  {
    assert (rows + [r])[..|rows|] == rows;
  }

  lemma {:induction false} MaxOfNumbered(rows: seq<Row>)
    requires Numbered(rows)
    ensures MaxSeq(rows) == |rows|
  {
    if rows != [] {
      MaxOfNumbered(rows[..|rows| - 1]);
    }
  }

  // Whoever appends next, every session stays numbered without gaps.
  lemma AppendKeepsNumbers(rows: seq<Row>, r: Row)
    requires AllNumbered(rows) && r.seqNo == MaxSeq(Of(rows, r.session)) + 1
    ensures AllNumbered(rows + [r])
  {
    forall s: string
      ensures Numbered(Of(rows + [r], s))
    {
      OfSnoc(rows, r, s);
      MaxOfNumbered(Of(rows, s));
    }
  }

  // The rows after number `after`, at most `limit` of them.
  function After(rows: seq<Row>, after: nat): seq<Row> {
    if rows == [] then []
    else After(rows[..|rows| - 1], after) + if rows[|rows| - 1].seqNo > after then [rows[|rows| - 1]] else []
  }

  function Take(rows: seq<Row>, limit: nat): seq<Row> {
    if |rows| <= limit then rows else rows[..limit]
  }

  // The stretch of a session's rows from one number to another.
  function Stretch(rows: seq<Row>, from: nat, to: nat): seq<Row> {
    if from <= to <= |rows| then rows[from..to] else []
  }

  lemma {:induction false} AfterIsSuffix(rows: seq<Row>, after: nat)
    requires Numbered(rows)
    ensures After(rows, after) == if after <= |rows| then rows[after..] else []
  {
    if rows != [] {
      var n := |rows| - 1;
      AfterIsSuffix(rows[..n], after);
      if after <= n {
        DropSnoc(rows, after);
      } else if after == |rows| {
        assert rows[after..] == [];
      }
    }
  }

  function Least(a: nat, b: nat): nat {
    if a < b then a else b
  }

  // What a page adds to what a reader has is the next stretch of the log.
  lemma PageContinues(rows: seq<Row>, after: nat, limit: nat)
    requires Numbered(rows)
    ensures var page := Take(After(rows, after), limit);
      && page == Stretch(rows, after, after + |page|)
      && (page != [] ==> after + |page| <= |rows|)
      && |page| == Least(limit, if after <= |rows| then |rows| - after else 0)
  {
    AfterIsSuffix(rows, after);
    if after <= |rows| {
      if limit < |rows| - after {
        TakeDrop(rows, after, limit);
      } else {
        TakeDrop(rows, after, |rows| - after);
      }
    }
  }

  lemma StretchGrows(rows: seq<Row>, more: seq<Row>, a: nat, b: nat)
    requires rows <= more && a <= b <= |rows|
    ensures Stretch(rows, a, b) == Stretch(more, a, b)
  {
  }

  class TenantDb {
    var rows: seq<Row>

    ghost predicate Valid()
      reads this
    {
      AllNumbered(rows)
    }

    constructor ()
      ensures Valid() && rows == []
    {
      rows := [];
    }

    method Append(session: string, kind: string, payload: string) returns (seqNo: nat)
      requires Valid()
      modifies this
      ensures Valid() && rows == old(rows) + [Row(session, seqNo, kind, payload)]
      ensures seqNo == |old(Of(rows, session))| + 1
    {
      seqNo := MaxSeq(Of(rows, session)) + 1;
      MaxOfNumbered(Of(rows, session));
      AppendKeepsNumbers(rows, Row(session, seqNo, kind, payload));
      rows := rows + [Row(session, seqNo, kind, payload)];
    }

    method EventsSince(session: string, after: nat, limit: nat) returns (page: seq<Row>)
      requires Valid()
      ensures page == Stretch(Of(rows, session), after, after + |page|)
      ensures page != [] ==> after + |page| <= |Of(rows, session)|
      ensures |page| == Least(limit, if after <= |Of(rows, session)| then |Of(rows, session)| - after else 0)
    {
      PageContinues(Of(rows, session), after, limit);
      page := Take(After(Of(rows, session), after), limit);
    }

    // Anybody may append to any session in between.
    method Others(session: string)
      requires Valid()
      modifies this
      ensures Valid() && old(Of(rows, session)) <= Of(rows, session)
    {
      var n: nat :| 0 <= n;
      for i := 0 to n
        invariant Valid() && old(Of(rows, session)) <= Of(rows, session)
      {
        var s: string := *;
        var kind: string := *;
        var payload: string := *;
        ghost var before := rows;
        var seqNo := Append(s, kind, payload);
        OfSnoc(before, Row(s, seqNo, kind, payload), session);
      }
    }
  }

  const LIMIT := 1000
  const FINISHED := "run_finished"

  // The position of a reader that has been sent `sent` since number `start`.
  ghost predicate At(log: seq<Row>, start: nat, last: nat, sent: seq<Row>) {
    && last == start + |sent|
    && (sent != [] ==> last <= |log|)
    && sent == Stretch(log, start, last)
  }

  lemma StillAt(log: seq<Row>, more: seq<Row>, start: nat, last: nat, sent: seq<Row>)
    requires At(log, start, last, sent) && log <= more
    ensures At(more, start, last, sent)
  {
    if sent != [] {
      StretchGrows(log, more, start, last);
    }
  }

  lemma SendNext(log: seq<Row>, start: nat, last: nat, sent: seq<Row>, e: Row)
    requires At(log, start, last, sent) && last < |log| && e == log[last] && Numbered(log)
    ensures At(log, start, e.seqNo, sent + [e])
  {
  }

  ghost predicate NoneFinished(sent: seq<Row>) {
    forall i :: 0 <= i < |sent| ==> sent[i].kind != FINISHED
  }

  // Sends one page; stops behind a run_finished if asked to.
  method SendPage(page: seq<Row>, untilIdle: bool, last0: nat, sent0: seq<Row>, ghost log: seq<Row>, ghost start: nat)
    returns (last: nat, sent: seq<Row>, finished: bool)
    requires Numbered(log) && At(log, start, last0, sent0) && (untilIdle ==> NoneFinished(sent0))
    requires page == Stretch(log, last0, last0 + |page|) && (page != [] ==> last0 + |page| <= |log|)
    ensures At(log, start, last, sent)
    ensures finished ==> untilIdle && sent != [] && sent[|sent| - 1].kind == FINISHED && NoneFinished(sent[..|sent| - 1])
    ensures !finished ==> last == last0 + |page| && (untilIdle ==> NoneFinished(sent))
  {
    last, sent, finished := last0, sent0, false;
    for i := 0 to |page|
      invariant At(log, start, last, sent) && last == last0 + i
      invariant untilIdle ==> NoneFinished(sent)
    {
      var e := page[i];
      SendNext(log, start, last, sent, e);
      assert (sent + [e])[..|sent|] == sent;
      last, sent := e.seqNo, sent + [e];
      if untilIdle && e.kind == FINISHED {
        return last, sent, true;
      }
    }
  }

  // A stream from number `after`, for any number of polls: what it sends is
  // exactly the log from there on, without a gap or a repetition, and each
  // poll catches up by a full page.
  method Stream(db: TenantDb, session: string, after: nat, untilIdle: bool, polls: nat) returns (last: nat, sent: seq<Row>, finished: bool)
    requires db.Valid()
    modifies db
    ensures db.Valid() && old(Of(db.rows, session)) <= Of(db.rows, session)
    ensures At(Of(db.rows, session), after, last, sent)
    ensures finished ==> untilIdle && sent != [] && sent[|sent| - 1].kind == FINISHED && NoneFinished(sent[..|sent| - 1])
    ensures !finished && untilIdle ==> NoneFinished(sent)
    ensures !finished && after <= |old(Of(db.rows, session))| ==> last >= Least(|old(Of(db.rows, session))|, after + 1000 * polls)
  {
    last, sent, finished := after, [], false;
    ghost var first, due := |Of(db.rows, session)|, after;
    for i := 0 to polls
      invariant db.Valid() && old(Of(db.rows, session)) <= Of(db.rows, session)
      invariant At(Of(db.rows, session), after, last, sent)
      invariant !finished && (untilIdle ==> NoneFinished(sent))
      invariant due == after + 1000 * i && (after <= first ==> last >= Least(first, due))
    {
      last, sent, finished := Poll(db, session, after, untilIdle, last, sent, first, due);
      if finished {
        return;
      }
      due := due + LIMIT;
    }
  }

  // One poll: a page from where the reader stands.
  method Poll(db: TenantDb, session: string, ghost after: nat, untilIdle: bool, last0: nat, sent0: seq<Row>, ghost first: nat, ghost due: nat)
    returns (last: nat, sent: seq<Row>, finished: bool)
    requires db.Valid() && At(Of(db.rows, session), after, last0, sent0) && (untilIdle ==> NoneFinished(sent0))
    requires first <= |Of(db.rows, session)| && (after <= first ==> last0 >= Least(first, due))
    modifies db
    ensures db.Valid() && old(Of(db.rows, session)) <= Of(db.rows, session)
    ensures At(Of(db.rows, session), after, last, sent)
    ensures finished ==> untilIdle && sent != [] && sent[|sent| - 1].kind == FINISHED && NoneFinished(sent[..|sent| - 1])
    ensures !finished ==> (untilIdle ==> NoneFinished(sent)) && (after <= first ==> last >= Least(first, due + LIMIT))
  {
    ghost var before := Of(db.rows, session);
    db.Others(session);
    StillAt(before, Of(db.rows, session), after, last0, sent0);
    var page := db.EventsSince(session, last0, LIMIT);
    last, sent, finished := SendPage(page, untilIdle, last0, sent0, Of(db.rows, session), after);
  }

  // A client that reconnects with the last number it has received, however
  // much of what was sent got lost: it always has exactly a prefix of the log.
  method Follow(db: TenantDb, session: string, connections: nat) returns (received: seq<Row>)
    requires db.Valid()
    modifies db
    ensures db.Valid() && received <= Of(db.rows, session)
  {
    received := [];
    for i := 0 to connections
      invariant db.Valid() && received <= Of(db.rows, session)
    {
      var polls: nat :| 0 <= polls;
      var last, sent, finished := Stream(db, session, |received|, false, polls);
      var kept: nat :| kept <= |sent|;
      ghost var log := Of(db.rows, session);
      if sent != [] {
        Received(log, received, sent, kept);
      }
      received := received + sent[..kept];
    }
  }

  lemma Received(log: seq<Row>, received: seq<Row>, sent: seq<Row>, kept: nat)
    requires received <= log && kept <= |sent| && |received| + |sent| <= |log|
    requires sent == Stretch(log, |received|, |received| + |sent|)
    ensures received + sent[..kept] <= log
  {
    assert log == received + log[|received|..];
  }
}
