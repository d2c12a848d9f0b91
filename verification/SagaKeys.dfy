// The keys of the booking saga: the ledger's idempotency key
// (examples/booking/workflows/saga_booking.py) and the feed's entry id
// (examples/booking/tenancy/notifications.py), both joined with colons.
module SagaKeys {
  import opened Basics
  import opened Bookings

  function IdempotencyKey(session: string, business: string, slot: string): string {
    session + ":" + business + ":" + slot
  }

  lemma {:induction false} ColonSplits(a: string, x: string, b: string, y: string)
    requires ':' !in a && ':' !in b && a + ":" + x == b + ":" + y
    ensures a == b && x == y
  {
    var s := a + ":" + x;
    assert s == a + (":" + x) && s == b + (":" + y);
    assert a != "" ==> s[0] == a[0];
    assert b != "" ==> s[0] == b[0];
    if a == "" {
      assert x == s[1..] && y == s[1..];
    } else {
      assert (a[1..] + ":" + x) == s[1..] && (b[1..] + ":" + y) == s[1..];
      ColonSplits(a[1..], x, b[1..], y);
      assert a == [a[0]] + a[1..] && b == [b[0]] + b[1..];
    }
  }

  // Two requests share a key exactly when they are for the same session,
  // business and slot, as long as sessions and businesses contain no colon.
  lemma KeysAreUnique(s1: string, b1: string, t1: string, s2: string, b2: string, t2: string)
    requires ':' !in s1 && ':' !in b1 && ':' !in s2 && ':' !in b2
    ensures IdempotencyKey(s1, b1, t1) == IdempotencyKey(s2, b2, t2) <==> s1 == s2 && b1 == b2 && t1 == t2
  {
    if IdempotencyKey(s1, b1, t1) == IdempotencyKey(s2, b2, t2) {
      Assoc(s1 + ":", b1, ":" + t1);
      Assoc(s2 + ":", b2, ":" + t2);
      assert IdempotencyKey(s1, b1, t1) == s1 + ":" + (b1 + ":" + t1);
      assert IdempotencyKey(s2, b2, t2) == s2 + ":" + (b2 + ":" + t2);
      ColonSplits(s1, b1 + ":" + t1, s2, b2 + ":" + t2);
      ColonSplits(b1, t1, b2, t2);
    }
  }

  // Where the first colon is.
  function ColonAt(s: string): (i: nat)
    requires ':' in s
    ensures i < |s| && s[i] == ':'
  {
    if s[0] == ':' then 0 else 1 + ColonAt(s[1..])
  }

  lemma AroundColon(s: string, i: nat)
    requires i < |s| && s[i] == ':'
    ensures s == s[..i] + ":" + s[i + 1..]
  {
  }

  lemma Regroup(a: string, b: string, c: string, d: string)
    ensures a + ":" + b + ":" + c + ":" + d == a + ":" + (b + ":" + c) + ":" + d
    ensures a + ":" + b + ":" + c + ":" + d == a + ":" + b + ":" + (c + ":" + d)
    ensures a + ":" + b + ":" + c + ":" + d == (a + ":" + b) + ":" + c + ":" + d
  {
  }

  // A colon in any part of a key can be read as the one between two parts.
  lemma ColonCollides(s: string, b: string, t: string) returns (s2: string, b2: string, t2: string)
    requires ':' in s || ':' in b || ':' in t
    ensures IdempotencyKey(s, b, t) == IdempotencyKey(s2, b2, t2) && (s, b, t) != (s2, b2, t2)
  {
    if ':' in s {
      var i := ColonAt(s);
      AroundColon(s, i);
      s2, b2, t2 := s[..i], s[i + 1..] + ":" + b, t;
      Regroup(s[..i], s[i + 1..], b, t);
    } else if ':' in b {
      var i := ColonAt(b);
      AroundColon(b, i);
      s2, b2, t2 := s, b[..i], b[i + 1..] + ":" + t;
      Regroup(s, b[..i], b[i + 1..], t);
    } else {
      var i := ColonAt(t);
      AroundColon(t, i);
      s2, b2, t2 := s + ":" + b, t[..i], t[i + 1..];
      Regroup(s, b, t[..i], t[i + 1..]);
    }
  }

  predicate SharesKey(s1: string, b1: string, t1: string, s2: string, b2: string, t2: string) {
    (s1, b1, t1) != (s2, b2, t2) && IdempotencyKey(s1, b1, t1) == IdempotencyKey(s2, b2, t2)
  }

  // Some other booking has the same key exactly when there is a colon in some
  // part; and of the two, one has it in its session or its business.
  lemma KeyIsSharedIff(s: string, b: string, t: string)
    ensures (exists s2, b2, t2 :: SharesKey(s, b, t, s2, b2, t2)) <==> ':' in s || ':' in b || ':' in t
    ensures forall s2, b2, t2 :: SharesKey(s, b, t, s2, b2, t2) ==> ':' in s || ':' in b || ':' in s2 || ':' in b2
  {
    forall s2, b2, t2 | SharesKey(s, b, t, s2, b2, t2)
      ensures ':' in s || ':' in b || ':' in s2 || ':' in b2
      ensures ':' in s || ':' in b || ':' in t
    {
      if ':' !in s && ':' !in b && ':' !in s2 && ':' !in b2 {
        KeysAreUnique(s, b, t, s2, b2, t2);
      }
      if ':' !in s && ':' !in b && ':' !in t {
        PlainKeyIsAlone(s, b, t, s2, b2, t2);
      }
    }
    if ':' in s || ':' in b || ':' in t {
      var s2, b2, t2 := ColonCollides(s, b, t);
      assert SharesKey(s, b, t, s2, b2, t2);
    }
  }

  function Colons(s: string): nat {
    if s == "" then 0 else (if s[0] == ':' then 1 else 0) + Colons(s[1..])
  }

  lemma {:induction false} ColonsAdd(a: string, b: string)
    ensures Colons(a + b) == Colons(a) + Colons(b)
  {
    if a == "" {
      assert a + b == b;
    } else {
      assert (a + b)[1..] == a[1..] + b;
      ColonsAdd(a[1..], b);
    }
  }

  lemma {:induction false} ColonCounts(s: string)
    ensures Colons(s) == 0 <==> ':' !in s
  {
    if s != "" {
      ColonCounts(s[1..]);
      assert s == [s[0]] + s[1..];
    }
  }

  lemma KeyColons(s: string, b: string, t: string)
    ensures Colons(IdempotencyKey(s, b, t)) == Colons(s) + Colons(b) + Colons(t) + 2
  {
    ColonsAdd(s + ":" + b + ":", t);
    ColonsAdd(s + ":" + b, ":");
    ColonsAdd(s + ":", b);
    ColonsAdd(s, ":");
    assert Colons(":") == 1;
  }

  // A key of colon-free parts has two colons, so every reading of it has
  // colon-free parts.
  lemma PlainKeyIsAlone(s: string, b: string, t: string, s2: string, b2: string, t2: string)
    requires ':' !in s && ':' !in b && ':' !in t
    ensures !SharesKey(s, b, t, s2, b2, t2)
  {
    if IdempotencyKey(s, b, t) == IdempotencyKey(s2, b2, t2) {
      KeyColons(s, b, t);
      KeyColons(s2, b2, t2);
      ColonCounts(s);
      ColonCounts(b);
      ColonCounts(t);
      ColonCounts(s2);
      ColonCounts(b2);
      KeysAreUnique(s, b, t, s2, b2, t2);
    }
  }

  lemma {:induction false} LastColonSplits(x: string, a: string, y: string, b: string)
    requires ':' !in a && ':' !in b && x + ":" + a == y + ":" + b
    ensures a == b && x == y
  {
    var s := x + ":" + a;
    var n := |s| - 1;
    assert s == y + ":" + b;
    assert a != "" ==> s[n] == a[|a| - 1];
    assert b != "" ==> s[n] == b[|b| - 1];
    if a == "" {
      assert x == s[..n] && y == s[..n];
    } else {
      var c, d := a[..|a| - 1], b[..|b| - 1];
      assert (x + ":" + c) == s[..n] && (y + ":" + d) == s[..n];
      LastColonSplits(x, c, y, d);
      assert a == c + [a[|a| - 1]] && b == d + [b[|b| - 1]];
    }
  }

  // One feed entry for each booking and kind; the kinds contain no colon.
  lemma NotificationsAreUnique(b1: string, k1: string, b2: string, k2: string)
    requires ':' !in k1 && ':' !in k2
    ensures NotificationId(b1, k1) == NotificationId(b2, k2) <==> b1 == b2 && k1 == k2
  {
    if NotificationId(b1, k1) == NotificationId(b2, k2) {
      LastColonSplits("ntf_" + b1, k1, "ntf_" + b2, k2);
      assert b1 == ("ntf_" + b1)[4..] && b2 == ("ntf_" + b2)[4..];
    }
  }
}
