// Small shared definitions.
module Basics {
  datatype Option<+T> = None | Some(value: T)

  lemma MoveOne<T>(kept: set<T>, todo: set<T>, whole: set<T>, x: T)
    requires kept + todo == whole && x in todo
    ensures (kept + {x}) + (todo - {x}) == whole
  {
  }

  lemma Remainder<T>(whole: set<T>, a: set<T>, b: set<T>)
    requires a <= b <= whole
    ensures a + (b - a) == b
    ensures (whole - a) - (b - a) == whole - b
  {
  }

  lemma NothingLeft<T>(whole: set<T>, part: set<T>)
    requires part <= whole && whole - part == {}
    ensures part == whole
  {
    assert whole == part + (whole - part);
  }

  lemma KeysAdd<K, V>(m: map<K, V>, k: K, v: V)
    ensures m[k := v].Keys == m.Keys + {k}
  {
  }

  lemma Assoc<T>(a: seq<T>, b: seq<T>, c: seq<T>)
    ensures (a + b) + c == a + (b + c)
  {
  }

  lemma DropSnoc<T>(s: seq<T>, k: nat)
    requires k < |s|
    ensures s[k..] == s[..|s| - 1][k..] + [s[|s| - 1]]
  {
  }

  lemma TakeDrop<T>(s: seq<T>, k: nat, n: nat)
    requires k + n <= |s|
    ensures s[k..][..n] == s[k..k + n]
  {
  }

  lemma Longer<T>(a: seq<T>, b: seq<T>, c: seq<T>)
    requires a <= b
    ensures a <= b + c
  {
  }

  lemma AddNothing<T>(a: seq<T>)
    ensures a + [] == a
  {
  }
}
