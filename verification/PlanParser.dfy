// The parent's plan as parse_decision leaves it (plnt/agent/parent.py): from
// the model's entries to ids and dependencies the scheduler can work with.
module PlanParser {
  import opened Events
  import opened Basics
  import opened Graph

  const MAX_AGENTS := 4

  // One entry of the model's list: whether it is dropped (not an object, or no
  // agent that may run), the id it proposes, already in kebab case, and the rest.
  datatype Raw = Raw(dropped: bool, id: string, role: string, bundle: Option<string>, intent: string, deps: seq<string>)

  function Digits(n: nat): string {
    if n < 10 then [(n + '0' as int) as char] else Digits(n / 10) + [(n % 10 + '0' as int) as char]
  }

  // f"{aid}-{i + 1}"
  function Renamed(id: string, i: nat): string {
    id + "-" + Digits(i + 1)
  }

  predicate Taken(agents: seq<PlanEntry>, id: string) {
    exists k :: 0 <= k < |agents| && agents[k].id == id
  }

  predicate Skipped(agents: seq<PlanEntry>, r: Raw) {
    r.dropped || |agents| >= MAX_AGENTS
  }

  function IdFor(agents: seq<PlanEntry>, r: Raw, i: nat): string {
    if Taken(agents, r.id) then Renamed(r.id, i) else r.id
  }

  // The agents the first entries give, before their dependencies are cleaned.
  function Listed(raws: seq<Raw>): (agents: seq<PlanEntry>)
    ensures |agents| <= MAX_AGENTS
  {
    if raws == [] then []
    else
      var i := |raws| - 1;
      var before := Listed(raws[..i]);
      if Skipped(before, raws[i]) then before
      else before + [EntryFor(before, raws[i], i)]
  }

  ghost predicate Distinct(agents: seq<PlanEntry>) {
    forall i, j :: 0 <= i < j < |agents| ==> agents[i].id != agents[j].id
  }

  // A new name given to a repeated id is never one already in use.
  ghost predicate NoClash(raws: seq<Raw>) {
    forall i :: 0 <= i < |raws| ==> RenameIsFree(raws, i)
  }

  ghost predicate RenameIsFree(raws: seq<Raw>, i: nat)
    requires i < |raws|
  {
    var before := Listed(raws[..i]);
    !Skipped(before, raws[i]) && Taken(before, raws[i].id) ==> !Taken(before, Renamed(raws[i].id, i))
  }

  lemma DistinctSnoc(agents: seq<PlanEntry>, e: PlanEntry)
    ensures Distinct(agents + [e]) <==> Distinct(agents) && !Taken(agents, e.id)
  {
    var more := agents + [e];
    if Distinct(more) {
      forall i, j | 0 <= i < j < |agents|
        ensures agents[i].id != agents[j].id
      {
        assert more[i].id != more[j].id;
      }
      forall k | 0 <= k < |agents|
        ensures agents[k].id != e.id
      {
        assert more[k].id != more[|agents|].id;
      }
    }
  }

  // The ids of a plan are unique exactly when no renamed id clashes.
  lemma {:induction false} UniqueIffNoClash(raws: seq<Raw>)
    ensures Distinct(Listed(raws)) <==> NoClash(raws)
  {
    if raws != [] {
      var i := |raws| - 1;
      var front := raws[..i];
      UniqueIffNoClash(front);
      assert forall k :: 0 <= k < i ==> front[..k] == raws[..k] && front[k] == raws[k];
      assert NoClash(raws) <==> NoClash(front) && RenameIsFree(raws, i) by {
        forall k | 0 <= k < i
          ensures RenameIsFree(front, k) <==> RenameIsFree(raws, k)
        {
        }
      }
      if !Skipped(Listed(front), raws[i]) {
        DistinctSnoc(Listed(front), EntryFor(Listed(front), raws[i], i));
      }
    }
  }

  function EntryFor(agents: seq<PlanEntry>, r: Raw, i: nat): PlanEntry {
    PlanEntry(IdFor(agents, r, i), r.role, r.bundle, r.intent, r.deps)
  }

  lemma ListedSnoc(raws: seq<Raw>, r: Raw)
    ensures Listed(raws + [r]) ==
      if Skipped(Listed(raws), r) then Listed(raws) else Listed(raws) + [EntryFor(Listed(raws), r, |raws|)]
  {
    assert (raws + [r])[..|raws|] == raws;
  }

  // ------------------------------------------------------------ what is kept

  // The places of the entries that may run.
  function Allowed(raws: seq<Raw>): (places: seq<nat>)
    ensures forall k :: 0 <= k < |places| ==> places[k] < |raws|
  {
    if raws == [] then []
    else Allowed(raws[..|raws| - 1]) + if raws[|raws| - 1].dropped then [] else [|raws| - 1]
  }

  // An agent of the plan says what its entry said, under a name of its own if
  // the proposed one is taken.
  ghost predicate Stems(e: PlanEntry, earlier: seq<PlanEntry>, r: Raw, place: nat) {
    && e.role == r.role && e.bundle == r.bundle && e.intent == r.intent && e.dependsOn == r.deps
    && e.id == if exists k :: 0 <= k < |earlier| && earlier[k].id == r.id then r.id + "-" + Digits(place + 1) else r.id
  }

  // The plan is made of the first four entries that may run, in order.
  lemma {:induction false} ListedKeeps(raws: seq<Raw>)
    ensures |Listed(raws)| == if |Allowed(raws)| < 4 then |Allowed(raws)| else 4
    ensures forall k :: 0 <= k < |Listed(raws)| ==>
      Stems(Listed(raws)[k], Listed(raws)[..k], raws[Allowed(raws)[k]], Allowed(raws)[k])
  {
    if raws != [] {
      var i := |raws| - 1;
      var front := raws[..i];
      ListedKeeps(front);
      var before, after := Listed(front), Listed(raws);
      assert before <= after && Allowed(front) <= Allowed(raws);
      forall k | 0 <= k < |after|
        ensures Stems(after[k], after[..k], raws[Allowed(raws)[k]], Allowed(raws)[k])
      {
        if k < |before| {
          assert after[..k] == before[..k] && Allowed(raws)[k] == Allowed(front)[k];
        } else {
          assert after[..k] == before;
        }
      }
    }
  }

  function Value(s: string): int {
    if s == "" then 0 else 10 * Value(s[..|s| - 1]) + (s[|s| - 1] as int - '0' as int)
  }

  // The number in a new name reads as the entry's place in the list, from 1.
  lemma {:induction false} DigitsRead(n: nat)
    ensures Value(Digits(n)) == n && Digits(n) != ""
    ensures forall i :: 0 <= i < |Digits(n)| ==> '0' <= Digits(n)[i] <= '9'
  {
    if n < 10 {
      var d := Digits(n);
      assert d[..0] == "" && Value(d) == 10 * Value(d[..0]) + (d[0] as int - '0' as int);
    } else {
      DigitsRead(n / 10);
      var d := Digits(n);
      assert d[..|d| - 1] == Digits(n / 10);
    }
  }

  // And they can clash: the third entry's "a" becomes the "a-3" that is there.
  lemma IdsCanClash(r: Raw)
    requires !r.dropped
    ensures !Distinct(Listed([r.(id := "a-3"), r.(id := "a"), r.(id := "a")]))
  {
    var x, y := r.(id := "a-3"), r.(id := "a");
    ListedSnoc([], x);
    ListedSnoc([x], y);
    ListedSnoc([x, y], y);
    assert [] + [x] == [x] && [x] + [y] == [x, y] && [x, y] + [y] == [x, y, y];
    var two := Listed([x, y]);
    assert two[0].id == "a-3" && two[1].id == "a";
    assert Renamed("a", 2) == "a-3";
    var three := Listed([x, y, y]);
    assert three[2].id == three[0].id;
  }

  // ------------------------------------------------------------ dependencies

  function Clean(deps: seq<string>, ids: set<string>, own: string): (r: seq<string>)
    ensures forall d :: d in r <==> d in deps && d in ids && d != own
  {
    if deps == [] then []
    else
      var front := Clean(deps[..|deps| - 1], ids, own);
      if deps[|deps| - 1] in ids && deps[|deps| - 1] != own then front + [deps[|deps| - 1]] else front
  }

  // Cleaning keeps the order, and every entry it keeps as often as it is there.
  lemma {:induction false} CleanConcat(a: seq<string>, b: seq<string>, ids: set<string>, own: string)
    ensures Clean(a + b, ids, own) == Clean(a, ids, own) + Clean(b, ids, own)
  {
    if b == [] {
      assert a + b == a;
    } else {
      var n := |b| - 1;
      CleanConcat(a, b[..n], ids, own);
      assert (a + b)[..|a + b| - 1] == a + b[..n];
    }
  }

  lemma CleanOne(d: string, ids: set<string>, own: string)
    ensures Clean([d], ids, own) == if d in ids && d != own then [d] else []
  {
    assert [d][..0] == [];
  }

  function Ids(agents: seq<PlanEntry>): set<string> {
    set a | a in agents :: a.id
  }

  // What the scheduler may rely on.
  ghost predicate WellFormed(agents: seq<PlanEntry>) {
    && |agents| <= MAX_AGENTS
    && forall a, d :: a in agents && d in a.dependsOn ==> d in Ids(agents) && d != a.id
  }

  method Normalise(raws: seq<Raw>) returns (agents: seq<PlanEntry>)
    ensures WellFormed(agents)
    ensures |agents| == |Listed(raws)|
    ensures forall k :: 0 <= k < |agents| ==>
      agents[k] == Listed(raws)[k].(dependsOn := Clean(Listed(raws)[k].dependsOn, Ids(Listed(raws)), Listed(raws)[k].id))
  {
    agents := [];
    for i := 0 to |raws|
      invariant agents == Listed(raws[..i])
    {
      assert raws[..i + 1][..i] == raws[..i];
      if !Skipped(agents, raws[i]) {
        agents := agents + [EntryFor(agents, raws[i], i)];
      }
    }
    assert raws[..|raws|] == raws;
    ghost var listed := agents;
    var ids := Ids(agents);
    for k := 0 to |agents|
      invariant |agents| == |listed|
      invariant forall j :: 0 <= j < k ==> agents[j] == listed[j].(dependsOn := Clean(listed[j].dependsOn, ids, listed[j].id))
      invariant forall j :: k <= j < |agents| ==> agents[j] == listed[j]
    {
      agents := agents[k := agents[k].(dependsOn := Clean(agents[k].dependsOn, ids, agents[k].id))];
    }
    SameIds(listed, agents);
  }

  lemma SameIds(a: seq<PlanEntry>, b: seq<PlanEntry>)
    requires |a| == |b| && forall k :: 0 <= k < |a| ==> a[k].id == b[k].id
    ensures Ids(a) == Ids(b)
  {
    forall x | x in a
      ensures x.id in Ids(b)
    {
      var k :| 0 <= k < |a| && a[k] == x;
      assert b[k] in b;
    }
    forall x | x in b
      ensures x.id in Ids(a)
    {
      var k :| 0 <= k < |b| && b[k] == x;
      assert a[k] in a;
    }
  }

  // ------------------------------------------------------------ what that means for the schedule

  function GraphOfEntries(agents: seq<PlanEntry>): Graph {
    if agents == [] then map[]
    else GraphOfEntries(agents[..|agents| - 1])[agents[|agents| - 1].id := agents[|agents| - 1].dependsOn]
  }

  lemma {:induction false} EntriesMake(agents: seq<PlanEntry>)
    ensures GraphOfEntries(agents).Keys == Ids(agents)
    ensures forall id :: id in GraphOfEntries(agents) ==> exists a :: a in agents && a.id == id && a.dependsOn == GraphOfEntries(agents)[id]
  {
    if agents != [] {
      var n := |agents| - 1;
      EntriesMake(agents[..n]);
      assert agents == agents[..n] + [agents[n]];
      forall id | id in GraphOfEntries(agents)
        ensures exists a :: a in agents && a.id == id && a.dependsOn == GraphOfEntries(agents)[id]
      {
        if id == agents[n].id {
          assert agents[n] in agents;
        } else {
          var a :| a in agents[..n] && a.id == id && a.dependsOn == GraphOfEntries(agents[..n])[id];
          assert a in agents;
        }
      }
    }
  }

  // A normalised plan has no dangling dependency, so it runs completely
  // exactly when it has no cycle.
  lemma StuckIffCyclic(agents: seq<PlanEntry>)
    requires WellFormed(agents)
    ensures Closed(GraphOfEntries(agents))
    ensures HasCycle(GraphOfEntries(agents)) <==> BlockedNodes(GraphOfEntries(agents)) != {}
  {
    var g := GraphOfEntries(agents);
    EntriesMake(agents);
    forall id, d | id in g && d in g[id]
      ensures d in g
    {
      var a :| a in agents && a.id == id && a.dependsOn == g[id];
    }
    AcyclicFinishes(g);
    if !HasCycle(g) {
      AllDoneNoneBlocked(g, |g|);
    } else {
      var p :| Walk(g, p) && |p| > 1 && p[0] == p[|p| - 1];
      assert Repeats(p);
      assert Blocked(g, p[0]);
      assert p[0] in BlockedNodes(g);
    }
  }
}
